/**
 * Bytes, unsigned 64-bit integers and the fixed-width big-endian encoding
 * the folder-policy update uses for its integer attributes
 * (encoding/binary's BigEndian.PutUint64 into an 8-byte buffer).
 */
module BigEndian {

  type byte = b: int | 0 <= b < 256

  const UINT64_MODULUS: int := 0x1_0000_0000_0000_0000

  type uint64 = x: int | 0 <= x < 0x1_0000_0000_0000_0000

  /** Go's conversion uint64(x) of a 64-bit int: two's complement, that is x modulo 2^64. */
  function ToUint64(x: int): (u: uint64)
    ensures 0 <= x < UINT64_MODULUS ==> u == x
    ensures -UINT64_MODULUS <= x < 0 ==> u == x + UINT64_MODULUS
  {
    x % UINT64_MODULUS
  }

  function Pow256(n: nat): (p: nat)
    ensures p >= 1
  {
    if n == 0 then 1 else 256 * Pow256(n - 1)
  }

  lemma Pow256Of8()
    ensures Pow256(8) == UINT64_MODULUS
  {
    assert Pow256(2) == 0x1_0000;
    assert Pow256(4) == 0x1_0000_0000 by { assert Pow256(3) == 0x100_0000; }
    assert Pow256(6) == 0x1_0000_0000_0000 by { assert Pow256(5) == 0x100_0000_0000; }
    assert Pow256(7) == 0x100_0000_0000_0000;
  }

  /** The n lowest bytes of v, most significant first. */
  function ToBigEndian(n: nat, v: nat): (s: seq<byte>)
    ensures |s| == n
  {
    if n == 0 then [] else ToBigEndian(n - 1, v / 256) + [v % 256]
  }

  /** The number whose big-endian bytes are s. */
  function FromBigEndian(s: seq<byte>): (v: nat)
    ensures v < Pow256(|s|)
  {
    if s == [] then 0 else 256 * FromBigEndian(s[..|s| - 1]) + s[|s| - 1]
  }

  /** Reading back the n bytes written for v gives v whenever v fits in n bytes. */
  lemma {:induction false} FromToBigEndian(n: nat, v: nat)
    requires v < Pow256(n)
    ensures FromBigEndian(ToBigEndian(n, v)) == v
  {
    if n > 0 {
      var s := ToBigEndian(n, v);
      assert s[..n - 1] == ToBigEndian(n - 1, v / 256);
      FromToBigEndian(n - 1, v / 256);
    }
  }

  /** Writing back the value read from s gives s again: the encoding is onto. */
  lemma {:induction false} ToFromBigEndian(s: seq<byte>)
    ensures ToBigEndian(|s|, FromBigEndian(s)) == s
  {
    if s != [] {
      var n := |s|;
      var v := FromBigEndian(s);
      assert v / 256 == FromBigEndian(s[..n - 1]) && v % 256 == s[n - 1];
      ToFromBigEndian(s[..n - 1]);
      assert s == s[..n - 1] + [s[n - 1]];
    }
  }

  /** Two values that fit in n bytes encode differently: the encoding is one-to-one. */
  lemma ToBigEndianInjective(n: nat, v: nat, w: nat)
    requires v < Pow256(n) && w < Pow256(n)
    requires ToBigEndian(n, v) == ToBigEndian(n, w)
    ensures v == w
  {
    FromToBigEndian(n, v);
    FromToBigEndian(n, w);
  }

  /** The eight bytes of a uint64, as they end up in the buffer. */
  function Uint64Bytes(v: uint64): (s: seq<byte>)
    ensures |s| == 8
    ensures FromBigEndian(s) == v
  {
    Pow256Of8();
    FromToBigEndian(8, v);
    ToBigEndian(8, v)
  }

  /**
   * BigEndian.PutUint64(buf, v): writes the eight bytes of v into buf,
   * most significant byte first.
   */
  method PutUint64(buf: array<byte>, v: uint64)
    requires buf.Length == 8
    modifies buf
    ensures buf[..] == Uint64Bytes(v)
  {
    var x: nat := v;
    var i := 8;
    while i > 0
      invariant 0 <= i <= 8
      invariant ToBigEndian(8, v) == ToBigEndian(i, x) + buf[i..]
    {
      i := i - 1;
      buf[i] := x % 256;
      x := x / 256;
    }
  }
}
