/**
 * The folder-policy attribute codec of the `ysafe_access_policy` resource.
 *
 * Encode side (update): each of five optional policy fields that is both
 * changed and set becomes one (attribute, bytes) mapping, integers as
 * eight big-endian bytes of uint64(value) and the boolean as one byte.
 *
 * Decode side (read and import): the attribute list is scanned for the
 * five known names; the first known entry is decoded by the CBOR decoder
 * and the scan stops there.
 */
module PolicyCodec {
  import opened Wrappers
  import opened BigEndian
  import opened Wire

  datatype Field = MaxSize | MaxFileSize | MaxFileVersions | RemoveOlderVersions | DefaultTtlForFiles

  /** The attribute name of a field, as in the resource schema. */
  function Name(f: Field): string
  {
    match f
    case MaxSize => "max_size"
    case MaxFileSize => "max_file_size"
    case MaxFileVersions => "max_file_versions"
    case RemoveOlderVersions => "remove_older_versions"
    case DefaultTtlForFiles => "default_ttl_for_files"
  }

  /** The field an attribute name denotes, if any. */
  function FieldOf(name: string): (r: Option<Field>)
    ensures r.Some? ==> Name(r.value) == name
    ensures forall f :: Name(f) == name ==> r == Some(f)
  {
    if name == "max_size" then Some(MaxSize)
    else if name == "max_file_size" then Some(MaxFileSize)
    else if name == "max_file_versions" then Some(MaxFileVersions)
    else if name == "remove_older_versions" then Some(RemoveOlderVersions)
    else if name == "default_ttl_for_files" then Some(DefaultTtlForFiles)
    else None
  }

  /** Distinct fields have distinct names. */
  lemma NamesAreDistinct(f: Field, g: Field)
    ensures Name(f) == Name(g) ==> f == g
  {
    if Name(f) == Name(g) {
      assert FieldOf(Name(f)) == Some(f);
    }
  }

  /** The five attribute names, pairwise different. */
  lemma NamesDiffer()
    ensures forall f, g :: f != g ==> Name(f) != Name(g)
  {
    assert |Name(MaxSize)| == 8 && |Name(MaxFileSize)| == 13 && |Name(MaxFileVersions)| == 17;
    assert |Name(RemoveOlderVersions)| == 21 && |Name(DefaultTtlForFiles)| == 21;
    assert Name(RemoveOlderVersions)[0] != Name(DefaultTtlForFiles)[0];
  }

  /** The attribute names the read scan looks for. */
  const KnownNames: set<string> := {Name(MaxSize), Name(MaxFileSize), Name(MaxFileVersions), Name(RemoveOlderVersions), Name(DefaultTtlForFiles)}

  /** The known names are exactly those that denote a field. */
  lemma KnownNamesAreFields(name: string)
    ensures name in KnownNames <==> FieldOf(name).Some?
  {
    if FieldOf(name).Some? {
      assert name == Name(FieldOf(name).value);
    }
  }

  /** The order in which update emits the fields. */
  const FieldOrder: seq<Field> := [MaxSize, MaxFileSize, MaxFileVersions, RemoveOlderVersions, DefaultTtlForFiles]

  /** The position of a field in FieldOrder. */
  function Rank(f: Field): (k: nat)
    ensures k < |FieldOrder| && FieldOrder[k] == f
  {
    match f
    case MaxSize => 0
    case MaxFileSize => 1
    case MaxFileVersions => 2
    case RemoveOlderVersions => 3
    case DefaultTtlForFiles => 4
  }

  /** The position in FieldOrder of the field an attribute name denotes (5 for an unknown name). */
  function AttributeRank(name: string): nat
  {
    match FieldOf(name)
    case Some(f) => Rank(f)
    case None => |FieldOrder|
  }

  datatype KeyValMapping = KeyValMapping(attribute: string, value: seq<byte>)

  function Names(ms: seq<KeyValMapping>): (ns: seq<string>)
    ensures |ns| == |ms|
    ensures forall i :: 0 <= i < |ms| ==> ns[i] == ms[i].attribute
  {
    if ms == [] then [] else [ms[0].attribute] + Names(ms[1..])
  }

  // ---------------------------------------------------------------------
  // Encode side
  // ---------------------------------------------------------------------

  /**
   * A value held in Terraform state. Integers are not bounded to Go's
   * 64-bit int; ToUint64 is stated for every integer.
   */
  datatype Value = IntValue(i: int) | BoolValue(b: bool) | StringValue(s: string)

  /**
   * What update reads from Terraform: `values` holds the attributes GetOk
   * reports as set, `changed` the attributes HasChange reports as changed.
   */
  datatype Plan = Plan(values: map<string, Value>, changed: set<string>)

  /**
   * The field whose change flag gates the emission of f; for
   * default_ttl_for_files it is remove_older_versions, not its own.
   */
  function GatingField(f: Field): Field
  {
    if f == DefaultTtlForFiles then RemoveOlderVersions else f
  }

  /** Whether update emits a mapping for f. */
  predicate Selected(p: Plan, f: Field)
  {
    Name(GatingField(f)) in p.changed && Name(f) in p.values
  }

  /** The bytes update writes for field f holding v, or the error it stops with. */
  function EncodeField(f: Field, v: Value): (r: Result<seq<byte>, Error>)
    ensures f == RemoveOlderVersions ==> (r.Ok? <==> v.BoolValue?)
    ensures f == RemoveOlderVersions && r.Ok? ==> |r.value| == 1 && (r.value[0] == 1 <==> v.b) && (r.value[0] == 0 <==> !v.b)
    ensures f != RemoveOlderVersions ==> (r.Ok? <==> v.IntValue?)
    ensures f != RemoveOlderVersions && r.Ok? ==> |r.value| == 8 && FromBigEndian(r.value) == v.i % UINT64_MODULUS
    ensures r.Err? ==> r.error == if f == RemoveOlderVersions then BoolAssertionPanic else UnexpectedIntType
  {
    if f == RemoveOlderVersions then
      match v
      case BoolValue(b) => Ok([if b then 1 else 0])
      case _ => Err(BoolAssertionPanic)
    else
      match v
      case IntValue(i) => Ok(Uint64Bytes(ToUint64(i)))
      case _ => Err(UnexpectedIntType)
  }

  /** The mapping update appends for field f: none when f is not selected. */
  function EmitField(p: Plan, f: Field): (r: Result<seq<KeyValMapping>, Error>)
    ensures r == Ok([]) <==> !Selected(p, f)
    ensures r.Err? <==> Selected(p, f) && EncodeField(f, p.values[Name(f)]).Err?
    ensures r.Ok? && r.value != [] ==>
      |r.value| == 1 && r.value[0].attribute == Name(f) && EncodeField(f, p.values[Name(f)]) == Ok(r.value[0].value)
  {
    if !Selected(p, f) then Ok([])
    else
      match EncodeField(f, p.values[Name(f)])
      case Err(e) => Err(e)
      case Ok(bytes) => Ok([KeyValMapping(Name(f), bytes)])
  }

  /** The mappings for the selected ones among `fields`, in their order, stopping at the first error. */
  function BuildMappings(fields: seq<Field>, p: Plan): (r: Result<seq<KeyValMapping>, Error>)
    ensures r.Ok? ==> |r.value| <= |fields|
  {
    if fields == [] then Ok([])
    else
      match EmitField(p, fields[0])
      case Err(e) => Err(e)
      case Ok(m) =>
        match BuildMappings(fields[1..], p)
        case Err(e) => Err(e)
        case Ok(rest) => Ok(m + rest)
  }

  /** The mappings follow FieldOrder strictly, so no name appears twice. */
  predicate InFieldOrder(ms: seq<KeyValMapping>)
  {
    forall i, j :: 0 <= i < j < |ms| ==> AttributeRank(ms[i].attribute) < AttributeRank(ms[j].attribute)
  }

  predicate StrictlyRanked(fields: seq<Field>)
  {
    forall i, j :: 0 <= i < j < |fields| ==> Rank(fields[i]) < Rank(fields[j])
  }

  /** The fields among `fields` that update emits a mapping for, in their order. */
  function SelectedAmong(fields: seq<Field>, p: Plan): (s: seq<Field>)
    ensures forall g :: g in s <==> g in fields && Selected(p, g)
  {
    if fields == [] then []
    else if Selected(p, fields[0]) then [fields[0]] + SelectedAmong(fields[1..], p)
    else SelectedAmong(fields[1..], p)
  }

  /** ms[i] is the mapping of the selected field sel[i]: its name and the encoding of its value. */
  predicate MappingsOf(p: Plan, ms: seq<KeyValMapping>, sel: seq<Field>)
  {
    && |ms| == |sel|
    && forall i :: 0 <= i < |ms| ==>
         && ms[i].attribute == Name(sel[i])
         && Selected(p, sel[i])
         && EncodeField(sel[i], p.values[Name(sel[i])]) == Ok(ms[i].value)
  }

  /** Building yields one mapping per selected field, in the fields' order. */
  lemma {:induction false} BuildMappingsFollowSelection(fields: seq<Field>, p: Plan)
    ensures BuildMappings(fields, p).Ok? ==> MappingsOf(p, BuildMappings(fields, p).value, SelectedAmong(fields, p))
  {
    if fields != [] {
      var tail := fields[1..];
      BuildMappingsFollowSelection(tail, p);
      var r := BuildMappings(fields, p);
      if r.Ok? {
        var m := EmitField(p, fields[0]).value;
        var rest := BuildMappings(tail, p).value;
        assert r.value == m + rest;
        if Selected(p, fields[0]) {
          ConsMappings(p, m, rest, fields[0], SelectedAmong(tail, p));
        } else {
          assert r.value == rest;
        }
      }
    }
  }

  lemma ConsMappings(p: Plan, m: seq<KeyValMapping>, rest: seq<KeyValMapping>, f: Field, sel: seq<Field>)
    requires MappingsOf(p, rest, sel) && Selected(p, f)
    requires |m| == 1 && m[0].attribute == Name(f) && EncodeField(f, p.values[Name(f)]) == Ok(m[0].value)
    ensures MappingsOf(p, m + rest, [f] + sel)
  {
    var ms := m + rest;
    var fs := [f] + sel;
    forall i | 0 <= i < |ms|
      ensures ms[i].attribute == Name(fs[i]) && Selected(p, fs[i]) && EncodeField(fs[i], p.values[Name(fs[i])]) == Ok(ms[i].value)
    {
      if i > 0 {
        assert ms[i] == rest[i - 1] && fs[i] == sel[i - 1];
      }
    }
  }

  /** Selecting from strictly ranked fields keeps them strictly ranked. */
  lemma {:induction false} SelectedAmongRanked(fields: seq<Field>, p: Plan)
    requires StrictlyRanked(fields)
    ensures StrictlyRanked(SelectedAmong(fields, p))
  {
    if fields != [] {
      var tail := fields[1..];
      assert StrictlyRanked(tail);
      SelectedAmongRanked(tail, p);
      var tailSel := SelectedAmong(tail, p);
      if Selected(p, fields[0]) {
        forall j | 0 <= j < |tailSel|
          ensures Rank(fields[0]) < Rank(tailSel[j])
        {
          assert tailSel[j] in tail;
          var k :| 0 <= k < |tail| && tail[k] == tailSel[j];
          assert fields[k + 1] == tail[k];
        }
        assert SelectedAmong(fields, p) == [fields[0]] + tailSel;
      }
    }
  }

  lemma AttributeRankOfName(f: Field)
    ensures AttributeRank(Name(f)) == Rank(f)
  {
    assert FieldOf(Name(f)) == Some(f);
  }

  /**
   * The policy update builds at most five mappings, in FieldOrder, so
   * each attribute name appears at most once.
   */
  lemma PolicyInFieldOrder(p: Plan)
    ensures var r := BuildMappings(FieldOrder, p);
      r.Ok? ==>
        && |r.value| <= 5
        && InFieldOrder(r.value)
        && (forall i, j :: 0 <= i < j < |r.value| ==> r.value[i].attribute != r.value[j].attribute)
  {
    assert StrictlyRanked(FieldOrder);
    SelectedAmongRanked(FieldOrder, p);
    BuildMappingsFollowSelection(FieldOrder, p);
    var r := BuildMappings(FieldOrder, p);
    if r.Ok? {
      var sel := SelectedAmong(FieldOrder, p);
      forall i, j | 0 <= i < j < |r.value|
        ensures AttributeRank(r.value[i].attribute) < AttributeRank(r.value[j].attribute)
        ensures r.value[i].attribute != r.value[j].attribute
      {
        AttributeRankOfName(sel[i]);
        AttributeRankOfName(sel[j]);
      }
    }
  }

  /**
   * The policy holds one mapping per selected field, in FieldOrder, each
   * carrying the field's name and the encoding of its value; so a field
   * has a mapping exactly when it is selected.
   */
  lemma PolicyEncodesSelected(p: Plan)
    ensures var r := BuildMappings(FieldOrder, p);
      r.Ok? ==>
        && MappingsOf(p, r.value, SelectedAmong(FieldOrder, p))
        && (forall f :: Name(f) in Names(r.value) <==> Selected(p, f))
  {
    BuildMappingsFollowSelection(FieldOrder, p);
    var r := BuildMappings(FieldOrder, p);
    if r.Ok? {
      var sel := SelectedAmong(FieldOrder, p);
      forall f ensures Name(f) in Names(r.value) <==> Selected(p, f) {
        if Selected(p, f) {
          assert FieldOrder[Rank(f)] == f;
          assert f in sel;
          var i :| 0 <= i < |sel| && sel[i] == f;
          assert Names(r.value)[i] == Name(f);
        }
        if Name(f) in Names(r.value) {
          var i :| 0 <= i < |r.value| && Names(r.value)[i] == Name(f);
          NamesAreDistinct(f, sel[i]);
        }
      }
    }
  }

  /** Building fails exactly when a selected field among `fields` holds a value of the wrong type. */
  lemma {:induction false} BuildMappingsFails(fields: seq<Field>, p: Plan)
    ensures BuildMappings(fields, p).Err? <==>
      exists k :: 0 <= k < |fields| && Selected(p, fields[k]) && EncodeField(fields[k], p.values[Name(fields[k])]).Err?
  {
    if fields != [] {
      BuildMappingsFails(fields[1..], p);
      assert forall k :: 1 <= k < |fields| ==> fields[k] == fields[1..][k - 1];
    }
  }

  /** The policy cannot be built exactly when a selected field holds a value of the wrong type. */
  lemma PolicyFails(p: Plan)
    ensures BuildMappings(FieldOrder, p).Err? <==>
      exists f :: Selected(p, f) && EncodeField(f, p.values[Name(f)]).Err?
  {
    BuildMappingsFails(FieldOrder, p);
    if BuildMappings(FieldOrder, p).Err? {
      var k :| 0 <= k < |FieldOrder| && Selected(p, FieldOrder[k]) && EncodeField(FieldOrder[k], p.values[Name(FieldOrder[k])]).Err?;
      var f := FieldOrder[k];
      assert Selected(p, f) && EncodeField(f, p.values[Name(f)]).Err?;
    }
    if f :| Selected(p, f) && EncodeField(f, p.values[Name(f)]).Err? {
      var k := Rank(f);
      assert FieldOrder[k] == f;
    }
  }

  /** Plans that select the same fields with the same values build the same mappings. */
  lemma {:induction false} BuildMappingsDependsOnSelection(fields: seq<Field>, p: Plan, q: Plan)
    requires p.values == q.values
    requires forall f :: Selected(p, f) <==> Selected(q, f)
    ensures BuildMappings(fields, p) == BuildMappings(fields, q)
  {
    if fields != [] {
      BuildMappingsDependsOnSelection(fields[1..], p, q);
    }
  }

  /**
   * default_ttl_for_files is emitted when remove_older_versions has
   * changed and the TTL is set; whether the TTL itself changed is never
   * consulted.
   */
  lemma TtlGatedByRemoveOlderVersions(p: Plan)
    ensures Selected(p, DefaultTtlForFiles) <==>
      "remove_older_versions" in p.changed && "default_ttl_for_files" in p.values
    ensures BuildMappings(FieldOrder, p) == BuildMappings(FieldOrder, p.(changed := p.changed + {"default_ttl_for_files"}))
    ensures BuildMappings(FieldOrder, p) == BuildMappings(FieldOrder, p.(changed := p.changed - {"default_ttl_for_files"}))
  {
    var withTtl := p.(changed := p.changed + {"default_ttl_for_files"});
    var withoutTtl := p.(changed := p.changed - {"default_ttl_for_files"});
    forall f ensures Selected(p, f) <==> Selected(withTtl, f) {
      NamesAreDistinct(GatingField(f), DefaultTtlForFiles);
    }
    forall f ensures Selected(p, f) <==> Selected(withoutTtl, f) {
      NamesAreDistinct(GatingField(f), DefaultTtlForFiles);
    }
    BuildMappingsDependsOnSelection(FieldOrder, p, withTtl);
    BuildMappingsDependsOnSelection(FieldOrder, p, withoutTtl);
  }

  /** Progress of the update's blocks: `done` was built by the first k of them. */
  predicate BuiltFirst(p: Plan, k: nat, done: seq<KeyValMapping>)
    requires k <= |FieldOrder|
  {
    BuildMappings(FieldOrder, p) == AppendTo(done, BuildMappings(FieldOrder[k..], p))
  }

  /** `done` followed by the outcome of the remaining blocks. */
  function AppendTo(done: seq<KeyValMapping>, later: Result<seq<KeyValMapping>, Error>): Result<seq<KeyValMapping>, Error>
  {
    match later
    case Ok(ms) => Ok(done + ms)
    case Err(e) => Err(e)
  }

  lemma AppendToNothing(later: Result<seq<KeyValMapping>, Error>)
    ensures AppendTo([], later) == later
  {
    if later.Ok? {
      assert [] + later.value == later.value;
    }
  }

  lemma BlockStep(p: Plan, k: nat, done: seq<KeyValMapping>, m: seq<KeyValMapping>)
    requires k < |FieldOrder| && BuiltFirst(p, k, done)
    requires EmitField(p, FieldOrder[k]) == Ok(m)
    ensures BuiltFirst(p, k + 1, done + m)
  {
    var fields := FieldOrder[k..];
    assert fields[0] == FieldOrder[k];
    assert fields[1..] == FieldOrder[k + 1..];
    match BuildMappings(FieldOrder[k + 1..], p)
    case Err(e) =>
    case Ok(rest) =>
      assert BuildMappings(fields, p) == Ok(m + rest);
      assert done + (m + rest) == (done + m) + rest;
  }

  lemma BlockFails(p: Plan, k: nat, done: seq<KeyValMapping>, e: Error)
    requires k < |FieldOrder| && BuiltFirst(p, k, done)
    requires EmitField(p, FieldOrder[k]) == Err(e)
    ensures BuildMappings(FieldOrder, p) == Err(e)
  {
    assert FieldOrder[k..][0] == FieldOrder[k];
  }

  /** Fills an 8-byte buffer with the big-endian bytes of uint64(i). */
  method EncodeInt(i: int) returns (bytes: seq<byte>)
    ensures bytes == Uint64Bytes(ToUint64(i))
  {
    var buf := new byte[8];
    PutUint64(buf, ToUint64(i));
    bytes := buf[..];
  }

  /**
   * One integer block of update: when `hasChange` and the field is set,
   * assert its value is an int and append its eight-byte encoding.
   * The k-th block stands for FieldOrder[k].
   */
  method AppendIntMapping(p: Plan, f: Field, hasChange: bool, mappings: seq<KeyValMapping>, ghost k: nat)
    returns (r: Result<seq<KeyValMapping>, Error>)
    requires k < |FieldOrder| && FieldOrder[k] == f && f != RemoveOlderVersions
    requires hasChange == (Name(GatingField(f)) in p.changed)
    requires BuiltFirst(p, k, mappings)
    ensures r.Err? <==> EmitField(p, f).Err?
    ensures r.Ok? ==> r.value == mappings + EmitField(p, f).value
    ensures r.Err? ==> r == BuildMappings(FieldOrder, p)
    ensures r.Ok? ==> BuiltFirst(p, k + 1, r.value)
  {
    if hasChange && Name(f) in p.values {
      var val := p.values[Name(f)];
      if !val.IntValue? {
        BlockFails(p, k, mappings, UnexpectedIntType);
        return Err(UnexpectedIntType);
      }
      var buf := EncodeInt(val.i);
      BlockStep(p, k, mappings, [KeyValMapping(Name(f), buf)]);
      return Ok(mappings + [KeyValMapping(Name(f), buf)]);
    }
    BlockStep(p, k, mappings, []);
    assert mappings + [] == mappings;
    return Ok(mappings);
  }

  /** The remove_older_versions block of update: one byte, 1 for true and 0 for false. */
  method AppendBoolMapping(p: Plan, mappings: seq<KeyValMapping>)
    returns (r: Result<seq<KeyValMapping>, Error>)
    requires BuiltFirst(p, 3, mappings)
    ensures r.Err? <==> EmitField(p, RemoveOlderVersions).Err?
    ensures r.Ok? ==> r.value == mappings + EmitField(p, RemoveOlderVersions).value
    ensures r.Err? ==> r == BuildMappings(FieldOrder, p)
    ensures r.Ok? ==> BuiltFirst(p, 4, r.value)
  {
    if Name(RemoveOlderVersions) in p.changed && Name(RemoveOlderVersions) in p.values {
      var v := p.values[Name(RemoveOlderVersions)];
      if !v.BoolValue? {
        BlockFails(p, 3, mappings, BoolAssertionPanic);
        return Err(BoolAssertionPanic);
      }
      var buf := new byte[] [0];
      if v.b {
        buf[0] := 1;
      }
      assert buf[..] == [if v.b then 1 else 0];
      assert EncodeField(RemoveOlderVersions, v) == Ok(buf[..]);
      BlockStep(p, 3, mappings, [KeyValMapping(Name(RemoveOlderVersions), buf[..])]);
      return Ok(mappings + [KeyValMapping(Name(RemoveOlderVersions), buf[..])]);
    }
    BlockStep(p, 3, mappings, []);
    assert mappings + [] == mappings;
    return Ok(mappings);
  }

  /**
   * The attribute list update builds, block by block in FieldOrder.
   * The default_ttl_for_files block is gated on the change flag of
   * remove_older_versions, as the source has it.
   */
  method BuildPolicy(p: Plan) returns (r: Result<seq<KeyValMapping>, Error>)
    ensures r == BuildMappings(FieldOrder, p)
  {
    var mappings: seq<KeyValMapping> := [];
    assert FieldOrder[0..] == FieldOrder;
    AppendToNothing(BuildMappings(FieldOrder, p));
    r := AppendIntMapping(p, MaxSize, Name(MaxSize) in p.changed, mappings, 0);
    if r.Err? {
      return;
    }
    r := AppendIntMapping(p, MaxFileSize, Name(MaxFileSize) in p.changed, r.value, 1);
    if r.Err? {
      return;
    }
    r := AppendIntMapping(p, MaxFileVersions, Name(MaxFileVersions) in p.changed, r.value, 2);
    if r.Err? {
      return;
    }
    r := AppendBoolMapping(p, r.value);
    if r.Err? {
      return;
    }
    r := AppendIntMapping(p, DefaultTtlForFiles, Name(RemoveOlderVersions) in p.changed, r.value, 4);
    if r.Err? {
      return;
    }
    assert FieldOrder[5..] == [];
    assert r.value + [] == r.value;
  }

  // ---------------------------------------------------------------------
  // Decode side
  // ---------------------------------------------------------------------

  /**
   * The decoders read and import rely on, as possibly failing functions
   * of the bytes (None is an error): protobuf for the policy blob, and
   * CBOR for each attribute value. A CBOR value decoded through a pointer
   * to a pointer may be null, which leaves the pointer nil: Some(None).
   */
  datatype Decoders = Decoders(
    policy: seq<byte> -> Option<seq<KeyValMapping>>,
    cborInt: seq<byte> -> Option<int>,
    cborOptUint64: seq<byte> -> Option<Option<uint64>>,
    cborOptBool: seq<byte> -> Option<Option<bool>>)

  /**
   * The locals the scan fills: three plain integers that stand for "unset"
   * at 0, and two optional values that stand for "unset" at nil.
   */
  datatype Decoded = Decoded(
    maxSize: int,
    maxFileSize: int,
    maxFileVersions: int,
    removeOlderVersions: Option<bool>,
    defaultTtlForFiles: Option<uint64>)

  const Undecoded := Decoded(0, 0, 0, None, None)

  /** The position of the first entry of attrs whose name belongs to known. */
  function FirstKnownEntry(attrs: seq<KeyValMapping>, known: set<string>): (r: Option<nat>)
    ensures r.Some? ==> r.value < |attrs| && attrs[r.value].attribute in known
    ensures r.Some? ==> forall j :: 0 <= j < r.value ==> attrs[j].attribute !in known
    ensures r.None? <==> forall j :: 0 <= j < |attrs| ==> attrs[j].attribute !in known
  {
    if attrs == [] then None
    else if attrs[0].attribute in known then Some(0)
    else
      match FirstKnownEntry(attrs[1..], known)
      case None => None
      case Some(i) => Some(i + 1)
  }

  lemma FirstKnownEntryAt(attrs: seq<KeyValMapping>, known: set<string>, i: nat)
    requires i < |attrs| && attrs[i].attribute in known
    requires forall j :: 0 <= j < i ==> attrs[j].attribute !in known
    ensures FirstKnownEntry(attrs, known) == Some(i)
  {
  }

  /** Entries outside known in front of the list shift the first known position by their number. */
  lemma {:induction false} FirstKnownEntrySkips(unknown: seq<KeyValMapping>, rest: seq<KeyValMapping>, known: set<string>)
    requires forall j :: 0 <= j < |unknown| ==> unknown[j].attribute !in known
    ensures FirstKnownEntry(unknown + rest, known) ==
      match FirstKnownEntry(rest, known) case None => None case Some(i) => Some(|unknown| + i)
  {
    if unknown == [] {
      assert unknown + rest == rest;
    } else {
      assert (unknown + rest)[0] == unknown[0];
      assert (unknown + rest)[1..] == unknown[1..] + rest;
      FirstKnownEntrySkips(unknown[1..], rest, known);
    }
  }

  /** The scan when its first known entry, at idx, names an integer field. */
  lemma ScanAtInt(attrList: seq<KeyValMapping>, idx: nat, f: Field, dec: Decoders)
    requires f != RemoveOlderVersions && f != DefaultTtlForFiles
    requires idx < |attrList| && attrList[idx].attribute == Name(f)
    requires forall j :: 0 <= j < idx ==> attrList[j].attribute !in KnownNames
    ensures Scan(attrList, dec) == if dec.cborInt(attrList[idx].value).None? then Err(DataCorrupted) else Ok(Undecoded)
  {
    ScanAt(attrList, idx, f, dec);
  }

  /** The scan when its first known entry, at idx, is default_ttl_for_files. */
  lemma ScanAtTtl(attrList: seq<KeyValMapping>, idx: nat, dec: Decoders)
    requires idx < |attrList| && attrList[idx].attribute == Name(DefaultTtlForFiles)
    requires forall j :: 0 <= j < idx ==> attrList[j].attribute !in KnownNames
    ensures Scan(attrList, dec) == match dec.cborOptUint64(attrList[idx].value)
      case None => Err(DataCorrupted)
      case Some(ttl) => Ok(Undecoded.(defaultTtlForFiles := ttl))
  {
    ScanAt(attrList, idx, DefaultTtlForFiles, dec);
  }

  /** The scan when its first known entry, at idx, is remove_older_versions. */
  lemma ScanAtBool(attrList: seq<KeyValMapping>, idx: nat, dec: Decoders)
    requires idx < |attrList| && attrList[idx].attribute == Name(RemoveOlderVersions)
    requires forall j :: 0 <= j < idx ==> attrList[j].attribute !in KnownNames
    ensures Scan(attrList, dec) == match dec.cborOptBool(attrList[idx].value)
      case None => Err(DataCorrupted)
      case Some(b) => Ok(Undecoded.(removeOlderVersions := b))
  {
    ScanAt(attrList, idx, RemoveOlderVersions, dec);
  }

  /** A name equal to none of the five is not known. */
  lemma NotKnown(k: string)
    requires k != "max_size" && k != "max_file_size" && k != "max_file_versions"
    requires k != "default_ttl_for_files" && k != "remove_older_versions"
    ensures k !in KnownNames
  {
  }

  /** At the first known position of the list, the scan decodes that entry as field f. */
  lemma ScanAt(attrList: seq<KeyValMapping>, idx: nat, f: Field, dec: Decoders)
    requires idx < |attrList| && attrList[idx].attribute == Name(f)
    requires forall j :: 0 <= j < idx ==> attrList[j].attribute !in KnownNames
    ensures FieldOf(attrList[idx].attribute) == Some(f)
    ensures Scan(attrList, dec) == DecodeAttribute(attrList[idx], dec)
  {
    assert FieldOf(Name(f)) == Some(f);
    assert Name(f) in KnownNames;
    FirstKnownEntryAt(attrList, KnownNames, idx);
  }

  /**
   * How the scan decodes the value of one attribute. The three integer
   * destinations are passed by value, so the decoder's success or failure
   * is all that comes back and the locals keep 0.
   */
  function DecodeAttribute(kv: KeyValMapping, dec: Decoders): (r: Result<Decoded, Error>)
    ensures r.Err? ==> r.error == DataCorrupted
    ensures r.Ok? ==> r.value.maxSize == 0 && r.value.maxFileSize == 0 && r.value.maxFileVersions == 0
    ensures r.Ok? && r.value.removeOlderVersions.Some? ==>
      FieldOf(kv.attribute) == Some(RemoveOlderVersions) && dec.cborOptBool(kv.value) == Some(r.value.removeOlderVersions)
    ensures r.Ok? && r.value.defaultTtlForFiles.Some? ==>
      FieldOf(kv.attribute) == Some(DefaultTtlForFiles) && dec.cborOptUint64(kv.value) == Some(r.value.defaultTtlForFiles)
    ensures FieldOf(kv.attribute).None? ==> r == Ok(Undecoded)
    ensures FieldOf(kv.attribute) == Some(RemoveOlderVersions) && dec.cborOptBool(kv.value).Some? ==>
      r == Ok(Undecoded.(removeOlderVersions := dec.cborOptBool(kv.value).value))
    ensures FieldOf(kv.attribute) == Some(DefaultTtlForFiles) && dec.cborOptUint64(kv.value).Some? ==>
      r == Ok(Undecoded.(defaultTtlForFiles := dec.cborOptUint64(kv.value).value))
    ensures r.Err? <==> match FieldOf(kv.attribute)
      case None => false
      case Some(RemoveOlderVersions) => dec.cborOptBool(kv.value).None?
      case Some(DefaultTtlForFiles) => dec.cborOptUint64(kv.value).None?
      case Some(_) => dec.cborInt(kv.value).None?
  {
    match FieldOf(kv.attribute)
    case None => Ok(Undecoded)
    case Some(f) =>
      match f
      case DefaultTtlForFiles =>
        (match dec.cborOptUint64(kv.value)
         case None => Err(DataCorrupted)
         case Some(ttl) => Ok(Undecoded.(defaultTtlForFiles := ttl)))
      case RemoveOlderVersions =>
        (match dec.cborOptBool(kv.value)
         case None => Err(DataCorrupted)
         case Some(b) => Ok(Undecoded.(removeOlderVersions := b)))
      case _ =>
        if dec.cborInt(kv.value).None? then Err(DataCorrupted) else Ok(Undecoded)
  }

  /** What the scan of an attribute list yields: the first known entry decoded, or nothing. */
  function Scan(attrs: seq<KeyValMapping>, dec: Decoders): Result<Decoded, Error>
  {
    match FirstKnownEntry(attrs, KnownNames)
    case None => Ok(Undecoded)
    case Some(i) => DecodeAttribute(attrs[i], dec)
  }

  /** The attribute names of attrList, collected one append at a time. */
  method KeyList(attrList: seq<KeyValMapping>) returns (keylist: seq<string>)
    ensures |keylist| == |attrList|
    ensures forall j :: 0 <= j < |attrList| ==> keylist[j] == attrList[j].attribute
  {
    keylist := [];
    for i := 0 to |attrList|
      invariant |keylist| == i
      invariant forall j :: 0 <= j < i ==> keylist[j] == attrList[j].attribute
    {
      keylist := keylist + [attrList[i].attribute];
    }
  }

  /**
   * The scan of read and import: copy the attribute names into a key
   * list, then walk it and stop at the first known name, decoding its
   * value.
   */
  method ScanPolicy(attrList: seq<KeyValMapping>, dec: Decoders) returns (r: Result<Decoded, Error>)
    ensures r == Scan(attrList, dec)
  {
    var keylist := KeyList(attrList);
    var maxSize, maxFileSize, maxFileVersions := 0, 0, 0;
    var removeOlderVersions: Option<bool> := None;
    var defaultTtlForFiles: Option<uint64> := None;
    var idx := 0;
    while idx < |keylist|
      invariant 0 <= idx <= |keylist|
      invariant forall j :: 0 <= j < idx ==> attrList[j].attribute !in KnownNames
    {
      var k := keylist[idx];
      if k == "max_size" {
        ScanAtInt(attrList, idx, MaxSize, dec);
        var got := dec.cborInt(attrList[idx].value);
        if got.None? {
          return Err(DataCorrupted);
        }
        break;
      } else if k == "max_file_size" {
        ScanAtInt(attrList, idx, MaxFileSize, dec);
        var got := dec.cborInt(attrList[idx].value);
        if got.None? {
          return Err(DataCorrupted);
        }
        break;
      } else if k == "max_file_versions" {
        ScanAtInt(attrList, idx, MaxFileVersions, dec);
        var got := dec.cborInt(attrList[idx].value);
        if got.None? {
          return Err(DataCorrupted);
        }
        break;
      } else if k == "default_ttl_for_files" {
        ScanAtTtl(attrList, idx, dec);
        defaultTtlForFiles := Some(0);
        var got := dec.cborOptUint64(attrList[idx].value);
        if got.None? {
          return Err(DataCorrupted);
        }
        defaultTtlForFiles := got.value;
        break;
      } else if k == "remove_older_versions" {
        ScanAtBool(attrList, idx, dec);
        removeOlderVersions := Some(false);
        var got := dec.cborOptBool(attrList[idx].value);
        if got.None? {
          return Err(DataCorrupted);
        }
        removeOlderVersions := got.value;
        break;
      } else {
        NotKnown(k);
      }
      idx := idx + 1;
    }
    r := Ok(Decoded(maxSize, maxFileSize, maxFileVersions, removeOlderVersions, defaultTtlForFiles));
  }

  /** Entries whose names are all unknown. */
  predicate AllUnknown(attrs: seq<KeyValMapping>)
  {
    forall j :: 0 <= j < |attrs| ==> attrs[j].attribute !in KnownNames
  }

  /** Entries with unknown names in front of the list are skipped. */
  lemma ScanSkipsUnknown(unknown: seq<KeyValMapping>, rest: seq<KeyValMapping>, dec: Decoders)
    requires AllUnknown(unknown)
    ensures Scan(unknown + rest, dec) == Scan(rest, dec)
  {
    FirstKnownEntrySkips(unknown, rest, KnownNames);
    var fk := FirstKnownEntry(rest, KnownNames);
    if fk.Some? {
      assert (unknown + rest)[|unknown| + fk.value] == rest[fk.value];
    }
  }

  /**
   * The first entry with a known name decides the scan: whatever follows
   * it, a duplicate of its name with another value or an entry that would
   * not decode, is never looked at.
   */
  lemma ScanFirstMatchWins(unknown: seq<KeyValMapping>, kv: KeyValMapping, later: seq<KeyValMapping>, dec: Decoders)
    requires AllUnknown(unknown) && kv.attribute in KnownNames
    ensures Scan(unknown + [kv] + later, dec) == DecodeAttribute(kv, dec)
  {
    assert unknown + [kv] + later == unknown + ([kv] + later);
    ScanSkipsUnknown(unknown, [kv] + later, dec);
    assert ([kv] + later)[0] == kv;
  }

  /** A list with no known name decodes to nothing. */
  lemma ScanOfUnknownOnly(attrs: seq<KeyValMapping>, dec: Decoders)
    requires AllUnknown(attrs)
    ensures Scan(attrs, dec) == Ok(Undecoded)
  {
  }

  // ---------------------------------------------------------------------
  // Reporting into state
  // ---------------------------------------------------------------------

  /** The value the scan's locals report for f: integers only above 0, optionals only when not nil. */
  function Reported(d: Decoded, f: Field): Option<Value>
  {
    match f
    case MaxSize => if d.maxSize > 0 then Some(IntValue(d.maxSize)) else None
    case MaxFileSize => if d.maxFileSize > 0 then Some(IntValue(d.maxFileSize)) else None
    case MaxFileVersions => if d.maxFileVersions > 0 then Some(IntValue(d.maxFileVersions)) else None
    case RemoveOlderVersions =>
      (match d.removeOlderVersions case Some(b) => Some(BoolValue(b)) case None => None)
    case DefaultTtlForFiles =>
      (match d.defaultTtlForFiles case Some(t) => Some(IntValue(t)) case None => None)
  }

  /** Whether the attribute `key` is written when reporting d. */
  predicate Writes(d: Decoded, key: string)
  {
    FieldOf(key).Some? && Reported(d, FieldOf(key).value).Some?
  }

  /** The d.Set calls after the scan, applied to the state `values`. */
  function Report(values: map<string, Value>, d: Decoded): (m: map<string, Value>)
  {
    var m1 := if d.maxSize > 0 then values["max_size" := IntValue(d.maxSize)] else values;
    var m2 := if d.maxFileSize > 0 then m1["max_file_size" := IntValue(d.maxFileSize)] else m1;
    var m3 := if d.maxFileVersions > 0 then m2["max_file_versions" := IntValue(d.maxFileVersions)] else m2;
    var m4 := if d.removeOlderVersions.Some? then m3["remove_older_versions" := BoolValue(d.removeOlderVersions.value)] else m3;
    if d.defaultTtlForFiles.Some? then m4["default_ttl_for_files" := IntValue(d.defaultTtlForFiles.value)] else m4
  }

  /**
   * Reporting writes each field's reported value and leaves every other
   * attribute as it was.
   */
  lemma ReportWrites(values: map<string, Value>, d: Decoded)
    ensures forall f :: Reported(d, f).Some? ==> Name(f) in Report(values, d) && Report(values, d)[Name(f)] == Reported(d, f).value
    ensures forall key :: !Writes(d, key) ==> (key in Report(values, d) <==> key in values)
    ensures forall key :: !Writes(d, key) && key in values ==> Report(values, d)[key] == values[key]
  {
    var m := Report(values, d);
    forall f | Reported(d, f).Some?
      ensures Name(f) in m && m[Name(f)] == Reported(d, f).value
    {
      ReportWritesField(values, d, f);
    }
    forall key | !Writes(d, key)
      ensures (key in m <==> key in values) && (key in values ==> m[key] == values[key])
    {
      ReportKeepsKey(values, d, key);
    }
  }

  lemma ReportWritesField(values: map<string, Value>, d: Decoded, f: Field)
    requires Reported(d, f).Some?
    ensures Name(f) in Report(values, d) && Report(values, d)[Name(f)] == Reported(d, f).value
  {
    NamesDiffer();
  }

  lemma ReportKeepsKey(values: map<string, Value>, d: Decoded, key: string)
    requires !Writes(d, key)
    ensures key in Report(values, d) <==> key in values
    ensures key in values ==> Report(values, d)[key] == values[key]
  {
    match FieldOf(key)
    case None =>
      ReportKeepsUnknownKey(values, d, key);
    case Some(f) =>
      assert Name(f) == key;
      ReportKeepsField(values, d, f);
  }

  lemma ReportKeepsUnknownKey(values: map<string, Value>, d: Decoded, key: string)
    requires FieldOf(key).None?
    ensures key in Report(values, d) <==> key in values
    ensures key in values ==> Report(values, d)[key] == values[key]
  {
  }

  lemma ReportKeepsField(values: map<string, Value>, d: Decoded, f: Field)
    requires Reported(d, f).None?
    ensures Name(f) in Report(values, d) <==> Name(f) in values
    ensures Name(f) in values ==> Report(values, d)[Name(f)] == values[Name(f)]
  {
    NamesDiffer();
  }

  /**
   * After a successful scan, reporting writes at most one attribute, and
   * never max_size, max_file_size or max_file_versions.
   */
  lemma ScanReportsAtMostOne(attrs: seq<KeyValMapping>, dec: Decoders)
    requires Scan(attrs, dec).Ok?
    ensures var d := Scan(attrs, dec).value;
      && Reported(d, MaxSize).None? && Reported(d, MaxFileSize).None? && Reported(d, MaxFileVersions).None?
      && (Reported(d, RemoveOlderVersions).None? || Reported(d, DefaultTtlForFiles).None?)
  {
    match FirstKnownEntry(attrs, KnownNames)
    case None =>
    case Some(i) =>
      var d := DecodeAttribute(attrs[i], dec).value;
      if d.removeOlderVersions.Some? {
        assert FieldOf(attrs[i].attribute) == Some(RemoveOlderVersions);
      }
  }
}
