/**
 * The schema validators of the provider's `pin` and numeric-string
 * attributes. Each takes an untyped value and the attribute's key and
 * returns a list of warnings and a list of errors; an empty error list
 * means the value is accepted.
 */
module Validators {

  /** The untyped argument: a string, or a value of any other type. */
  datatype Input = Str(s: string) | Other

  /** The errors the validators report; `Message` gives their text. */
  datatype ValidationError =
    | PinNotString
    | PinNotSixDigits(key: string)
    | NotString(key: string)
    | NotNumeric(key: string)

  datatype Validation = Validation(warns: seq<string>, errs: seq<ValidationError>)

  /** Go's %q applied to a plain key (escaping of special characters is not modelled). */
  function Quote(key: string): (q: string)
    ensures |q| == |key| + 2 && q[0] == '"' && q[|q| - 1] == '"' && q[1..|q| - 1] == key
  {
    "\"" + key + "\""
  }

  function Message(e: ValidationError): string
  {
    match e
    case PinNotString => "expected pin to be a string"
    case PinNotSixDigits(key) => Quote(key) + " must be a 6-digit number"
    case NotString(key) => "expected " + Quote(key) + " to be a string"
    case NotNumeric(key) => Quote(key) + " must contain only numeric digits"
  }

  /** The regular-expression class \d, which is ASCII-only in Go's syntax. */
  predicate IsDigit(c: char)
  {
    '0' <= c <= '9'
  }

  /** Scans s and reports whether every character matches \d. */
  predicate AllDigits(s: string)
  {
    s == [] || (IsDigit(s[0]) && AllDigits(s[1..]))
  }

  lemma {:induction false} AllDigitsMeansEveryCharIsDigit(s: string)
    ensures AllDigits(s) <==> forall i :: 0 <= i < |s| ==> IsDigit(s[i])
  {
    if s != [] {
      AllDigitsMeansEveryCharIsDigit(s[1..]);
      assert forall i :: 1 <= i < |s| ==> s[i] == s[1..][i - 1];
    }
  }

  /** Whether s matches `^\d{6}$` (Go's `$` without the m flag matches only at the end of the text). */
  predicate MatchesPinPattern(s: string)
  {
    |s| == 6 && AllDigits(s)
  }

  /** Whether s matches `^\d+$`. */
  predicate MatchesNumericPattern(s: string)
  {
    |s| >= 1 && AllDigits(s)
  }

  /** ValidPin: accepts exactly six ASCII digits. */
  function ValidPin(val: Input, key: string): (r: Validation)
    ensures r.warns == []
    ensures r.errs == [] <==> val.Str? && |val.s| == 6 && forall i :: 0 <= i < |val.s| ==> IsDigit(val.s[i])
    ensures !val.Str? ==> r.errs == [PinNotString]
    ensures r.errs != [] ==> |r.errs| == 1
    ensures val.Str? && r.errs != [] ==> r.errs == [PinNotSixDigits(key)]
  {
    match val
    case Other => Validation([], [PinNotString])
    case Str(pin) =>
      AllDigitsMeansEveryCharIsDigit(pin);
      if MatchesPinPattern(pin) then Validation([], [])
      else Validation([], [PinNotSixDigits(key)])
  }

  /** ValidateNumericString: accepts one or more ASCII digits. */
  function ValidateNumericString(val: Input, key: string): (r: Validation)
    ensures r.warns == []
    ensures r.errs == [] <==> val.Str? && |val.s| >= 1 && forall i :: 0 <= i < |val.s| ==> IsDigit(val.s[i])
    ensures !val.Str? ==> r.errs == [NotString(key)]
    ensures r.errs != [] ==> |r.errs| == 1
    ensures val.Str? && r.errs != [] ==> r.errs == [NotNumeric(key)]
  {
    match val
    case Other => Validation([], [NotString(key)])
    case Str(s) =>
      AllDigitsMeansEveryCharIsDigit(s);
      if MatchesNumericPattern(s) then Validation([], [])
      else Validation([], [NotNumeric(key)])
  }

  /** The empty string is not a numeric string. */
  lemma EmptyStringIsNotNumeric(key: string)
    ensures ValidateNumericString(Str(""), key).errs == [NotNumeric(key)]
  {
  }

  /** Every value ValidPin accepts, ValidateNumericString accepts too; the converse fails. */
  lemma PinIsNumeric(val: Input, key: string, other: string)
    ensures ValidPin(val, key).errs == [] ==> ValidateNumericString(val, other).errs == []
    ensures ValidateNumericString(Str("1"), other).errs == [] && ValidPin(Str("1"), key).errs != []
  {
  }

  /** The error for a rejected pin names the key between double quotes at the head of its text. */
  lemma PinMessageQuotesKey(val: Input, key: string)
    requires val.Str? && ValidPin(val, key).errs != []
    ensures var m := Message(ValidPin(val, key).errs[0]);
      |m| >= |key| + 2 && m[0] == '"' && m[1..|key| + 1] == key && m[|key| + 1] == '"'
  {
    var q := Quote(key);
    var m := Message(ValidPin(val, key).errs[0]);
    assert m == q + " must be a 6-digit number";
    assert m[..|q|] == q;
  }
}
