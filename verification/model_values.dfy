/**
 * The loosely typed values the settings payload is made of (what `json.loads` gives and
 * `to_dict` builds), and the forgiving coercions of src/d2rso/models.py that turn them
 * into typed fields: `_has_key`, `_get_value`, `_as_int`, `_as_float`, `_as_bool`,
 * `_as_str` and `_as_key_code`.
 */
module ModelValues {
  import opened Wrappers
  import opened Text

  /** A Python value as it appears in a settings payload. Floats are exact reals. */
  datatype Value =
    | VNone
    | VBool(b: bool)
    | VInt(i: int)
    | VFloat(x: real)
    | VStr(s: string)
    | VList(items: seq<Value>)
    | VDict(fields: map<string, Value>)

  /** `_has_key`: one of the spellings is present. */
  predicate HasKey(data: map<string, Value>, keys: seq<string>) {
    exists k | k in keys :: k in data
  }

  /** `_get_value`: the value under the first spelling present, else the default. */
  function GetValue(data: map<string, Value>, keys: seq<string>, default: Value): Value {
    if keys == [] then default
    else if keys[0] in data then data[keys[0]]
    else GetValue(data, keys[1..], default)
  }

  /** `_get_value` returns the default when no spelling is present, else the value of the first one present. */
  lemma {:induction false} GetValueSpec(data: map<string, Value>, keys: seq<string>, default: Value)
    ensures !HasKey(data, keys) ==> GetValue(data, keys, default) == default
    ensures HasKey(data, keys) ==>
      exists i | 0 <= i < |keys| :: && keys[i] in data && GetValue(data, keys, default) == data[keys[i]]
                                    && forall j | 0 <= j < i :: keys[j] !in data
  {
    if keys != [] && keys[0] !in data {
      GetValueSpec(data, keys[1..], default);
      var r := GetValue(data, keys[1..], default);
      assert HasKey(data, keys) <==> HasKey(data, keys[1..]) by {
        if HasKey(data, keys) {
          var k :| k in keys && k in data;
          assert k in keys[1..];
        }
        if HasKey(data, keys[1..]) {
          var k :| k in keys[1..] && k in data;
          assert k in keys;
        }
      }
      if HasKey(data, keys) {
        var i :| 0 <= i < |keys[1..]| && keys[1..][i] in data && r == data[keys[1..][i]]
                 && forall j | 0 <= j < i :: keys[1..][j] !in data;
        assert keys[i + 1] in data && r == data[keys[i + 1]];
        forall j | 0 <= j < i + 1
          ensures keys[j] !in data
        {
          if j > 0 { assert keys[j] == keys[1..][j - 1]; }
        }
      }
    } else if keys != [] {
      assert HasKey(data, keys) by { assert keys[0] in keys; }
    }
  }

  // ---------------------------------------------------------------------------
  // Numbers

  /** Python's `int(x)` on a float: truncation toward zero. */
  function TruncateReal(x: real): (r: int)
    ensures x >= 0.0 ==> r as real <= x < r as real + 1.0
    ensures x < 0.0 ==> r as real - 1.0 < x <= r as real
  {
    if x >= 0.0 then x.Floor else -((-x).Floor)
  }

  /** Splits an optional leading sign off a string. */
  function SplitSign(t: string): (bool, string) {
    if |t| > 0 && (t[0] == '-' || t[0] == '+') then (t[0] == '-', t[1..]) else (false, t)
  }

  /** Python's `int(s)` on a string: surrounding whitespace, an optional sign and decimal digits. */
  function ParseInt(s: string): Option<int> {
    var (negative, digits) := SplitSign(Strip(s));
    if IsDigits(digits) then
      var magnitude: int := DigitsValue(digits);
      Some(if negative then -magnitude else magnitude)
    else None
  }

  function Pow10(n: nat): (r: nat)
    ensures r >= 1
  {
    if n == 0 then 1 else 10 * Pow10(n - 1)
  }

  /** The index of the first `.` in `s`, or `|s|`. */
  function DotIndex(s: string): (i: nat)
    ensures i <= |s|
    ensures i < |s| ==> s[i] == '.'
    ensures forall j | 0 <= j < i :: s[j] != '.'
  {
    if s == [] then 0 else if s[0] == '.' then 0 else 1 + DotIndex(s[1..])
  }

  predicate AllDigits(s: string) { forall i | 0 <= i < |s| :: IsDigit(s[i]) }

  /**
   * Python's `float(s)` on a decimal string: surrounding whitespace, an optional sign,
   * digits with at most one decimal point, and at least one digit.
   */
  function ParseDecimal(s: string): Option<real> {
    var (negative, body) := SplitSign(Strip(s));
    var dot := DotIndex(body);
    var whole := body[..dot];
    var fraction := if dot < |body| then body[dot + 1..] else [];
    if AllDigits(whole) && AllDigits(fraction) && |whole| + |fraction| >= 1 then
      var magnitude := DigitsValue(whole) as real + DigitsValue(fraction) as real / Pow10(|fraction|) as real;
      Some(if negative then -magnitude else magnitude)
    else None
  }

  /** `_as_int`: `int(value)`, or the default where Python raises TypeError or ValueError. */
  function AsInt(value: Value, default: int): int {
    match value
    case VBool(b) => if b then 1 else 0
    case VInt(i) => i
    case VFloat(x) => TruncateReal(x)
    case VStr(s) => ParseInt(s).GetOr(default)
    case _ => default
  }

  /** `_as_float`: `float(value)`, or the default where Python raises TypeError or ValueError. */
  function AsFloat(value: Value, default: real): real {
    match value
    case VBool(b) => if b then 1.0 else 0.0
    case VInt(i) => i as real
    case VFloat(x) => x
    case VStr(s) => ParseDecimal(s).GetOr(default)
    case _ => default
  }

  // ---------------------------------------------------------------------------
  // Booleans, strings, key codes

  /** The strings `_as_bool` reads as true, after trimming and lowercasing. */
  predicate IsTruthyWord(w: string) {
    w == "1" || w == "true" || w == "yes" || w == "y" || w == "on"
  }

  /** The strings `_as_bool` reads as false, after trimming and lowercasing. */
  predicate IsFalsyWord(w: string) {
    w == "0" || w == "false" || w == "no" || w == "n" || w == "off"
  }

  /** `_as_bool` */
  function AsBool(value: Value, default: bool): bool {
    match value
    case VBool(b) => b
    case VInt(i) => i != 0
    case VFloat(x) => x != 0.0
    case VStr(s) =>
      var lowered := Lower(Strip(s));
      if IsTruthyWord(lowered) then true
      else if IsFalsyWord(lowered) then false
      else default
    case _ => default
  }

  /** `_as_str` */
  function AsStr(value: Value, default: string): string {
    match value
    case VStr(s) => s
    case _ => default
  }

  /**
   * `_as_key_code`: a mapping stands for its `code`/`Code` entry; a missing value gives
   * the default, a string gives its trimmed form or None when blank, anything else the default.
   */
  function AsKeyCode(value: Value, default: Option<string>): Option<string> {
    var v := if value.VDict? then GetValue(value.fields, ["code", "Code"], VNone) else value;
    match v
    case VNone => default
    case VStr(s) => if Strip(s) == [] then None else Some(Strip(s))
    case _ => default
  }

  // ---------------------------------------------------------------------------
  // Partners: printed numbers parse back, and the string forms normalise

  /** `str(n)` for a Python int. */
  function IntToString(n: int): (r: string)
    ensures |r| > 0 && IsDigit(r[|r| - 1])
  {
    var digits := NatToString(if n < 0 then -n else n);
    (if n < 0 then "-" else "") + digits
  }

  lemma PrintedIntTrimmed(n: int)
    ensures Strip(IntToString(n)) == IntToString(n)
  {
    var r := IntToString(n);
    assert !IsSpace(r[0]) by {
      if n >= 0 { assert IsDigit(r[0]); }
    }
    StripOfTrimmed(r);
  }

  lemma {:induction false} DigitsHaveNoDot(s: string)
    requires AllDigits(s)
    ensures DotIndex(s) == |s|
  {
  }

  /** `int(str(n)) == n`: an integer written out as text is read back by `_as_int`. */
  lemma AsIntOfPrinted(n: int, default: int)
    ensures AsInt(VStr(IntToString(n)), default) == n
  {
    PrintedIntTrimmed(n);
    var m := if n < 0 then -n else n;
    NatToStringRoundTrip(m);
    var digits := NatToString(m);
    if n < 0 {
      assert SplitSign(IntToString(n)) == (true, digits);
    } else {
      assert IsDigit(digits[0]);
      assert IntToString(n) == digits;
      assert SplitSign(IntToString(n)) == (false, digits);
    }
  }

  /** A trimmed, optionally signed digit string is read by `float()` as its integer value. */
  lemma ParseDecimalOfDigits(t: string, negative: bool, digits: string)
    requires Strip(t) == t && SplitSign(t) == (negative, digits) && IsDigits(digits)
    ensures ParseDecimal(t) == Some(if negative then -(DigitsValue(digits) as real) else DigitsValue(digits) as real)
  {
    DigitsHaveNoDot(digits);
    assert digits[..DotIndex(digits)] == digits;
    assert Pow10(0) == 1;
  }

  /** `float(str(n)) == n`: an integer written out as text is read back by `_as_float`. */
  lemma AsFloatOfPrinted(n: int, default: real)
    ensures AsFloat(VStr(IntToString(n)), default) == n as real
  {
    PrintedIntTrimmed(n);
    var m := if n < 0 then -n else n;
    NatToStringRoundTrip(m);
    var digits := NatToString(m);
    if n < 0 {
      assert SplitSign(IntToString(n)) == (true, digits);
      ParseDecimalOfDigits(IntToString(n), true, digits);
    } else {
      assert IsDigit(digits[0]);
      assert IntToString(n) == digits;
      assert SplitSign(IntToString(n)) == (false, digits);
      ParseDecimalOfDigits(IntToString(n), false, digits);
    }
  }

  /** `_as_int` and `_as_float` agree on integers and booleans, whatever the defaults. */
  lemma AsFloatOfIntegral(v: Value, d1: int, d2: real)
    requires v.VInt? || v.VBool?
    ensures AsFloat(v, d2) == AsInt(v, d1) as real
  {
  }

  /** Lower-casing keeps the first and last characters non-space. */
  lemma LowerKeepsTrimmed(t: string)
    requires t == [] || (!IsSpace(t[0]) && !IsSpace(t[|t| - 1]))
    ensures Strip(Lower(t)) == Lower(t)
  {
    var l := Lower(t);
    if t != [] {
      assert !IsSpace(l[0]) && !IsSpace(l[|l| - 1]);
    }
    StripOfTrimmed(l);
  }

  /**
   * `_as_bool` reads a string only through its trimmed, lower-cased form: surrounding
   * whitespace and letter case never change the result.
   */
  lemma AsBoolIgnoresSpaceAndCase(s: string, default: bool)
    ensures AsBool(VStr(s), default) == AsBool(VStr(Lower(Strip(s))), default)
  {
    StripSpec(s);
    LowerKeepsTrimmed(Strip(s));
    LowerIdempotent(Strip(s));
  }

  /** `_as_bool` on a string gives the default exactly when the string is neither a true nor a false word. */
  lemma AsBoolWords(s: string, default: bool)
    ensures IsTruthyWord(Lower(Strip(s))) ==> AsBool(VStr(s), default)
    ensures IsFalsyWord(Lower(Strip(s))) ==> !AsBool(VStr(s), default)
    ensures !IsTruthyWord(Lower(Strip(s))) && !IsFalsyWord(Lower(Strip(s))) ==> AsBool(VStr(s), default) == default
  {
  }

  /** A key code that is already trimmed and non-empty. */
  predicate IsTrimmedKey(k: string) {
    k != [] && Strip(k) == k
  }

  /** `_as_key_code` yields the default, None, or a trimmed non-empty code, and keeps such a code as it is. */
  lemma AsKeyCodeTrimmed(value: Value, default: Option<string>)
    ensures var r := AsKeyCode(value, default);
            r == default || r == None || (r.Some? && IsTrimmedKey(r.value))
    ensures value.VStr? && IsTrimmedKey(value.s) ==> AsKeyCode(value, default) == Some(value.s)
  {
    var v := if value.VDict? then GetValue(value.fields, ["code", "Code"], VNone) else value;
    if v.VStr? {
      StripIdempotent(v.s);
    }
  }
}
