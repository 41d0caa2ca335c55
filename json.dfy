/**
 * Decoded JSON values, as Python's `json.loads` returns them, the parts of Python's built-in
 * `int()` that the controller and the hub apply to such values, and how a Python int is stored
 * in a shared 32-bit C `int`.
 * Floating-point numbers are not modelled.
 */
module Json {
  import opened Wrappers

  datatype Value =
    | Null
    | Bool(b: bool)
    | Int(i: int)
    | Str(s: string)
    | Arr(items: seq<Value>)
    | Obj(fields: map<string, Value>)

  /** A decoded JSON object (a Python dict with string keys). */
  type Object = map<string, Value>

  /** Python truthiness of a decoded value: null, false, 0, "" and empty containers are false. */
  predicate Truthy(v: Value) {
    match v
    case Null => false
    case Bool(b) => b
    case Int(i) => i != 0
    case Str(s) => s != ""
    case Arr(items) => items != []
    case Obj(fields) => fields != map[]
  }

  /** `dict.get(key)`: the stored value, or None (null) when the key is missing. */
  function Get(o: Object, key: string): Value {
    if key in o then o[key] else Null
  }

  /** An optional Python value as JSON: None becomes null. */
  function OfString(s: Option<string>): Value {
    if s.Some? then Str(s.value) else Null
  }

  function OfInt(i: Option<int>): Value {
    if i.Some? then Int(i.value) else Null
  }

  function OfBool(b: Option<bool>): Value {
    if b.Some? then Bool(b.value) else Null
  }

  // ---------------------------------------------------------------------------
  // Python int(text, base) on ASCII text
  // ---------------------------------------------------------------------------

  /** The ASCII characters Python's int() strips: space, \t \n \v \f \r and \x1c-\x1f. */
  predicate IsSpace(c: char) {
    c == ' ' || (9 <= c as int <= 13) || (28 <= c as int <= 31)
  }

  function StripLeft(s: string): (r: string)
  {
    if s != [] && IsSpace(s[0]) then StripLeft(s[1..]) else s
  }

  function StripRight(s: string): (r: string)
  {
    if s != [] && IsSpace(s[|s| - 1]) then StripRight(s[..|s| - 1]) else s
  }

  function Strip(s: string): string {
    StripRight(StripLeft(s))
  }

  /** The value of a digit character in bases up to 36. */
  function DigitValue(c: char): Option<nat> {
    if '0' <= c <= '9' then Some(c as int - '0' as int)
    else if 'a' <= c <= 'z' then Some(c as int - 'a' as int + 10)
    else if 'A' <= c <= 'Z' then Some(c as int - 'A' as int + 10)
    else None
  }

  predicate IsDigit(c: char, base: nat) {
    DigitValue(c).Some? && DigitValue(c).value < base
  }

  /** Python's digit grammar: `digit (_? digit)*`. */
  predicate WellFormedDigits(s: string, base: nat) {
    && |s| > 0
    && IsDigit(s[0], base)
    && IsDigit(s[|s| - 1], base)
    && (forall i :: 0 <= i < |s| ==> IsDigit(s[i], base) || s[i] == '_')
    && (forall i :: 0 <= i < |s| - 1 && s[i] == '_' ==> IsDigit(s[i + 1], base))
  }

  /** The number the digits denote; underscores are separators. */
  function DigitsValue(s: string, base: nat): nat
    requires forall i :: 0 <= i < |s| ==> IsDigit(s[i], base) || s[i] == '_'
  {
    if s == [] then 0
    else
      var prefix := s[..|s| - 1];
      assert forall i :: 0 <= i < |prefix| ==> prefix[i] == s[i];
      var last := s[|s| - 1];
      if last == '_' then DigitsValue(prefix, base)
      else
        assert IsDigit(last, base);
        var d: nat := DigitValue(last).value;
        var high: nat := DigitsValue(prefix, base);
        ProductOfNaturals(high, base);
        high * base + d
  }

  lemma ProductOfNaturals(a: nat, b: nat)
    ensures a * b >= 0
  {
  }

  /** Python's `int(s, base)` for base 10 or 16: None where Python raises ValueError. */
  function ParseInt(s: string, base: nat): Option<int>
    requires base == 10 || base == 16
  {
    var t := Strip(s);
    var negative := |t| > 0 && t[0] == '-';
    var unsigned := if |t| > 0 && (t[0] == '-' || t[0] == '+') then t[1..] else t;
    var body :=
      if base == 16 && |unsigned| >= 2 && unsigned[0] == '0' && (unsigned[1] == 'x' || unsigned[1] == 'X')
      then (if |unsigned| > 2 && unsigned[2] == '_' then unsigned[3..] else unsigned[2..])
      else unsigned;
    if WellFormedDigits(body, base) then
      var magnitude: int := DigitsValue(body, base);
      Some(if negative then -magnitude else magnitude)
    else None
  }

  /** Python's `int(v)` on a decoded value: None where Python raises. */
  function PyInt(v: Value): Option<int> {
    match v
    case Int(i) => Some(i)
    case Bool(b) => Some(if b then 1 else 0)
    case Str(s) => ParseInt(s, 10)
    case _ => None
  }

  // ---------------------------------------------------------------------------
  // Python ints stored in shared C ints
  // ---------------------------------------------------------------------------

  const TwoTo31: int := 0x8000_0000
  const TwoTo32: int := 0x1_0000_0000

  /** Storing a Python int in a shared C `int` keeps only its low 32 bits, as a signed value. */
  function Wrap32(n: int): (r: int)
    ensures -TwoTo31 <= r < TwoTo31
    ensures (r - n) % TwoTo32 == 0
  {
    (n + TwoTo31) % TwoTo32 - TwoTo31
  }

  lemma Wrap32InRange(n: int)
    requires -TwoTo31 <= n < TwoTo31
    ensures Wrap32(n) == n
  {
  }
}
