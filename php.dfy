/**
 * The slice of PHP's value model that the plugin's option handling relies on:
 * scalar values, nested associative arrays, `empty()`, `isset()`, loose
 * `switch` matching and the string functions `strtolower`, `strtoupper`
 * and `ucwords`.
 *
 * Where PHP versions differ, the model takes:
 *  - the ASCII-only case mapping of PHP 8.2 and later, which is also what
 *    any version does under the C locale (earlier versions follow the
 *    process locale);
 *  - for a built-in given an argument of the wrong type, the behaviour of
 *    PHP 7.4, the plugin's declared minimum: a warning and a `null` result,
 *    not the `TypeError` PHP 8 throws.
 */
module Php {

  datatype Option<+T> = None | Some(value: T) {
    function GetOr(default: T): T {
      match this
      case Some(v) => v
      case None => default
    }
  }

  /** An array key: PHP arrays are keyed by integers or strings. */
  datatype Key = IntKey(i: int) | StrKey(s: string)

  /** A PHP value as it appears in an options record or a submitted form. */
  datatype Value =
    | Null
    | Bool(b: bool)
    | Int(i: int)
    | Str(s: string)
    | Arr(m: map<Key, Value>)

  /** PHP `empty()`: null, false, 0, "", "0" and the empty array. */
  predicate Empty(v: Value) {
    match v
    case Null => true
    case Bool(b) => !b
    case Int(i) => i == 0
    case Str(s) => s == "" || s == "0"
    case Arr(m) => m == map[]
  }

  /** Truthiness of a PHP value, as in `if ($v)`. */
  predicate Truthy(v: Value) {
    !Empty(v)
  }

  /**
   * `$v[$k]` read through `isset()`/`empty()`: a missing key, a null entry
   * and a value that is not an array all read as null (neither construct
   * raises on a missing offset or a non-array operand).
   */
  function GetKey(v: Value, k: Key): (r: Value)
    ensures r != Null ==> v.Arr? && k in v.m && r == v.m[k]
  {
    if v.Arr? && k in v.m then v.m[k] else Null
  }

  function Get(v: Value, k: string): Value {
    GetKey(v, StrKey(k))
  }

  /** `isset($v[$k])`. */
  predicate Isset(v: Value, k: string) {
    Get(v, k) != Null
  }

  /** `! empty( $v[$k] )`, the form every boolean setting is read in. */
  predicate Flag(v: Value, k: string) {
    !Empty(Get(v, k))
  }

  /** `isset( $options[$name] ) ? $options[$name] : []`. */
  function Section(options: map<Key, Value>, name: string): (r: Value)
    ensures r != Arr(map[]) ==> StrKey(name) in options && r == options[StrKey(name)]
  {
    if StrKey(name) in options && options[StrKey(name)] != Null then options[StrKey(name)] else Arr(map[])
  }

  /** `is_array( $v ) ? $v : []`. */
  function AsArray(v: Value): map<Key, Value> {
    if v.Arr? then v.m else map[]
  }

  /** The `(array)` cast: null becomes `[]`, a scalar becomes `[0 => scalar]`. */
  function Cast(v: Value): (r: map<Key, Value>)
    ensures v.Arr? ==> r == v.m
    ensures v == Null ==> r == map[]
  {
    match v
    case Null => map[]
    case Arr(m) => m
    case _ => map[IntKey(0) := v]
  }

  /** `unset( $array[ k ] )`: the key goes, every other entry keeps its value. */
  function Unset(m: map<Key, Value>, k: Key): (r: map<Key, Value>)
    ensures k !in r
    ensures forall j :: j != k ==> (j in r <==> j in m)
    ensures forall j :: j in r ==> r[j] == m[j]
  {
    m - {k}
  }

  /** Unsetting a key twice is unsetting it once. */
  lemma UnsetIdempotent(m: map<Key, Value>, k: Key)
    ensures Unset(Unset(m, k), k) == Unset(m, k)
  {
    assert Unset(Unset(m, k), k).Keys == Unset(m, k).Keys;
  }

  /** A `case` caseLabel that is a non-empty, non-numeric string of letters and underscores. */
  predicate IsWordLabel(caseLabel: string) {
    caseLabel != [] && forall i :: 0 <= i < |caseLabel| ==> IsAsciiLower(caseLabel[i]) || caseLabel[i] == '_'
  }

  /**
   * Whether `switch ( $v )` enters `case label:`. PHP compares with `==`:
   * against a non-numeric string caseLabel, a string matches only itself,
   * `true` matches every non-empty caseLabel, and integers, null, false and
   * arrays match none.
   */
  predicate SwitchMatches(v: Value, caseLabel: string)
    requires IsWordLabel(caseLabel)
  {
    v == Str(caseLabel) || v == Bool(true)
  }

  predicate IsAsciiLower(c: char) {
    'a' <= c <= 'z'
  }

  predicate IsAsciiUpper(c: char) {
    'A' <= c <= 'Z'
  }

  predicate IsAsciiDigit(c: char) {
    '0' <= c <= '9'
  }

  predicate IsAscii(s: string) {
    forall i :: 0 <= i < |s| ==> s[i] < 128 as char
  }

  function ToLowerChar(c: char): char {
    if IsAsciiUpper(c) then (c as int + 32) as char else c
  }

  function ToUpperChar(c: char): (r: char)
    ensures IsAsciiLower(c) ==> IsAsciiUpper(r)
    ensures !IsAsciiLower(c) ==> r == c
  {
    if IsAsciiLower(c) then (c as int - 32) as char else c
  }

  /** PHP 8.2 `strtolower` (or any version under the C locale): maps only the ASCII letters A-Z. */
  function LowerAscii(s: string): (r: string)
    ensures |r| == |s|
    ensures forall i :: 0 <= i < |s| ==> r[i] == ToLowerChar(s[i])
    ensures (forall i :: 0 <= i < |s| ==> !IsAsciiUpper(s[i])) ==> r == s
  {
    seq(|s|, i requires 0 <= i < |s| => ToLowerChar(s[i]))
  }

  /** PHP 8.2 `strtoupper` (or any version under the C locale): maps only the ASCII letters a-z. */
  function UpperAscii(s: string): (r: string)
    ensures |r| == |s|
    ensures forall i :: 0 <= i < |s| ==> r[i] == ToUpperChar(s[i])
  {
    seq(|s|, i requires 0 <= i < |s| => ToUpperChar(s[i]))
  }

  /** `strtolower` forgets what `strtoupper` did. */
  lemma LowerAsciiOfUpper(s: string)
    ensures LowerAscii(UpperAscii(s)) == LowerAscii(s)
  {
    forall i | 0 <= i < |s|
      ensures LowerAscii(UpperAscii(s))[i] == LowerAscii(s)[i]
    {
      var c := s[i];
      if IsAsciiLower(c) {
        assert ToLowerChar(ToUpperChar(c)) == c;
      }
    }
  }

  /** `strtolower` works character by character, so it distributes over concatenation. */
  lemma LowerAsciiAppend(a: string, b: string)
    ensures LowerAscii(a + b) == LowerAscii(a) + LowerAscii(b)
  {
    assert forall i :: 0 <= i < |a + b| ==> LowerAscii(a + b)[i] == (LowerAscii(a) + LowerAscii(b))[i];
  }

  /** `strpos( $s, $sub ) !== false`. */
  predicate Contains(s: string, sub: string) {
    sub <= s || (s != [] && Contains(s[1..], sub))
  }

  function DigitChar(d: nat): char
    requires d < 10
  {
    ('0' as int + d) as char
  }

  /** The decimal string PHP produces when an integer is concatenated to a string. */
  function NatToString(n: nat): (r: string)
    ensures r != []
    ensures forall i :: 0 <= i < |r| ==> IsAsciiDigit(r[i])
  {
    if n < 10 then [DigitChar(n)] else NatToString(n / 10) + [DigitChar(n % 10)]
  }
}
