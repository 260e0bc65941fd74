/**
 * The slice of PHP's value semantics that the modelled library relies on:
 * decoded JSON/array values, `empty()`, the `(string)` and `(int)`/`intval`
 * casts, coercion of a scalar to a `string` parameter, `str_contains` and
 * `urlencode`. PHP strings are byte strings; here every `char` stands for one
 * byte.
 */
module Php {

  /**
   * A decoded PHP value: what `toArray()`, a config lookup or a message field
   * yields. The empty PHP array is written `JList([])` throughout; a `JMap`
   * stands for an array with string keys.
   */
  datatype Json =
    | JNull
    | JBool(b: bool)
    | JInt(i: int)
    | JStr(s: string)
    | JList(items: seq<Json>)
    | JMap(fields: map<string, Json>)

  /** PHP `empty($s)` for a string: only `""` and `"0"` are empty. */
  predicate EmptyStr(s: string) {
    s == "" || s == "0"
  }

  /** PHP `empty($v)` (equivalently `!(bool)$v`) for a decoded value. */
  predicate Empty(v: Json) {
    match v
    case JNull => true
    case JBool(b) => !b
    case JInt(i) => i == 0
    case JStr(s) => EmptyStr(s)
    case JList(items) => |items| == 0
    case JMap(fields) => |fields| == 0
  }

  /** `is_array($v)`: what an `array` parameter accepts. */
  predicate IsArray(v: Json) {
    v.JList? || v.JMap?
  }

  /** PHP `(bool)$v`. */
  predicate Truthy(v: Json) {
    !Empty(v)
  }

  /**
   * `$v[$k]` inside `empty()` or followed by `?? null`: a missing key, or an
   * offset into something that is not an array, reads as null.
   */
  function Get(v: Json, k: string): Json {
    if v.JMap? && k in v.fields then v.fields[k] else JNull
  }

  /** `$v[$k] ?? $default`. */
  function GetOr(v: Json, k: string, default: Json): Json {
    var x := Get(v, k);
    if x == JNull then default else x
  }

  function DigitChar(d: nat): (c: char)
    requires d < 10
    ensures '0' <= c <= '9' && c as int - '0' as int == d
  {
    "0123456789"[d]
  }

  /** Decimal rendering of a natural number, most significant digit first. */
  function NatToString(n: nat): (s: string)
    ensures |s| > 0 && forall i :: 0 <= i < |s| ==> '0' <= s[i] <= '9'
    decreases n
  {
    if n < 10 then [DigitChar(n)] else NatToString(n / 10) + [DigitChar(n % 10)]
  }

  /** `(string)$i` for an integer. */
  function IntToString(i: int): string {
    if i < 0 then "-" + NatToString(-i) else NatToString(i)
  }

  /** `(string)$v`: arrays render as "Array" (PHP also emits a warning). */
  function ToStr(v: Json): string {
    match v
    case JNull => ""
    case JBool(b) => if b then "1" else ""
    case JInt(i) => IntToString(i)
    case JStr(s) => s
    case JList(_) => "Array"
    case JMap(_) => "Array"
  }

  /** A positive number renders without a leading zero, so never as `"0"`. */
  lemma {:induction false} PositiveNatToString(n: nat)
    requires n > 0
    ensures NatToString(n)[0] != '0'
    decreases n
  {
    if n >= 10 {
      PositiveNatToString(n / 10);
    }
  }

  /** `(string)` of a truthy value is a truthy string. */
  lemma TruthyToStr(v: Json)
    requires Truthy(v)
    ensures !EmptyStr(ToStr(v))
  {
    if v.JInt? && v.i > 0 {
      PositiveNatToString(v.i);
    }
  }

  /**
   * Passing `$v` to a `string` parameter from a calling file without
   * `strict_types` (coercive mode is decided by the file that makes the
   * call): scalars are converted, null and arrays raise a TypeError (None
   * here).
   */
  function CoerceToString(v: Json): (r: Option<string>)
    ensures r.None? <==> v.JNull? || v.JList? || v.JMap?
    ensures v.JStr? ==> r == Some(v.s)
  {
    match v
    case JNull => None
    case JList(_) => None
    case JMap(_) => None
    case _ => Some(ToStr(v))
  }

  datatype Option<T> = None | Some(value: T)

  predicate IsDigit(c: char) {
    '0' <= c <= '9'
  }

  predicate IsSpace(c: char) {
    c == ' ' || c == '\t' || c == '\n' || c == '\r' || c as int == 11 || c as int == 12
  }

  /** Length of the run of decimal digits at the start of `s`. */
  function DigitRun(s: string): (n: nat)
    ensures n <= |s|
    ensures forall i :: 0 <= i < n ==> IsDigit(s[i])
    ensures n < |s| ==> !IsDigit(s[n])
  {
    if |s| > 0 && IsDigit(s[0]) then 1 + DigitRun(s[1..]) else 0
  }

  /** Value of a string made only of decimal digits (0 for ""). */
  function DigitsValue(s: string): nat
    requires forall i :: 0 <= i < |s| ==> IsDigit(s[i])
  {
    if |s| == 0 then 0
    else
      assert IsDigit(s[|s| - 1]);
      10 * DigitsValue(s[..|s| - 1]) + (s[|s| - 1] as int - '0' as int)
  }

  /** `intval` of a string: leading whitespace, an optional sign and the leading digits. */
  function LeadingInt(s: string): int {
    if |s| > 0 && IsSpace(s[0]) then LeadingInt(s[1..])
    else if |s| > 0 && (s[0] == '-' || s[0] == '+') then
      var n: int := DigitsValue(s[1..][..DigitRun(s[1..])]);
      if s[0] == '-' then -n else n
    else DigitsValue(s[..DigitRun(s)])
  }

  /** PHP `intval($v)` / `(int)$v`. */
  function IntVal(v: Json): int {
    match v
    case JNull => 0
    case JBool(b) => if b then 1 else 0
    case JInt(i) => i
    case JStr(s) => LeadingInt(s)
    case JList(items) => if |items| == 0 then 0 else 1
    case JMap(fields) => if |fields| == 0 then 0 else 1
  }

  lemma {:induction false} DigitsValueOfNatToString(n: nat)
    ensures DigitsValue(NatToString(n)) == n
    decreases n
  {
    var s := NatToString(n);
    if n >= 10 {
      DigitsValueOfNatToString(n / 10);
      assert s[..|s| - 1] == NatToString(n / 10);
    }
  }

  lemma DigitRunAll(s: string)
    requires forall i :: 0 <= i < |s| ==> IsDigit(s[i])
    ensures DigitRun(s) == |s|
  {
    if |s| > 0 {
      DigitRunAll(s[1..]);
    }
  }

  /** `intval((string)$i) == $i`: the two casts agree on every integer. */
  lemma {:induction false} IntValOfIntToString(i: int)
    ensures IntVal(JStr(IntToString(i))) == i
  {
    var n: nat := if i < 0 then -i else i;
    var digits := NatToString(n);
    DigitsValueOfNatToString(n);
    DigitRunAll(digits);
    assert digits[..DigitRun(digits)] == digits;
    if i < 0 {
      var s := "-" + digits;
      assert s[1..] == digits;
      assert !IsSpace(s[0]);
    } else {
      assert !IsSpace(digits[0]) && digits[0] != '-' && digits[0] != '+';
    }
  }

  /** `$sub` occurs in `$s` starting at offset `i`. */
  predicate OccursAt(s: string, sub: string, i: nat) {
    i + |sub| <= |s| && s[i..i + |sub|] == sub
  }

  /** PHP `str_contains($s, $sub)`. */
  predicate Contains(s: string, sub: string)
    decreases |s|
  {
    |sub| <= |s| && (s[..|sub|] == sub || (|s| > 0 && Contains(s[1..], sub)))
  }

  /** `str_contains` holds exactly when the needle occurs at some offset. */
  lemma {:induction false} ContainsIff(s: string, sub: string)
    ensures Contains(s, sub) <==> exists i: nat :: OccursAt(s, sub, i)
    decreases |s|
  {
    if Contains(s, sub) {
      if s[..|sub|] == sub {
        assert OccursAt(s, sub, 0);
      } else {
        ContainsIff(s[1..], sub);
        var j: nat :| OccursAt(s[1..], sub, j);
        assert s[1..][j..j + |sub|] == s[j + 1..j + 1 + |sub|];
        assert OccursAt(s, sub, j + 1);
      }
    }
    if i: nat :| OccursAt(s, sub, i) {
      if i == 0 {
        assert s[..|sub|] == sub;
      } else {
        assert s[1..][i - 1..i - 1 + |sub|] == s[i..i + |sub|];
        assert OccursAt(s[1..], sub, i - 1);
        ContainsIff(s[1..], sub);
      }
    }
  }

  predicate Unreserved(c: char) {
    ('A' <= c <= 'Z') || ('a' <= c <= 'z') || ('0' <= c <= '9') || c == '-' || c == '_' || c == '.'
  }

  function HexUpper(d: nat): (c: char)
    requires d < 16
    ensures c != '&' && c != '='
  {
    "0123456789ABCDEF"[d]
  }

  /** `urlencode` of one byte. */
  function UrlEncodeChar(c: char): (r: string)
    ensures forall i :: 0 <= i < |r| ==> r[i] != '&' && r[i] != '='
  {
    if Unreserved(c) then [c]
    else if c == ' ' then "+"
    else "%" + [HexUpper((c as int / 16) % 16), HexUpper(c as int % 16)]
  }

  /** PHP `urlencode`: unreserved bytes kept, space as '+', everything else as %XX. */
  function UrlEncode(s: string): string {
    if |s| == 0 then "" else UrlEncodeChar(s[0]) + UrlEncode(s[1..])
  }

  /** An encoded string never contains the separators of a query string. */
  lemma {:induction false} UrlEncodeHasNoSeparators(s: string)
    ensures forall i :: 0 <= i < |UrlEncode(s)| ==> UrlEncode(s)[i] != '&' && UrlEncode(s)[i] != '='
  {
    if |s| > 0 {
      UrlEncodeHasNoSeparators(s[1..]);
      var head, tail := UrlEncodeChar(s[0]), UrlEncode(s[1..]);
      assert UrlEncode(s) == head + tail;
      forall i | 0 <= i < |head + tail|
        ensures (head + tail)[i] != '&' && (head + tail)[i] != '='
      {
        if i < |head| {
          assert (head + tail)[i] == head[i];
        } else {
          assert (head + tail)[i] == tail[i - |head|];
        }
      }
    }
  }
}
