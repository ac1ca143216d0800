/**
 * The few JavaScript string operations the core relies on, written out over
 * `seq<char>`: `startsWith`, `endsWith`, `includes`, `lastIndexOf`, `trim`
 * and `toLowerCase`, plus `Array.prototype.indexOf` on a list of strings.
 */
module JsText {

  predicate StartsWith(s: string, prefix: string) {
    |prefix| <= |s| && s[..|prefix|] == prefix
  }

  predicate EndsWith(s: string, suffix: string) {
    |suffix| <= |s| && s[|s| - |suffix|..] == suffix
  }

  /** `needle` occurs in `s` starting at index `i`. */
  predicate OccursAt(s: string, needle: string, i: int) {
    0 <= i && i + |needle| <= |s| && s[i..i + |needle|] == needle
  }

  /** `s.includes(needle)`. */
  predicate Includes(s: string, needle: string) {
    exists i | 0 <= i <= |s| - |needle| :: OccursAt(s, needle, i)
  }

  /** `s.lastIndexOf(needle)`: the last index where `needle` occurs, or -1. */
  function LastIndexOf(s: string, needle: string): (r: int)
    ensures r == -1 || 0 <= r <= |s| - |needle|
    ensures r != -1 ==> OccursAt(s, needle, r)
    ensures forall j | r < j <= |s| - |needle| :: !OccursAt(s, needle, j)
  {
    LastIndexBelow(s, needle, |s| - |needle|)
  }

  /** The last index `<= hi` where `needle` occurs, or -1. */
  function LastIndexBelow(s: string, needle: string, hi: int): (r: int)
    ensures r == -1 || 0 <= r <= hi
    ensures r != -1 ==> OccursAt(s, needle, r)
    ensures forall j | r < j <= hi :: !OccursAt(s, needle, j)
    decreases hi + 1
  {
    if hi < 0 then -1
    else if OccursAt(s, needle, hi) then hi
    else LastIndexBelow(s, needle, hi - 1)
  }

  /** `list.indexOf(x)`: the first index holding `x`, or -1. */
  function IndexOf(list: seq<string>, x: string): (r: int)
    ensures -1 <= r < |list|
    ensures r != -1 ==> list[r] == x
    ensures forall j | 0 <= j < |list| && (r == -1 || j < r) :: list[j] != x
  {
    if |list| == 0 then -1
    else if list[0] == x then 0
    else var k := IndexOf(list[1..], x); if k == -1 then -1 else k + 1
  }

  /**
   * The characters `String.prototype.trim` removes: the ECMAScript WhiteSpace
   * code points (tab, vertical tab, form feed, space, no-break space, the
   * byte-order mark and the Unicode space separators) and the LineTerminator
   * code points (line feed, carriage return, line and paragraph separators).
   */
  predicate IsJsWhitespace(c: char) {
    c == '\t' || c == '\U{000B}' || c == '\U{000C}' || c == ' ' || c == '\U{00A0}' || c == '\U{FEFF}'
    || c == '\U{1680}' || ('\U{2000}' <= c <= '\U{200A}') || c == '\U{202F}' || c == '\U{205F}' || c == '\U{3000}'
    || c == '\n' || c == '\r' || c == '\U{2028}' || c == '\U{2029}'
  }

  function TrimStart(s: string): (r: string)
    ensures |r| <= |s| && r == s[|s| - |r|..]
    ensures r != [] ==> !IsJsWhitespace(r[0])
    ensures forall k | 0 <= k < |s| - |r| :: IsJsWhitespace(s[k])
  {
    if s != [] && IsJsWhitespace(s[0]) then TrimStart(s[1..]) else s
  }

  function TrimEnd(s: string): (r: string)
    ensures |r| <= |s| && r == s[..|r|]
    ensures r != [] ==> !IsJsWhitespace(r[|r| - 1])
    ensures forall k | |r| <= k < |s| :: IsJsWhitespace(s[k])
  {
    if s != [] && IsJsWhitespace(s[|s| - 1]) then TrimEnd(s[..|s| - 1]) else s
  }

  /** `s.trim()`: `s` without its leading and trailing whitespace. */
  function Trim(s: string): (r: string)
    ensures exists i | 0 <= i <= |s| - |r| :: OccursAt(s, r, i)
    ensures r != [] ==> !IsJsWhitespace(r[0]) && !IsJsWhitespace(r[|r| - 1])
    ensures (forall k | 0 <= k < |s| :: IsJsWhitespace(s[k])) <==> r == []
  {
    TrimBothEnds(s);
    TrimEnd(TrimStart(s))
  }

  lemma TrimBothEnds(s: string)
    ensures OccursAt(s, TrimEnd(TrimStart(s)), |s| - |TrimStart(s)|)
    ensures TrimEnd(TrimStart(s)) == [] ==> forall k | 0 <= k < |s| :: IsJsWhitespace(s[k])
  {
    TrimOccurs(s);
    TrimAllWhitespace(s);
  }

  /** What is left after trimming both ends occurs in `s` where the leading whitespace ends. */
  lemma TrimOccurs(s: string)
    ensures OccursAt(s, TrimEnd(TrimStart(s)), |s| - |TrimStart(s)|)
  {
    PrefixOfTailOccurs(s, TrimStart(s), TrimEnd(TrimStart(s)));
  }

  /** A prefix of a tail of `s` occurs in `s` where that tail starts. */
  lemma PrefixOfTailOccurs(s: string, t: string, r: string)
    requires |t| <= |s| && t == s[|s| - |t|..] && |r| <= |t| && r == t[..|r|]
    ensures OccursAt(s, r, |s| - |t|)
  {
  }

  /** Nothing is left of `s` only when every character of it is whitespace. */
  lemma TrimAllWhitespace(s: string)
    ensures TrimEnd(TrimStart(s)) == [] ==> forall k | 0 <= k < |s| :: IsJsWhitespace(s[k])
  {
    var t := TrimStart(s);
    if TrimEnd(t) == [] {
      assert t == [];
    }
  }

  function LowerChar(c: char): char {
    if IsUpper(c) then (c as int - 'A' as int + 'a' as int) as char else c
  }

  predicate IsUpper(c: char) {
    'A' <= c <= 'Z'
  }

  /**
   * `s.toLowerCase()`, on the letters A to Z: each capital becomes its small
   * letter, so none is left, and a string without capitals is unchanged.
   */
  function ToLower(s: string): (r: string)
    ensures |r| == |s|
    ensures forall k | 0 <= k < |s| :: IsUpper(s[k]) ==> r[k] as int == s[k] as int + 32
    ensures forall k | 0 <= k < |s| :: !IsUpper(s[k]) ==> r[k] == s[k]
    ensures forall k | 0 <= k < |r| :: !IsUpper(r[k])
    ensures (forall k | 0 <= k < |s| :: !IsUpper(s[k])) ==> r == s
  {
    seq(|s|, k requires 0 <= k < |s| => LowerChar(s[k]))
  }

  /** Lower-casing twice is lower-casing once. */
  lemma ToLowerIdempotent(s: string)
    ensures ToLower(ToLower(s)) == ToLower(s)
  {
  }

  /**
   * What trimming removes is whitespace only: `s` is the result with the
   * whitespace that `TrimStart` drops before it and only whitespace after it.
   */
  lemma TrimRemovesOnlyWhitespace(s: string)
    ensures var i, r := |s| - |TrimStart(s)|, Trim(s);
      i + |r| <= |s| && (forall k | 0 <= k < |r| :: r[k] == s[i + k]) &&
      (forall k | 0 <= k < i :: IsJsWhitespace(s[k])) &&
      (forall k | i + |r| <= k < |s| :: IsJsWhitespace(s[k]))
  {
    var i := |s| - |TrimStart(s)|;
    assert Trim(s) == TrimEnd(s[i..]);
    TrimEndOfSuffix(s, i);
  }

  /** `TrimEnd` of the suffix of `s` from `i` is a slice of `s` followed by whitespace only. */
  lemma TrimEndOfSuffix(s: string, i: nat)
    requires i <= |s|
    ensures var r := TrimEnd(s[i..]);
      i + |r| <= |s| && r == s[i..i + |r|] && forall k | i + |r| <= k < |s| :: IsJsWhitespace(s[k])
  {
    var t := s[i..];
    var r := TrimEnd(t);
    forall k | i + |r| <= k < |s| ensures IsJsWhitespace(s[k]) {
      assert s[k] == t[k - i];
    }
  }

  /** Trimming leaves a string that neither starts nor ends with whitespace as it is. */
  lemma TrimUntouched(s: string)
    requires s != [] && !IsJsWhitespace(s[0]) && !IsJsWhitespace(s[|s| - 1])
    ensures Trim(s) == s
  {
    assert TrimStart(s) == s;
    assert TrimEnd(s) == s;
  }

  // Decimal numerals.

  predicate IsDigit(c: char) {
    '0' <= c <= '9'
  }

  predicate IsDigits(s: string) {
    forall c | c in s :: IsDigit(c)
  }

  function DigitRun(s: string, j: nat): (n: nat)
    requires j <= |s|
    ensures j + n <= |s|
    ensures forall k | j <= k < j + n :: IsDigit(s[k])
    ensures j + n == |s| || !IsDigit(s[j + n])
    decreases |s| - j
  {
    if j < |s| && IsDigit(s[j]) then 1 + DigitRun(s, j + 1) else 0
  }

  function DecimalValue(digits: string): nat
    requires IsDigits(digits)
    decreases |digits|
  {
    if digits == [] then 0
    else
      assert digits[|digits| - 1] in digits;
      DecimalValue(digits[..|digits| - 1]) * 10 + ((digits[|digits| - 1] as int) - ('0' as int))
  }

  /** `String(n)` for a whole number. */
  function NatToString(n: nat): (s: string)
    ensures s != [] && IsDigits(s)
    decreases n
  {
    var digit := (('0' as int) + n % 10) as char;
    if n < 10 then [digit] else NatToString(n / 10) + [digit]
  }

  /** Reading back a printed number gives the number. */
  lemma {:induction false} DecimalValueOfNatToString(n: nat)
    ensures DecimalValue(NatToString(n)) == n
    decreases n
  {
    var s := NatToString(n);
    if n >= 10 {
      DecimalValueOfNatToString(n / 10);
      assert s[..|s| - 1] == NatToString(n / 10);
    }
  }

  lemma {:induction false} DigitRunOver(s: string, j: nat, n: nat)
    requires j + n <= |s|
    requires forall k | j <= k < j + n :: IsDigit(s[k])
    requires j + n == |s| || !IsDigit(s[j + n])
    ensures DigitRun(s, j) == n
    decreases n
  {
    if n > 0 {
      DigitRunOver(s, j + 1, n - 1);
    }
  }
}
