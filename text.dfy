/** The JavaScript string operations the editor relies on, over `seq<char>`:
    `toLowerCase`, `split(sep).pop()`, `split(sep)[1]`, `includes`,
    `startsWith`, `trim()` used as a truth value, and the decimal rendering
    of a non-negative integer inside a template literal. */
module Text {
  import opened Wrappers

  // ---------------------------------------------------------------------
  // Case

  /** Lower-cases an ASCII capital letter; every other character is kept.
      Every string this model compares a lower-cased text with is ASCII,
      and no non-ASCII character lower-cases to an ASCII letter used there. */
  function LowerChar(c: char): char {
    if 'A' <= c <= 'Z' then (c as int - 'A' as int + 'a' as int) as char else c
  }

  function ToLower(s: string): (r: string)
    ensures |r| == |s|
    ensures forall i :: 0 <= i < |s| ==> r[i] == LowerChar(s[i])
  {
    seq(|s|, i requires 0 <= i < |s| => LowerChar(s[i]))
  }

  /** Lower-cased, a key is a given lower-case letter exactly when it is
      that letter in either case. */
  lemma LowerIsLetter(key: string, c: char)
    requires 'a' <= c <= 'z'
    ensures ToLower(key) == [c] <==> key == [c] || key == [(c as int - 'a' as int + 'A' as int) as char]
  {
    if ToLower(key) == [c] {
      assert |key| == 1 && LowerChar(key[0]) == c;
    }
  }

  // ---------------------------------------------------------------------
  // Occurrences of a pattern

  predicate OccursAt(s: string, p: string, i: nat) {
    i + |p| <= |s| && s[i..i + |p|] == p
  }

  /** `s.includes(p)`. */
  predicate Contains(s: string, p: string) {
    exists i :: 0 <= i <= |s| && OccursAt(s, p, i)
  }

  /** `s.startsWith(p)`. */
  predicate StartsWith(s: string, p: string) {
    OccursAt(s, p, 0)
  }

  /** The first occurrence of `p` in `s` at or after `k`. */
  function IndexFrom(s: string, p: string, k: nat): (r: Option<nat>)
    requires k <= |s|
    ensures r.Some? ==> k <= r.value && OccursAt(s, p, r.value)
    ensures r.Some? ==> forall j: nat :: k <= j < r.value ==> !OccursAt(s, p, j)
    ensures r.None? ==> forall j: nat :: k <= j ==> !OccursAt(s, p, j)
    decreases |s| - k
  {
    if k + |p| > |s| then None
    else if OccursAt(s, p, k) then Some(k)
    else if k == |s| then None
    else IndexFrom(s, p, k + 1)
  }

  /** `s.indexOf(p)`, with `None` for -1. */
  function IndexOf(s: string, p: string): (r: Option<nat>)
    ensures r.Some? ==> OccursAt(s, p, r.value)
    ensures r.Some? ==> forall j: nat :: j < r.value ==> !OccursAt(s, p, j)
    ensures r.None? <==> !Contains(s, p)
  {
    IndexFrom(s, p, 0)
  }

  /** `s.split(sep)[1]`: the text between the first occurrence of `sep` and
      the next one (or the end), `None` (JavaScript `undefined`) when `sep`
      does not occur. */
  function SplitSecond(s: string, sep: string): (r: Option<string>)
    requires |sep| > 0
    ensures r.Some? <==> Contains(s, sep)
    ensures r.Some? ==> !Contains(r.value, sep)
    ensures r.Some? ==> IndexOf(s, sep).Some?
    // the text runs from just after the first occurrence up to the second
    // occurrence, or to the end of `s` when there is none
    ensures r.Some? ==> (var start := IndexOf(s, sep).value + |sep|;
                         r.value <= s[start..] &&
                         (start + |r.value| == |s| || OccursAt(s, sep, start + |r.value|)))
  {
    match IndexOf(s, sep)
    case None => None
    case Some(i) =>
      var rest := s[i + |sep|..];
      match IndexOf(rest, sep)
      case None => Some(rest)
      case Some(j) =>
        NoOccurrenceInPrefix(rest, sep, j);
        Some(rest[..j])
  }

  /** No occurrence of `p` lies inside the prefix that ends where the first
      occurrence starts. */
  lemma NoOccurrenceInPrefix(s: string, p: string, j: nat)
    requires |p| > 0 && j <= |s|
    requires forall k: nat :: k < j ==> !OccursAt(s, p, k)
    ensures !Contains(s[..j], p)
  {
    forall k: nat | OccursAt(s[..j], p, k)
      ensures false
    {
      assert s[..j][k..k + |p|] == s[k..k + |p|];
      assert OccursAt(s, p, k);
    }
  }

  /** `s.split(sep).pop()`: the text after the last occurrence of the
      character `sep`, or all of `s` when it has none. */
  function LastSegment(s: string, sep: char): (r: string)
    ensures |r| <= |s| && r == s[|s| - |r|..]
    ensures sep !in r
    ensures |r| < |s| ==> s[|s| - |r| - 1] == sep
    decreases |s|
  {
    if |s| == 0 || s[|s| - 1] == sep then []
    else LastSegment(s[..|s| - 1], sep) + [s[|s| - 1]]
  }

  // ---------------------------------------------------------------------
  // Whitespace

  /** The characters `String.prototype.trim` removes. */
  predicate IsWhitespace(c: char) {
    c == ' ' || c == '\t' || c == '\n' || c == '\r'
    || c == '\U{000B}' || c == '\U{000C}' || c == '\U{00A0}' || c == '\U{1680}'
    || ('\U{2000}' <= c <= '\U{200A}')
    || c == '\U{2028}' || c == '\U{2029}' || c == '\U{202F}' || c == '\U{205F}'
    || c == '\U{3000}' || c == '\U{FEFF}'
  }

  /** `s.trim() === ''`, so `!s.trim()` in the source. */
  predicate Blank(s: string) {
    forall i :: 0 <= i < |s| ==> IsWhitespace(s[i])
  }

  // ---------------------------------------------------------------------
  // Decimal rendering of a non-negative integer (`${n}`)

  predicate IsDigit(c: char) { '0' <= c <= '9' }

  function DigitChar(d: nat): (c: char)
    requires d < 10
    ensures IsDigit(c)
  {
    ('0' as int + d) as char
  }

  function DigitValue(c: char): nat
    requires IsDigit(c)
  {
    c as int - '0' as int
  }

  function NatToDecimal(n: nat): (r: string)
    ensures |r| > 0
    ensures forall i :: 0 <= i < |r| ==> IsDigit(r[i])
  {
    if n < 10 then [DigitChar(n)] else NatToDecimal(n / 10) + [DigitChar(n % 10)]
  }

  /** The number a string of decimal digits denotes. */
  function DecimalValue(s: string): nat
    requires forall i :: 0 <= i < |s| ==> IsDigit(s[i])
  {
    if |s| == 0 then 0 else 10 * DecimalValue(s[..|s| - 1]) + DigitValue(s[|s| - 1])
  }

  /** Reading back the decimal rendering gives the number. */
  lemma {:induction false} DecimalRoundTrip(n: nat)
    ensures DecimalValue(NatToDecimal(n)) == n
  {
    var r := NatToDecimal(n);
    if n >= 10 {
      DecimalRoundTrip(n / 10);
      assert r[..|r| - 1] == NatToDecimal(n / 10);
    }
  }

  /** Distinct numbers render as distinct strings. */
  lemma DecimalInjective(a: nat, b: nat)
    requires NatToDecimal(a) == NatToDecimal(b)
    ensures a == b
  {
    DecimalRoundTrip(a);
    DecimalRoundTrip(b);
  }
}
