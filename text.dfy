/** The Python string operations the chat core relies on: `str.strip()` on
    every completion reply, and `"\n".join(...)` when notes and transcripts
    are folded into one prompt message. `Split` is the inverse of `Join`. */
module Text {

  /** The code points Python's `str.isspace()` accepts. */
  const SpaceCodes: set<int> := {
    0x09, 0x0A, 0x0B, 0x0C, 0x0D, 0x1C, 0x1D, 0x1E, 0x1F, 0x20, 0x85, 0xA0, 0x1680,
    0x2000, 0x2001, 0x2002, 0x2003, 0x2004, 0x2005, 0x2006, 0x2007, 0x2008, 0x2009, 0x200A,
    0x2028, 0x2029, 0x202F, 0x205F, 0x3000}

  /** Python's `str.isspace()` for a single character. */
  predicate IsSpace(c: char) {
    c as int in SpaceCodes
  }

  /** Every character of `s` from `lo` up to (not including) `hi` is
      whitespace. */
  predicate SpaceBetween(s: string, lo: int, hi: int) {
    forall i :: lo <= i < hi && 0 <= i < |s| ==> IsSpace(s[i])
  }

  /** The index of the first non-whitespace character of `s` at or after
      `i`, or `|s|` when there is none. */
  function FirstNonSpace(s: string, i: nat): (n: nat)
    requires i <= |s|
    ensures i <= n <= |s| && SpaceBetween(s, i, n)
    ensures n == |s| || !IsSpace(s[n])
    decreases |s| - i
  {
    if i < |s| && IsSpace(s[i]) then FirstNonSpace(s, i + 1) else i
  }

  /** The bounds `strip()` narrows `s[lo..hi]` to, dropping one whitespace
      character at a time from the front, then from the back. Once the front
      has stopped at a non-whitespace character the back can never pass it,
      which the second `requires` records. */
  function StripBounds(s: string, lo: nat, hi: nat): (b: (nat, nat))
    requires lo <= hi <= |s|
    requires hi == |s| || (lo < hi && !IsSpace(s[lo]))
    ensures lo <= b.0 <= b.1 <= hi
    ensures b.0 == FirstNonSpace(s, lo)
    ensures SpaceBetween(s, b.1, hi)
    ensures b.0 == b.1 || (!IsSpace(s[b.0]) && !IsSpace(s[b.1 - 1]))
    decreases hi - lo
  {
    if lo < hi && IsSpace(s[lo]) then StripBounds(s, lo + 1, hi)
    else if lo < hi && IsSpace(s[hi - 1]) then StripBounds(s, lo, hi - 1)
    else (lo, hi)
  }

  /** `s.strip()`: what is left of `s` after dropping whitespace at both
      ends. The result starts at the first non-whitespace character, is an
      infix of `s` from there, only whitespace follows it, and it neither
      starts nor ends with whitespace. */
  function Strip(s: string): (r: string)
    ensures r == [] || (!IsSpace(r[0]) && !IsSpace(r[|r| - 1]))
    ensures var k := FirstNonSpace(s, 0);
      && k + |r| <= |s|
      && (forall i :: 0 <= i < |r| ==> r[i] == s[k + i])
      && SpaceBetween(s, k + |r|, |s|)
  {
    var b := StripBounds(s, 0, |s|);
    s[b.0..b.1]
  }

  /** `sep.join(parts)` for a one-character separator. */
  function Join(sep: char, parts: seq<string>): (r: string)
    ensures |parts| == 0 ==> r == ""
    ensures |parts| == 1 ==> r == parts[0]
    ensures |parts| > 1 ==> |r| > |parts[0]| && r[..|parts[0]|] == parts[0] && r[|parts[0]|] == sep
  {
    if |parts| == 0 then ""
    else if |parts| == 1 then parts[0]
    else parts[0] + [sep] + Join(sep, parts[1..])
  }

  /** The first position of `c` in `s`. */
  function IndexOf(c: char, s: string): (i: nat)
    requires c in s
    ensures i < |s| && s[i] == c && c !in s[..i]
  {
    if s[0] == c then 0 else 1 + IndexOf(c, s[1..])
  }

  /** `s.split(sep)` for a one-character separator. */
  function Split(sep: char, s: string): (r: seq<string>)
    ensures |r| >= 1
    ensures sep !in s <==> r == [s]
    decreases |s|
  {
    if sep in s then
      var i := IndexOf(sep, s);
      [s[..i]] + Split(sep, s[i + 1..])
    else
      [s]
  }

  /** Splitting a join gives back the parts, provided none of them holds
      the separator: each part stays recognisable as one line. */
  lemma {:induction false} SplitJoin(sep: char, parts: seq<string>)
    requires |parts| >= 1
    requires forall k :: 0 <= k < |parts| ==> sep !in parts[k]
    ensures Split(sep, Join(sep, parts)) == parts
  {
    if |parts| > 1 {
      var s := Join(sep, parts);
      var n := |parts[0]|;
      assert s == parts[0] + [sep] + Join(sep, parts[1..]);
      assert sep in s by { assert s[n] == sep; }
      var i := IndexOf(sep, s);
      assert s[..n] == parts[0];
      assert i == n;
      assert s[i + 1..] == Join(sep, parts[1..]);
      SplitJoin(sep, parts[1..]);
      assert parts == [parts[0]] + parts[1..];
    }
  }
}
