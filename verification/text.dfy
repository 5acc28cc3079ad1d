/** The two string operations the service relies on: Python's `str.lower`,
    restricted here to ASCII letters, and the substring test `sub in s`. */
module Text {

  predicate IsAsciiUpper(c: char) {
    'A' <= c <= 'Z'
  }

  /** One character of `str.lower` on the ASCII range; every other character
      is left as it is. */
  function LowerChar(c: char): (d: char)
    ensures !IsAsciiUpper(d)
    ensures IsAsciiUpper(c) ==> d as int == c as int + 32
    ensures !IsAsciiUpper(c) ==> d == c
  {
    if IsAsciiUpper(c) then (c as int + 32) as char else c
  }

  function Lower(s: string): (r: string)
    ensures |r| == |s|
    ensures forall i :: 0 <= i < |s| ==> r[i] == LowerChar(s[i])
  {
    if s == [] then [] else [LowerChar(s[0])] + Lower(s[1..])
  }

  /** `a` and `b` differ at most in the case of ASCII letters. */
  ghost predicate EqualIgnoringCase(a: string, b: string) {
    |a| == |b| && forall i :: 0 <= i < |a| ==> LowerChar(a[i]) == LowerChar(b[i])
  }

  ghost predicate NoAsciiUpper(s: string) {
    forall i :: 0 <= i < |s| ==> !IsAsciiUpper(s[i])
  }

  /** Lowering is idempotent and leaves no upper-case ASCII letter behind. */
  lemma LowerIdempotent(s: string)
    ensures NoAsciiUpper(Lower(s))
    ensures Lower(Lower(s)) == Lower(s)
  {
  }

  /** A string with no upper-case ASCII letter is its own lower-case form. */
  lemma LowerOfLowercase(s: string)
    requires NoAsciiUpper(s)
    ensures Lower(s) == s
  {
  }

  /** Two strings have the same lower-case form exactly when they are equal
      up to the case of ASCII letters. */
  lemma LowerEqualIffEqualIgnoringCase(a: string, b: string)
    ensures Lower(a) == Lower(b) <==> EqualIgnoringCase(a, b)
  {
  }

  /** `sub` occurs in `s` starting at index `i`. */
  ghost predicate OccursAt(sub: string, s: string, i: nat) {
    i + |sub| <= |s| && s[i..i + |sub|] == sub
  }

  /** The meaning of Python's `sub in s` for strings. */
  ghost predicate IsSubstring(sub: string, s: string) {
    exists i: nat :: OccursAt(sub, s, i)
  }

  /** Occurrences in `s[1..]` are the occurrences in `s` past index 0,
      shifted down by one. */
  lemma OccursInTail(sub: string, s: string)
    requires |s| > 0
    requires !(sub <= s)
    ensures IsSubstring(sub, s) <==> IsSubstring(sub, s[1..])
  {
    if IsSubstring(sub, s) {
      var i: nat :| OccursAt(sub, s, i);
      assert s[1..][i - 1..i - 1 + |sub|] == s[i..i + |sub|];
      assert OccursAt(sub, s[1..], i - 1);
    }
    if IsSubstring(sub, s[1..]) {
      var j: nat :| OccursAt(sub, s[1..], j);
      assert s[j + 1..j + 1 + |sub|] == s[1..][j..j + |sub|];
      assert OccursAt(sub, s, j + 1);
    }
  }

  /** Python's `sub in s`: a left-to-right scan for a starting position at
      which `sub` is a prefix of the rest of `s`. */
  function Contains(sub: string, s: string): (r: bool)
    ensures r <==> IsSubstring(sub, s)
    decreases |s|
  {
    if sub <= s then
      assert OccursAt(sub, s, 0);
      true
    else if s == [] then
      false
    else
      OccursInTail(sub, s);
      Contains(sub, s[1..])
  }
}
