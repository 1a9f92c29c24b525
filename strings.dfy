/**
 * Character-level string helpers shared by the model: ASCII case folding,
 * prefix tests, the first index of a character, whitespace trimming and the
 * substring test. Strings are sequences of characters; a Swift `Character`
 * (a grapheme cluster) is modelled as one `char`.
 */
module Strings {

  /** Lower-case an ASCII capital; every other character is left alone. */
  function LowerChar(c: char): char {
    if 'A' <= c <= 'Z' then (c as int + 32) as char else c
  }

  predicate IsUpper(c: char) {
    'A' <= c <= 'Z'
  }

  /** Swift's `lowercased()`, restricted to ASCII letters, one character at a time. */
  function Lower(s: string): (r: string)
    ensures |r| == |s|
    ensures forall i :: 0 <= i < |s| ==> r[i] == LowerChar(s[i])
  {
    if s == [] then [] else [LowerChar(s[0])] + Lower(s[1..])
  }

  /**
   * Lowering changes exactly the capitals, each into the small letter at the
   * same place in the alphabet, and leaves every other character as it is.
   */
  lemma LowerFoldsCapitals(s: string, i: nat)
    requires i < |s|
    ensures IsUpper(s[i]) ==> 'a' <= Lower(s)[i] <= 'z' && Lower(s)[i] as int - 'a' as int == s[i] as int - 'A' as int
    ensures !IsUpper(s[i]) ==> Lower(s)[i] == s[i]
    ensures Lower(s)[i] != s[i] <==> IsUpper(s[i])
  {
  }

  /** Lowering a concatenation lowers each part. */
  lemma LowerAppend(a: string, b: string)
    ensures Lower(a + b) == Lower(a) + Lower(b)
  {
    assert forall i :: 0 <= i < |a + b| ==> Lower(a + b)[i] == (Lower(a) + Lower(b))[i];
  }

  /** A lowered string holds no capital letter, and lowering it again changes nothing. */
  lemma LowerIsLower(s: string)
    ensures forall i :: 0 <= i < |Lower(s)| ==> !IsUpper(Lower(s)[i])
    ensures Lower(Lower(s)) == Lower(s)
  {
  }

  predicate HasPrefix(s: string, p: string) {
    |p| <= |s| && s[..|p|] == p
  }

  /**
   * The index of the first `c` in `s`, or `|s|` when there is none
   * (`firstIndex(of:)`, with `endIndex` or "not found" for `|s|`); used on
   * strings and on other sequences alike.
   */
  function FirstIndexOf<T(==)>(s: seq<T>, c: T): (i: nat)
    ensures i <= |s|
    ensures i < |s| ==> s[i] == c
    ensures forall j :: 0 <= j < i ==> s[j] != c
  {
    if s == [] then 0
    else if s[0] == c then 0
    else 1 + FirstIndexOf(s[1..], c)
  }

  /** The characters of `CharacterSet.whitespacesAndNewlines` within the Latin-1 range. */
  predicate IsWhitespace(c: char) {
    c == ' ' || c == '\t' || c == '\n' || c == '\r' || c == '\U{000B}' || c == '\U{000C}'
    || c == '\U{0085}' || c == '\U{00A0}'
  }

  /** `s` without its leading whitespace. */
  function TrimStart(s: string): (r: string)
    ensures |r| <= |s| && r == s[|s| - |r|..]
    ensures r == [] || !IsWhitespace(r[0])
    ensures forall k :: 0 <= k < |s| - |r| ==> IsWhitespace(s[k])
  {
    if s == [] then []
    else if IsWhitespace(s[0]) then TrimStart(s[1..])
    else s
  }

  /** `s` without its trailing whitespace. */
  function TrimEnd(s: string): (r: string)
    ensures |r| <= |s| && r == s[..|r|]
    ensures r == [] || !IsWhitespace(r[|r| - 1])
    ensures forall k :: |r| <= k < |s| ==> IsWhitespace(s[k])
  {
    if s == [] then []
    else if IsWhitespace(s[|s| - 1]) then TrimEnd(s[..|s| - 1])
    else s
  }

  /** Swift's `trimmingCharacters(in: .whitespacesAndNewlines)`. */
  function Trim(s: string): string {
    TrimEnd(TrimStart(s))
  }

  /** Trimming leaves an empty string exactly when every character is whitespace. */
  lemma TrimEmptyIff(s: string)
    ensures Trim(s) == [] <==> forall k :: 0 <= k < |s| ==> IsWhitespace(s[k])
  {
    var t := TrimStart(s);
    if Trim(s) != [] {
      var r := Trim(s);
      assert r == t[..|r|];
      assert s[|s| - |t|] == t[0] == r[0];
      assert !IsWhitespace(s[|s| - |t|]);
    }
  }

  /** Whether `k` occurs in `s` starting at position `i`. */
  predicate OccursAt(k: string, s: string, i: nat) {
    i + |k| <= |s| && s[i..i + |k|] == k
  }

  /** Whether `k` occurs in `s` as a contiguous run of characters. */
  ghost predicate IsSubstring(k: string, s: string) {
    exists i: nat :: OccursAt(k, s, i)
  }

  /**
   * Foundation's `contains` on strings (`range(of:) != nil`), checked position
   * by position: a non-empty `k` occurs in `s`; the empty string is never found.
   */
  function Contains(s: string, k: string): (r: bool)
    ensures r <==> k != [] && IsSubstring(k, s)
    decreases |s|
  {
    if k == [] then false
    else if |k| > |s| then
      assert forall i: nat :: !OccursAt(k, s, i);
      false
    else if s[..|k|] == k then
      assert OccursAt(k, s, 0);
      true
    else
      var r := Contains(s[1..], k);
      if r then
        var i: nat :| OccursAt(k, s[1..], i);
        assert s[i + 1..i + 1 + |k|] == s[1..][i..i + |k|];
        assert OccursAt(k, s, i + 1);
        true
      else
        assert !IsSubstring(k, s[1..]);
        forall i: nat ensures !OccursAt(k, s, i) {
          if i > 0 && i + |k| <= |s| {
            assert s[1..][i - 1..i - 1 + |k|] == s[i..i + |k|];
            assert !OccursAt(k, s[1..], i - 1);
          }
        }
        false
  }
}
