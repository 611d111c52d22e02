/**
 * The two string operations the handler relies on: `String.prototype.toLowerCase`
 * (restricted here to ASCII letters) and `String.prototype.includes`.
 */
module Strings {

  predicate IsUpper(c: char) {
    'A' <= c <= 'Z'
  }

  /** No character of `s` is an upper-case ASCII letter. */
  predicate IsLowerCase(s: string) {
    forall i :: 0 <= i < |s| ==> !IsUpper(s[i])
  }

  /** ASCII lower-casing of one character; every other character is left as it is. */
  function LowerChar(c: char): (d: char)
    ensures !IsUpper(d)
  {
    if IsUpper(c) then (c as int + 32) as char else c
  }

  /** `s.toLowerCase()`, for the ASCII letters. */
  function ToLower(s: string): (r: string)
    ensures |r| == |s|
    ensures IsLowerCase(r)
    ensures forall i :: 0 <= i < |s| ==> r[i] == LowerChar(s[i])
  {
    seq(|s|, i requires 0 <= i < |s| => LowerChar(s[i]))
  }

  /** Two characters are the same letter up to ASCII case. */
  predicate SameIgnoringCase(a: char, b: char) {
    a == b
    || (IsUpper(a) && b as int == a as int + 32)
    || (IsUpper(b) && a as int == b as int + 32)
  }

  /** Two strings are equal up to ASCII case, character by character. */
  predicate EqualIgnoringCase(a: string, b: string) {
    |a| == |b| && forall i :: 0 <= i < |a| ==> SameIgnoringCase(a[i], b[i])
  }

  /** Lower-casing identifies exactly the strings that differ only in ASCII case. */
  lemma ToLowerCaseInsensitive(a: string, b: string)
    ensures ToLower(a) == ToLower(b) <==> EqualIgnoringCase(a, b)
  {
    if ToLower(a) == ToLower(b) {
      forall i | 0 <= i < |a| ensures SameIgnoringCase(a[i], b[i]) {
        assert ToLower(a)[i] == ToLower(b)[i];
      }
    }
    if EqualIgnoringCase(a, b) {
      forall i | 0 <= i < |a| ensures ToLower(a)[i] == ToLower(b)[i] {
        assert SameIgnoringCase(a[i], b[i]);
      }
    }
  }

  /** Lower-casing a lower-case string changes nothing; in particular it is idempotent. */
  lemma ToLowerOfLowerCase(s: string)
    requires IsLowerCase(s)
    ensures ToLower(s) == s
  {
    forall i | 0 <= i < |s| ensures ToLower(s)[i] == s[i] {
      assert !IsUpper(s[i]);
    }
  }

  /** `needle` occurs in `hay` starting at position `k`. */
  ghost predicate OccursAt(hay: string, needle: string, k: int) {
    0 <= k && k + |needle| <= |hay| && hay[k..k + |needle|] == needle
  }

  /** Reference definition of substring containment. */
  ghost predicate Substring(hay: string, needle: string) {
    exists k :: OccursAt(hay, needle, k)
  }

  /** `hay.includes(needle)`: try every starting position from the left. */
  function Includes(hay: string, needle: string): bool
    decreases |hay|
  {
    needle <= hay || (|hay| > 0 && Includes(hay[1..], needle))
  }

  lemma OccursAtShift(hay: string, needle: string, k: int)
    requires |hay| > 0 && 0 <= k
    ensures OccursAt(hay[1..], needle, k) <==> OccursAt(hay, needle, k + 1)
  {
    if 0 <= k && k + |needle| <= |hay[1..]| {
      assert hay[1..][k..k + |needle|] == hay[k + 1..k + 1 + |needle|];
    }
  }

  /** The left-to-right search finds `needle` exactly when it occurs somewhere in `hay`. */
  lemma {:induction false} IncludesIsSubstring(hay: string, needle: string)
    ensures Includes(hay, needle) <==> Substring(hay, needle)
    decreases |hay|
  {
    if needle <= hay {
      assert hay[0..|needle|] == needle;
      assert OccursAt(hay, needle, 0);
    } else if |hay| == 0 {
      assert forall k :: !OccursAt(hay, needle, k);
    } else {
      IncludesIsSubstring(hay[1..], needle);
      if Substring(hay[1..], needle) {
        var k :| OccursAt(hay[1..], needle, k);
        OccursAtShift(hay, needle, k);
      }
      if Substring(hay, needle) {
        var k :| OccursAt(hay, needle, k);
        OccursAtShift(hay, needle, k - 1);
      }
    }
  }

  /** A substring is no longer than the string it occurs in, and one of the
      same length is that string. */
  lemma SubstringLength(hay: string, needle: string)
    requires Substring(hay, needle)
    ensures |needle| <= |hay|
    ensures |needle| == |hay| ==> needle == hay
  {
    var k :| OccursAt(hay, needle, k);
    if |needle| == |hay| {
      assert k == 0;
      assert hay[0..|hay|] == hay;
    }
  }

  /** Every character of a substring is a character of the string it occurs in. */
  lemma SubstringKeepsChars(hay: string, needle: string, c: char)
    requires Substring(hay, needle) && c in needle
    ensures c in hay
  {
    var k :| OccursAt(hay, needle, k);
    var j :| 0 <= j < |needle| && needle[j] == c;
    assert hay[k + j] == hay[k..k + |needle|][j];
  }
}
