/** Character and substring helpers shared by the responder, the accuracy
    scorer and the credential mask: ASCII lower-casing and the substring
    test written `needle in haystack` in the source. */
module Text {

  /** Lower-cases one ASCII letter and leaves every other character alone. */
  function LowerChar(c: char): (r: char)
    ensures 'A' <= c <= 'Z' ==> 'a' <= r <= 'z' && r as int == c as int + 32
    ensures !('A' <= c <= 'Z') ==> r == c
  {
    if 'A' <= c <= 'Z' then (c as int + 32) as char else c
  }

  /** The string's lower-case form, character by character. */
  function Lower(s: string): (r: string)
    ensures |r| == |s|
    ensures forall i :: 0 <= i < |s| ==> r[i] == LowerChar(s[i])
  {
    if s == [] then [] else [LowerChar(s[0])] + Lower(s[1..])
  }

  /** A lower-cased string has no upper-case ASCII letter left in it. */
  lemma LowerHasNoUpper(s: string, i: nat)
    requires i < |s|
    ensures !('A' <= Lower(s)[i] <= 'Z')
  {
  }

  /** Lower-casing twice is lower-casing once. */
  lemma LowerIdempotent(s: string)
    ensures Lower(Lower(s)) == Lower(s)
  {
    var l := Lower(s);
    forall i | 0 <= i < |l| ensures Lower(l)[i] == l[i] {
      LowerHasNoUpper(s, i);
    }
  }

  /** Establishes the lower-case form of a concrete string from its characters. */
  lemma LowerIs(s: string, r: string)
    requires |r| == |s|
    requires forall i :: 0 <= i < |s| ==> LowerChar(s[i]) == r[i]
    ensures Lower(s) == r
  {
  }

  /** `t` occurs in `s` starting at index `j`. */
  predicate OccursAt(s: string, t: string, j: int) {
    0 <= j && j + |t| <= |s| && s[j..j + |t|] == t
  }

  /** `t` is a substring of `s` (the empty string is a substring of every string). */
  predicate Contains(s: string, t: string)
    ensures Contains(s, t) ==> |t| <= |s|
  {
    exists j | 0 <= j <= |s| - |t| :: OccursAt(s, t, j)
  }

  /** A witnessed occurrence gives containment. */
  lemma ContainsAt(s: string, t: string, j: nat)
    requires j + |t| <= |s|
    requires forall k :: 0 <= k < |t| ==> s[j + k] == t[k]
    ensures Contains(s, t)
  {
    assert OccursAt(s, t, j);
  }

  /** Non-containment from a certificate: `w[j]` names, for every start
      position `j`, an offset at which `s` and `t` disagree. */
  lemma NotContains(s: string, t: string, w: seq<nat>)
    requires |t| <= |s| && |w| == |s| - |t| + 1
    requires forall j :: 0 <= j < |w| ==> w[j] < |t| && s[j + w[j]] != t[w[j]]
    ensures !Contains(s, t)
  {
    forall j | 0 <= j <= |s| - |t| ensures !OccursAt(s, t, j) {
      assert s[j..j + |t|][w[j]] == s[j + w[j]];
    }
  }
}
