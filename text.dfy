/**
 * Strings as the game's rules engine sees them: ASCII lower-casing
 * (the model of `toLowerCase`) and substring search (the model of `includes`).
 */
module Text {

  function LowerChar(c: char): (r: char)
    ensures 'A' <= c <= 'Z' ==> r as int == c as int + 32
    ensures !('A' <= c <= 'Z') ==> r == c
  {
    if 'A' <= c <= 'Z' then (c as int + 32) as char else c
  }

  /** `s.toLowerCase()`, restricted to ASCII letters. */
  function Lower(s: string): (r: string)
    ensures |r| == |s|
    ensures forall i :: 0 <= i < |s| ==> r[i] == LowerChar(s[i])
    ensures forall i :: 0 <= i < |r| ==> !('A' <= r[i] <= 'Z')
  {
    seq(|s|, i requires 0 <= i < |s| => LowerChar(s[i]))
  }

  /** `p` occurs in `s` starting at index `k`. */
  predicate ContainsAt(s: string, p: string, k: int)
  {
    0 <= k <= |s| - |p| && s[k..k + |p|] == p
  }

  /** `s.includes(p)`. */
  predicate Contains(s: string, p: string)
  {
    exists k | 0 <= k <= |s| - |p| :: ContainsAt(s, p, k)
  }

  /** A text made of `a`, then `p`, then `b` contains `p`. */
  lemma Surrounded(s: string, a: string, p: string, b: string)
    requires s == a + p + b
    ensures Contains(s, p)
  {
    assert s[|a|..|a| + |p|] == p;
    assert ContainsAt(s, p, |a|);
  }

  /** A text in which the letters `p[j]` and `p[j + 1]` never stand side by side does not contain `p`. */
  lemma NoPair(s: string, p: string, j: nat)
    requires j + 1 < |p|
    requires forall k :: 0 <= k < |s| - 1 ==> s[k] != p[j] || s[k + 1] != p[j + 1]
    ensures !Contains(s, p)
  {
    forall k | 0 <= k <= |s| - |p|
      ensures !ContainsAt(s, p, k)
    {
      assert s[k..k + |p|][j] == s[k + j];
      assert s[k..k + |p|][j + 1] == s[k + j + 1];
    }
  }

  /** A text that lacks one letter of `p` does not contain `p`. */
  lemma NoLetter(s: string, p: string, i: nat)
    requires i < |p|
    requires p[i] !in s
    ensures !Contains(s, p)
  {
    forall k | 0 <= k <= |s| - |p|
      ensures !ContainsAt(s, p, k)
    {
      assert s[k..k + |p|][i] == s[k + i];
    }
  }

  lemma LowerConcat(a: string, b: string)
    ensures Lower(a + b) == Lower(a) + Lower(b)
  {
  }

  /** A text made of `a`, then a word `w` that lower-cases to `p`, then `b`, contains `p` once lower-cased. */
  lemma FoundLower(s: string, a: string, w: string, b: string, p: string)
    requires s == a + w + b && Lower(w) == p
    ensures Contains(Lower(s), p)
  {
    LowerConcat(a + w, b);
    LowerConcat(a, w);
    Surrounded(Lower(s), Lower(a), p, Lower(b));
  }

  /** Once lower-cased, `s` has none of the characters in `letters`. */
  predicate LacksLetters(s: string, letters: string)
  {
    forall k :: 0 <= k < |s| ==> LowerChar(s[k]) !in letters
  }

  /** Once lower-cased, `s` never has `x` directly followed by `y`. */
  predicate LacksPair(s: string, x: char, y: char)
  {
    forall k :: 0 <= k < |s| - 1 ==> !(LowerChar(s[k]) == x && LowerChar(s[k + 1]) == y)
  }

  lemma MissingLetter(s: string, letters: string, p: string, i: nat)
    requires LacksLetters(s, letters) && i < |p| && p[i] in letters
    ensures !Contains(Lower(s), p)
  {
    NoLetter(Lower(s), p, i);
  }

  lemma MissingPair(s: string, x: char, y: char, p: string, j: nat)
    requires LacksPair(s, x, y) && j + 1 < |p| && p[j] == x && p[j + 1] == y
    ensures !Contains(Lower(s), p)
  {
    NoPair(Lower(s), p, j);
  }
}
