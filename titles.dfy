/** Title comparison of the store: `String.Compare(a, b,
    StringComparison.OrdinalIgnoreCase) == 0`, which compares the two strings
    character by character after ordinal upper-casing. */
module Titles {

  /** Ordinal upper-casing of one character. Only the ASCII letters are
      mapped; the rest of Unicode's simple case mapping is not modelled. */
  function ToUpperOrdinal(c: char): (u: char)
    ensures !('a' <= u <= 'z')
    ensures !('a' <= c <= 'z') ==> u == c
    ensures 'a' <= c <= 'z' ==> u as int + 32 == c as int
  {
    if 'a' <= c <= 'z' then (c as int - 32) as char else c
  }

  /** The case-folded form of a title: every character upper-cased. */
  function Fold(s: string): (r: string)
    ensures |r| == |s|
    ensures forall i :: 0 <= i < |s| ==> r[i] == ToUpperOrdinal(s[i])
  {
    if s == [] then [] else [ToUpperOrdinal(s[0])] + Fold(s[1..])
  }

  /** Two titles that OrdinalIgnoreCase reports as equal. */
  predicate SameTitle(a: string, b: string): (r: bool)
    ensures r ==> |a| == |b|
  {
    Fold(a) == Fold(b)
  }

  /** Titles match exactly when they have the same length and agree position
      by position up to ASCII case. */
  lemma SameTitleCharwise(a: string, b: string)
    ensures SameTitle(a, b) <==>
      |a| == |b| && forall i :: 0 <= i < |a| ==> ToUpperOrdinal(a[i]) == ToUpperOrdinal(b[i])
  {
  }

  /** The title comparison is an equivalence: reflexive, symmetric, transitive. */
  lemma SameTitleIsEquivalence(a: string, b: string, c: string)
    ensures SameTitle(a, a)
    ensures SameTitle(a, b) ==> SameTitle(b, a)
    ensures SameTitle(a, b) && SameTitle(b, c) ==> SameTitle(a, c)
  {
  }

  /** Folding a folded title changes nothing, so every title matches its
      folded form. */
  lemma FoldIdempotent(s: string)
    ensures Fold(Fold(s)) == Fold(s)
    ensures SameTitle(s, Fold(s))
  {
  }

  /** Titles that differ only in letter case collide; titles of different
      lengths never do. */
  lemma SameTitleExamples()
    ensures SameTitle("Buy milk", "BUY MILK")
    ensures !SameTitle("Buy", "Buy milk")
  {
  }
}
