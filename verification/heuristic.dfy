/**
  The one decision primitive every sub-pixel choice of the magnifier is
  built from.
 */
module Heuristic {
  import opened Colors

  /** `isSameOrDiffLessThan(a, b, c)`: `a` and `b` are equal, or `a` is no
      farther from `b` than `c` is from `b`, and no farther from `b` than
      `c` is from `a`. */
  predicate IsSameOrDiffLessThan(a: Color, b: Color, c: Color)
  {
    Equal(a, b) || (Distance(a, b) <= Distance(c, b) && Distance(a, b) <= Distance(c, a))
  }

  /** Equal colours always pass the test, whatever the third colour. */
  lemma SamePasses(a: Color, b: Color, c: Color)
    requires Equal(a, b)
    ensures IsSameOrDiffLessThan(a, b, c)
  {
  }

  /** The test is symmetric in its first two arguments, because the
      distance is. */
  lemma {:induction false} Symmetric(a: Color, b: Color, c: Color)
    ensures IsSameOrDiffLessThan(a, b, c) <==> IsSameOrDiffLessThan(b, a, c)
  {
    EqualIsEquivalence(a, b, c);
    DistanceSymmetric(a, b);
  }

  /** When the reference colour `c` equals `b`, the test is plain colour
      equality of `a` and `b`. */
  lemma Degenerates(a: Color, b: Color, c: Color)
    requires Equal(b, c)
    ensures IsSameOrDiffLessThan(a, b, c) <==> Equal(a, b)
  {
    EqualIsEquivalence(c, b, a);
  }

  /** When `b` equals `c`, passing the test makes `a` equal to `c` as well. */
  lemma PassingJoinsClass(a: Color, b: Color, c: Color)
    requires Equal(b, c)
    requires IsSameOrDiffLessThan(a, b, c)
    ensures Equal(a, c)
  {
    Degenerates(a, b, c);
    EqualIsEquivalence(a, b, c);
  }
}
