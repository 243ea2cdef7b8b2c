/**
 The string-prefix test the player uses to check a file's declared media type,
 with the same meaning as JavaScript's `String.prototype.startsWith` called
 without a position argument.
 */
module Prefix {

  /** True iff `s` begins with `p` (the empty prefix is a prefix of every string). */
  predicate StartsWith(s: string, p: string) {
    |p| <= |s| && s[..|p|] == p
  }

  /** `StartsWith` agrees with the algebraic notion of prefix: `s` is `p` followed by something. */
  lemma StartsWithIffConcat(s: string, p: string)
    ensures StartsWith(s, p) <==> exists rest: string :: s == p + rest
  {
    if StartsWith(s, p) {
      assert s == p + s[|p|..];
    }
    forall rest: string | s == p + rest
      ensures StartsWith(s, p)
    {
      assert s[..|p|] == p;
    }
  }

  /** Two non-empty prefixes whose first characters differ cannot both start the same string. */
  lemma DifferentHeadsExclude(s: string, p: string, q: string)
    requires |p| > 0 && |q| > 0 && p[0] != q[0]
    requires StartsWith(s, p)
    ensures !StartsWith(s, q)
  {
  }
}
