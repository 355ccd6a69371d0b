/** `Iterator::fold`, which the `Sum` implementations of
    src/internal/ops.rs use: start from an initial value and combine it with
    each element, left to right. */
module Fold {

  function FoldLeft<A, B>(init: A, s: seq<B>, f: (A, B) -> A): (r: A)
    ensures s == [] ==> r == init
    ensures |s| == 1 ==> r == f(init, s[0])
  {
    if s == [] then init else FoldLeft(f(init, s[0]), s[1..], f)
  }

  /** Folding a concatenation is folding the second part from where the first
      left off. */
  lemma {:induction false} FoldLeftAppend<A, B>(init: A, s: seq<B>, t: seq<B>, f: (A, B) -> A)
    ensures FoldLeft(init, s + t, f) == FoldLeft(FoldLeft(init, s, f), t, f)
  {
    if s != [] {
      assert (s + t)[1..] == s[1..] + t;
      FoldLeftAppend(f(init, s[0]), s[1..], t, f);
    } else {
      assert s + t == t;
    }
  }

  /** `f` is associative with two-sided identity `e`. */
  ghost predicate Monoid<A(!new)>(f: (A, A) -> A, e: A) {
    && (forall x, y, z :: f(f(x, y), z) == f(x, f(y, z)))
    && (forall x :: f(e, x) == x && f(x, e) == x)
  }

  /** Folding from any accumulator is combining it with the fold from the
      identity. */
  lemma {:induction false} FoldLeftFromAccumulator<A(!new)>(acc: A, s: seq<A>, f: (A, A) -> A, e: A)
    requires Monoid(f, e)
    ensures FoldLeft(acc, s, f) == f(acc, FoldLeft(e, s, f))
  {
    if s != [] {
      FoldLeftFromAccumulator(f(acc, s[0]), s[1..], f, e);
      FoldLeftFromAccumulator(s[0], s[1..], f, e);
      assert f(e, s[0]) == s[0];
    }
  }

  /** For a monoid, the fold of a concatenation combines the folds of the parts. */
  lemma FoldLeftConcat<A(!new)>(s: seq<A>, t: seq<A>, f: (A, A) -> A, e: A)
    requires Monoid(f, e)
    ensures FoldLeft(e, s + t, f) == f(FoldLeft(e, s, f), FoldLeft(e, t, f))
  {
    FoldLeftAppend(e, s, t, f);
    FoldLeftFromAccumulator(FoldLeft(e, s, f), t, f, e);
  }
}
