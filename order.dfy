/** The three-way comparison that `#[derive(Ord)]` builds from the fields of a
    record: compare field by field in declaration order, and the first field
    that is not equal decides. */
module Order {

  datatype Ordering = Less | Equal | Greater {

    /** `Ordering::then`: this result, unless it is `Equal`, in which case `next`. */
    function Then(next: Ordering): Ordering {
      if this == Equal then next else this
    }

    /** `Ordering::reverse`: the result of comparing the operands the other way round. */
    function Reverse(): Ordering {
      match this
      case Less => Greater
      case Equal => Equal
      case Greater => Less
    }
  }

  /** `then` chains associate, `Equal` is their identity on the right, a chain
      is `Equal` exactly when both links are, and reversing a chain reverses
      each link. */
  lemma ThenLaws(x: Ordering, y: Ordering, z: Ordering)
    ensures x.Then(y).Then(z) == x.Then(y.Then(z))
    ensures x.Then(Equal) == x
    ensures x.Then(y) == Equal <==> x == Equal && y == Equal
    ensures x.Then(y).Reverse() == x.Reverse().Then(y.Reverse())
  {
  }

  /** A scalar comparison that answers `Equal` exactly on equal values. */
  ghost predicate DecidesEquality<T(!new)>(cmp: (T, T) -> Ordering) {
    forall x, y :: cmp(x, y) == Equal <==> x == y
  }

  /** A scalar comparison that is antisymmetric: swapping the operands reverses it. */
  ghost predicate Antisymmetric<T(!new)>(cmp: (T, T) -> Ordering) {
    forall x, y :: cmp(y, x) == cmp(x, y).Reverse()
  }

  /** Lexicographic comparison of two equally long channel sequences. */
  function LexCmp<T>(s: seq<T>, t: seq<T>, cmp: (T, T) -> Ordering): Ordering
    requires |s| == |t|
  {
    if s == [] then Equal else cmp(s[0], t[0]).Then(LexCmp(s[1..], t[1..], cmp))
  }

  /** Two sequences compare `Equal` exactly when they are equal. */
  lemma {:induction false} LexCmpEqual<T(!new)>(s: seq<T>, t: seq<T>, cmp: (T, T) -> Ordering)
    requires |s| == |t|
    requires DecidesEquality(cmp)
    ensures LexCmp(s, t, cmp) == Equal <==> s == t
  {
    if s != [] {
      LexCmpEqual(s[1..], t[1..], cmp);
      assert s == [s[0]] + s[1..] && t == [t[0]] + t[1..];
    }
  }

  /** Comparing the other way round gives the reversed result. */
  lemma {:induction false} LexCmpReverse<T(!new)>(s: seq<T>, t: seq<T>, cmp: (T, T) -> Ordering)
    requires |s| == |t|
    requires Antisymmetric(cmp)
    ensures LexCmp(t, s, cmp) == LexCmp(s, t, cmp).Reverse()
  {
    if s != [] {
      LexCmpReverse(s[1..], t[1..], cmp);
    }
  }

  /** The first position where the sequences differ decides the comparison. */
  lemma {:induction false} LexCmpFirstDifference<T(!new)>(s: seq<T>, t: seq<T>, cmp: (T, T) -> Ordering, i: nat)
    requires |s| == |t| && i < |s|
    requires DecidesEquality(cmp)
    requires s[..i] == t[..i] && s[i] != t[i]
    ensures LexCmp(s, t, cmp) == cmp(s[i], t[i])
  {
    if i > 0 {
      assert s[0] == s[..i][0] && t[0] == t[..i][0];
      assert s[1..][..i - 1] == s[..i][1..];
      assert t[1..][..i - 1] == t[..i][1..];
      LexCmpFirstDifference(s[1..], t[1..], cmp, i - 1);
    }
  }
}
