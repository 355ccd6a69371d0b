/** `impl_struct_ops_opaque!` (src/internal/ops.rs), expanded for RGB, GRB and
    Gray: channel-wise `+`, `-` and `*` between two pixels, their in-place
    forms and `Sum`. Channels are unbounded integers: the overflow behaviour
    of the source's fixed-width scalars is not modelled. A `*self` that an
    in-place operator overwrites is a slot of an array. */
module StructOpsOpaque {
  import opened Pixels
  import opened Fold

  // ---- RGB ----
  /** `px + px`: each channel from the matching channels only. */
  function RgbAdd(p: RGB<int>, q: RGB<int>): (s: RGB<int>)
    ensures forall k | 0 <= k < 3 :: RgbChannels(s)[k] == RgbChannels(p)[k] + RgbChannels(q)[k]
  {
    RGB(p.r + q.r, p.g + q.g, p.b + q.b)
  }

  /** `px - px`: each channel from the matching channels only. */
  function RgbSub(p: RGB<int>, q: RGB<int>): (s: RGB<int>)
    ensures forall k | 0 <= k < 3 :: RgbChannels(s)[k] == RgbChannels(p)[k] - RgbChannels(q)[k]
  {
    RGB(p.r - q.r, p.g - q.g, p.b - q.b)
  }

  /** `px * px`: each channel from the matching channels only. */
  function RgbMul(p: RGB<int>, q: RGB<int>): (s: RGB<int>)
    ensures forall k | 0 <= k < 3 :: RgbChannels(s)[k] == RgbChannels(p)[k] * RgbChannels(q)[k]
  {
    RGB(p.r * q.r, p.g * q.g, p.b * q.b)
  }

  /** `px + px=` in place: `*self = self + other`. */
  method RgbAddAssign(a: array<RGB<int>>, i: nat, other: RGB<int>)
    requires i < a.Length
    modifies a
    ensures a[i] == RgbAdd(old(a[i]), other)
    ensures forall j | 0 <= j < a.Length && j != i :: a[j] == old(a[j])
  {
    a[i] := RGB(a[i].r + other.r, a[i].g + other.g, a[i].b + other.b);
  }

  /** `px - px=` in place: `*self = self - other`. */
  method RgbSubAssign(a: array<RGB<int>>, i: nat, other: RGB<int>)
    requires i < a.Length
    modifies a
    ensures a[i] == RgbSub(old(a[i]), other)
    ensures forall j | 0 <= j < a.Length && j != i :: a[j] == old(a[j])
  {
    a[i] := RGB(a[i].r - other.r, a[i].g - other.g, a[i].b - other.b);
  }

  /** `px * px=` in place: `*self = self * other`. */
  method RgbMulAssign(a: array<RGB<int>>, i: nat, other: RGB<int>)
    requires i < a.Length
    modifies a
    ensures a[i] == RgbMul(old(a[i]), other)
    ensures forall j | 0 <= j < a.Length && j != i :: a[j] == old(a[j])
  {
    a[i] := RGB(a[i].r * other.r, a[i].g * other.g, a[i].b * other.b);
  }

  /** `Sum`: a left fold with `+` from the all-zero default. */
  function RgbSum(ps: seq<RGB<int>>): (s: RGB<int>)
    ensures ps == [] ==> s == RgbDefault(0)
    ensures |ps| == 1 ==> s == ps[0]
  {
    FoldLeft(RgbDefault(0), ps, RgbAdd)
  }

  /** Two pixels sum to `(default + p) + q`, which is `p + q`. */
  lemma RgbSumPair(p: RGB<int>, q: RGB<int>)
    ensures RgbSum([p, q]) == RgbAdd(RgbAdd(RgbDefault(0), p), q) == RgbAdd(p, q)
  {
    assert [p, q][1..] == [q];
  }

  /** The sum of a concatenation is the sum of the sums of its parts. */
  lemma RgbSumConcat(ps: seq<RGB<int>>, qs: seq<RGB<int>>)
    ensures RgbSum(ps + qs) == RgbAdd(RgbSum(ps), RgbSum(qs))
  {
    assert Monoid(RgbAdd, RgbDefault(0));
    FoldLeftConcat(ps, qs, RgbAdd, RgbDefault(0));
  }

  // ---- GRB ----
  /** `px + px`: each channel from the matching channels only. */
  function GrbAdd(p: GRB<int>, q: GRB<int>): (s: GRB<int>)
    ensures forall k | 0 <= k < 3 :: GrbChannels(s)[k] == GrbChannels(p)[k] + GrbChannels(q)[k]
  {
    GRB(p.g + q.g, p.r + q.r, p.b + q.b)
  }

  /** `px - px`: each channel from the matching channels only. */
  function GrbSub(p: GRB<int>, q: GRB<int>): (s: GRB<int>)
    ensures forall k | 0 <= k < 3 :: GrbChannels(s)[k] == GrbChannels(p)[k] - GrbChannels(q)[k]
  {
    GRB(p.g - q.g, p.r - q.r, p.b - q.b)
  }

  /** `px * px`: each channel from the matching channels only. */
  function GrbMul(p: GRB<int>, q: GRB<int>): (s: GRB<int>)
    ensures forall k | 0 <= k < 3 :: GrbChannels(s)[k] == GrbChannels(p)[k] * GrbChannels(q)[k]
  {
    GRB(p.g * q.g, p.r * q.r, p.b * q.b)
  }

  /** `px + px=` in place: `*self = self + other`. */
  method GrbAddAssign(a: array<GRB<int>>, i: nat, other: GRB<int>)
    requires i < a.Length
    modifies a
    ensures a[i] == GrbAdd(old(a[i]), other)
    ensures forall j | 0 <= j < a.Length && j != i :: a[j] == old(a[j])
  {
    a[i] := GRB(a[i].g + other.g, a[i].r + other.r, a[i].b + other.b);
  }

  /** `px - px=` in place: `*self = self - other`. */
  method GrbSubAssign(a: array<GRB<int>>, i: nat, other: GRB<int>)
    requires i < a.Length
    modifies a
    ensures a[i] == GrbSub(old(a[i]), other)
    ensures forall j | 0 <= j < a.Length && j != i :: a[j] == old(a[j])
  {
    a[i] := GRB(a[i].g - other.g, a[i].r - other.r, a[i].b - other.b);
  }

  /** `px * px=` in place: `*self = self * other`. */
  method GrbMulAssign(a: array<GRB<int>>, i: nat, other: GRB<int>)
    requires i < a.Length
    modifies a
    ensures a[i] == GrbMul(old(a[i]), other)
    ensures forall j | 0 <= j < a.Length && j != i :: a[j] == old(a[j])
  {
    a[i] := GRB(a[i].g * other.g, a[i].r * other.r, a[i].b * other.b);
  }

  /** `Sum`: a left fold with `+` from the all-zero default. */
  function GrbSum(ps: seq<GRB<int>>): (s: GRB<int>)
    ensures ps == [] ==> s == GrbDefault(0)
    ensures |ps| == 1 ==> s == ps[0]
  {
    FoldLeft(GrbDefault(0), ps, GrbAdd)
  }

  /** Two pixels sum to `(default + p) + q`, which is `p + q`. */
  lemma GrbSumPair(p: GRB<int>, q: GRB<int>)
    ensures GrbSum([p, q]) == GrbAdd(GrbAdd(GrbDefault(0), p), q) == GrbAdd(p, q)
  {
    assert [p, q][1..] == [q];
  }

  /** The sum of a concatenation is the sum of the sums of its parts. */
  lemma GrbSumConcat(ps: seq<GRB<int>>, qs: seq<GRB<int>>)
    ensures GrbSum(ps + qs) == GrbAdd(GrbSum(ps), GrbSum(qs))
  {
    assert Monoid(GrbAdd, GrbDefault(0));
    FoldLeftConcat(ps, qs, GrbAdd, GrbDefault(0));
  }

  // ---- Gray ----
  /** `px + px`: each channel from the matching channels only. */
  function GrayAdd(p: Gray<int>, q: Gray<int>): (s: Gray<int>)
    ensures forall k | 0 <= k < 1 :: GrayChannels(s)[k] == GrayChannels(p)[k] + GrayChannels(q)[k]
  {
    Gray(p.v + q.v)
  }

  /** `px - px`: each channel from the matching channels only. */
  function GraySub(p: Gray<int>, q: Gray<int>): (s: Gray<int>)
    ensures forall k | 0 <= k < 1 :: GrayChannels(s)[k] == GrayChannels(p)[k] - GrayChannels(q)[k]
  {
    Gray(p.v - q.v)
  }

  /** `px * px`: each channel from the matching channels only. */
  function GrayMul(p: Gray<int>, q: Gray<int>): (s: Gray<int>)
    ensures forall k | 0 <= k < 1 :: GrayChannels(s)[k] == GrayChannels(p)[k] * GrayChannels(q)[k]
  {
    Gray(p.v * q.v)
  }

  /** `px + px=` in place: `*self = self + other`. */
  method GrayAddAssign(a: array<Gray<int>>, i: nat, other: Gray<int>)
    requires i < a.Length
    modifies a
    ensures a[i] == GrayAdd(old(a[i]), other)
    ensures forall j | 0 <= j < a.Length && j != i :: a[j] == old(a[j])
  {
    a[i] := Gray(a[i].v + other.v);
  }

  /** `px - px=` in place: `*self = self - other`. */
  method GraySubAssign(a: array<Gray<int>>, i: nat, other: Gray<int>)
    requires i < a.Length
    modifies a
    ensures a[i] == GraySub(old(a[i]), other)
    ensures forall j | 0 <= j < a.Length && j != i :: a[j] == old(a[j])
  {
    a[i] := Gray(a[i].v - other.v);
  }

  /** `px * px=` in place: `*self = self * other`. */
  method GrayMulAssign(a: array<Gray<int>>, i: nat, other: Gray<int>)
    requires i < a.Length
    modifies a
    ensures a[i] == GrayMul(old(a[i]), other)
    ensures forall j | 0 <= j < a.Length && j != i :: a[j] == old(a[j])
  {
    a[i] := Gray(a[i].v * other.v);
  }

  /** `Sum`: a left fold with `+` from the all-zero default. */
  function GraySum(ps: seq<Gray<int>>): (s: Gray<int>)
    ensures ps == [] ==> s == GrayDefault(0)
    ensures |ps| == 1 ==> s == ps[0]
  {
    FoldLeft(GrayDefault(0), ps, GrayAdd)
  }

  /** Two pixels sum to `(default + p) + q`, which is `p + q`. */
  lemma GraySumPair(p: Gray<int>, q: Gray<int>)
    ensures GraySum([p, q]) == GrayAdd(GrayAdd(GrayDefault(0), p), q) == GrayAdd(p, q)
  {
    assert [p, q][1..] == [q];
  }

  /** The sum of a concatenation is the sum of the sums of its parts. */
  lemma GraySumConcat(ps: seq<Gray<int>>, qs: seq<Gray<int>>)
    ensures GraySum(ps + qs) == GrayAdd(GraySum(ps), GraySum(qs))
  {
    assert Monoid(GrayAdd, GrayDefault(0));
    FoldLeftConcat(ps, qs, GrayAdd, GrayDefault(0));
  }

  /** `Gray(5) + Gray(3) == Gray(8)`. */
  lemma GrayAddExample()
    ensures GrayAdd(Gray(5), Gray(3)) == Gray(8)
  {
  }
}
