/** `impl_struct_ops_alpha!` (src/internal/ops.rs), expanded for RGBA, ARGB
    and GrayAlpha: channel-wise `+` and `-` between two pixels, alpha
    included, their in-place forms and `Sum`. These records have no
    pixel-by-pixel `*`. */
module StructOpsAlpha {
  import opened Pixels
  import opened Fold

  // ---- RGBA ----
  /** `px + px`: each channel from the matching channels only. */
  function RgbaAdd(p: RGBA<int, int>, q: RGBA<int, int>): (s: RGBA<int, int>)
    ensures forall k | 0 <= k < 4 :: RgbaChannels(s)[k] == RgbaChannels(p)[k] + RgbaChannels(q)[k]
  {
    RGBA(p.r + q.r, p.g + q.g, p.b + q.b, p.a + q.a)
  }

  /** `px - px`: each channel from the matching channels only. */
  function RgbaSub(p: RGBA<int, int>, q: RGBA<int, int>): (s: RGBA<int, int>)
    ensures forall k | 0 <= k < 4 :: RgbaChannels(s)[k] == RgbaChannels(p)[k] - RgbaChannels(q)[k]
  {
    RGBA(p.r - q.r, p.g - q.g, p.b - q.b, p.a - q.a)
  }

  /** `px + px=` in place: `*self = self + other`. */
  method RgbaAddAssign(a: array<RGBA<int, int>>, i: nat, other: RGBA<int, int>)
    requires i < a.Length
    modifies a
    ensures a[i] == RgbaAdd(old(a[i]), other)
    ensures forall j | 0 <= j < a.Length && j != i :: a[j] == old(a[j])
  {
    a[i] := RGBA(a[i].r + other.r, a[i].g + other.g, a[i].b + other.b, a[i].a + other.a);
  }

  /** `px - px=` in place: `*self = self - other`. */
  method RgbaSubAssign(a: array<RGBA<int, int>>, i: nat, other: RGBA<int, int>)
    requires i < a.Length
    modifies a
    ensures a[i] == RgbaSub(old(a[i]), other)
    ensures forall j | 0 <= j < a.Length && j != i :: a[j] == old(a[j])
  {
    a[i] := RGBA(a[i].r - other.r, a[i].g - other.g, a[i].b - other.b, a[i].a - other.a);
  }

  /** `Sum`: a left fold with `+` from the all-zero default. */
  function RgbaSum(ps: seq<RGBA<int, int>>): (s: RGBA<int, int>)
    ensures ps == [] ==> s == RgbaDefault(0, 0)
    ensures |ps| == 1 ==> s == ps[0]
  {
    FoldLeft(RgbaDefault(0, 0), ps, RgbaAdd)
  }

  /** Two pixels sum to `(default + p) + q`, which is `p + q`. */
  lemma RgbaSumPair(p: RGBA<int, int>, q: RGBA<int, int>)
    ensures RgbaSum([p, q]) == RgbaAdd(RgbaAdd(RgbaDefault(0, 0), p), q) == RgbaAdd(p, q)
  {
    assert [p, q][1..] == [q];
  }

  /** The sum of a concatenation is the sum of the sums of its parts. */
  lemma RgbaSumConcat(ps: seq<RGBA<int, int>>, qs: seq<RGBA<int, int>>)
    ensures RgbaSum(ps + qs) == RgbaAdd(RgbaSum(ps), RgbaSum(qs))
  {
    assert Monoid(RgbaAdd, RgbaDefault(0, 0));
    FoldLeftConcat(ps, qs, RgbaAdd, RgbaDefault(0, 0));
  }

  // ---- ARGB ----
  /** `px + px`: each channel from the matching channels only. */
  function ArgbAdd(p: ARGB<int, int>, q: ARGB<int, int>): (s: ARGB<int, int>)
    ensures forall k | 0 <= k < 4 :: ArgbChannels(s)[k] == ArgbChannels(p)[k] + ArgbChannels(q)[k]
  {
    ARGB(p.a + q.a, p.r + q.r, p.g + q.g, p.b + q.b)
  }

  /** `px - px`: each channel from the matching channels only. */
  function ArgbSub(p: ARGB<int, int>, q: ARGB<int, int>): (s: ARGB<int, int>)
    ensures forall k | 0 <= k < 4 :: ArgbChannels(s)[k] == ArgbChannels(p)[k] - ArgbChannels(q)[k]
  {
    ARGB(p.a - q.a, p.r - q.r, p.g - q.g, p.b - q.b)
  }

  /** `px + px=` in place: `*self = self + other`. */
  method ArgbAddAssign(a: array<ARGB<int, int>>, i: nat, other: ARGB<int, int>)
    requires i < a.Length
    modifies a
    ensures a[i] == ArgbAdd(old(a[i]), other)
    ensures forall j | 0 <= j < a.Length && j != i :: a[j] == old(a[j])
  {
    a[i] := ARGB(a[i].a + other.a, a[i].r + other.r, a[i].g + other.g, a[i].b + other.b);
  }

  /** `px - px=` in place: `*self = self - other`. */
  method ArgbSubAssign(a: array<ARGB<int, int>>, i: nat, other: ARGB<int, int>)
    requires i < a.Length
    modifies a
    ensures a[i] == ArgbSub(old(a[i]), other)
    ensures forall j | 0 <= j < a.Length && j != i :: a[j] == old(a[j])
  {
    a[i] := ARGB(a[i].a - other.a, a[i].r - other.r, a[i].g - other.g, a[i].b - other.b);
  }

  /** `Sum`: a left fold with `+` from the all-zero default. */
  function ArgbSum(ps: seq<ARGB<int, int>>): (s: ARGB<int, int>)
    ensures ps == [] ==> s == ArgbDefault(0, 0)
    ensures |ps| == 1 ==> s == ps[0]
  {
    FoldLeft(ArgbDefault(0, 0), ps, ArgbAdd)
  }

  /** Two pixels sum to `(default + p) + q`, which is `p + q`. */
  lemma ArgbSumPair(p: ARGB<int, int>, q: ARGB<int, int>)
    ensures ArgbSum([p, q]) == ArgbAdd(ArgbAdd(ArgbDefault(0, 0), p), q) == ArgbAdd(p, q)
  {
    assert [p, q][1..] == [q];
  }

  /** The sum of a concatenation is the sum of the sums of its parts. */
  lemma ArgbSumConcat(ps: seq<ARGB<int, int>>, qs: seq<ARGB<int, int>>)
    ensures ArgbSum(ps + qs) == ArgbAdd(ArgbSum(ps), ArgbSum(qs))
  {
    assert Monoid(ArgbAdd, ArgbDefault(0, 0));
    FoldLeftConcat(ps, qs, ArgbAdd, ArgbDefault(0, 0));
  }

  // ---- GrayAlpha ----
  /** `px + px`: each channel from the matching channels only. */
  function GrayAlphaAdd(p: GrayAlpha<int, int>, q: GrayAlpha<int, int>): (s: GrayAlpha<int, int>)
    ensures forall k | 0 <= k < 2 :: GrayAlphaChannels(s)[k] == GrayAlphaChannels(p)[k] + GrayAlphaChannels(q)[k]
  {
    GrayAlpha(p.v + q.v, p.a + q.a)
  }

  /** `px - px`: each channel from the matching channels only. */
  function GrayAlphaSub(p: GrayAlpha<int, int>, q: GrayAlpha<int, int>): (s: GrayAlpha<int, int>)
    ensures forall k | 0 <= k < 2 :: GrayAlphaChannels(s)[k] == GrayAlphaChannels(p)[k] - GrayAlphaChannels(q)[k]
  {
    GrayAlpha(p.v - q.v, p.a - q.a)
  }

  /** `px + px=` in place: `*self = self + other`. */
  method GrayAlphaAddAssign(a: array<GrayAlpha<int, int>>, i: nat, other: GrayAlpha<int, int>)
    requires i < a.Length
    modifies a
    ensures a[i] == GrayAlphaAdd(old(a[i]), other)
    ensures forall j | 0 <= j < a.Length && j != i :: a[j] == old(a[j])
  {
    a[i] := GrayAlpha(a[i].v + other.v, a[i].a + other.a);
  }

  /** `px - px=` in place: `*self = self - other`. */
  method GrayAlphaSubAssign(a: array<GrayAlpha<int, int>>, i: nat, other: GrayAlpha<int, int>)
    requires i < a.Length
    modifies a
    ensures a[i] == GrayAlphaSub(old(a[i]), other)
    ensures forall j | 0 <= j < a.Length && j != i :: a[j] == old(a[j])
  {
    a[i] := GrayAlpha(a[i].v - other.v, a[i].a - other.a);
  }

  /** `Sum`: a left fold with `+` from the all-zero default. */
  function GrayAlphaSum(ps: seq<GrayAlpha<int, int>>): (s: GrayAlpha<int, int>)
    ensures ps == [] ==> s == GrayAlphaDefault(0, 0)
    ensures |ps| == 1 ==> s == ps[0]
  {
    FoldLeft(GrayAlphaDefault(0, 0), ps, GrayAlphaAdd)
  }

  /** Two pixels sum to `(default + p) + q`, which is `p + q`. */
  lemma GrayAlphaSumPair(p: GrayAlpha<int, int>, q: GrayAlpha<int, int>)
    ensures GrayAlphaSum([p, q]) == GrayAlphaAdd(GrayAlphaAdd(GrayAlphaDefault(0, 0), p), q) == GrayAlphaAdd(p, q)
  {
    assert [p, q][1..] == [q];
  }

  /** The sum of a concatenation is the sum of the sums of its parts. */
  lemma GrayAlphaSumConcat(ps: seq<GrayAlpha<int, int>>, qs: seq<GrayAlpha<int, int>>)
    ensures GrayAlphaSum(ps + qs) == GrayAlphaAdd(GrayAlphaSum(ps), GrayAlphaSum(qs))
  {
    assert Monoid(GrayAlphaAdd, GrayAlphaDefault(0, 0));
    FoldLeftConcat(ps, qs, GrayAlphaAdd, GrayAlphaDefault(0, 0));
  }
}
