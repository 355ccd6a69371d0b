/** `impl_scalar!` (src/internal/ops.rs), expanded for RGB, RGBA, ARGB, GRB,
    Gray and GrayAlpha: a pixel combined with one scalar `r` by `-`, `+`, `*`
    or `/`, every channel alike (alpha included) through the record's `map`,
    and the in-place forms. BGR and BGRA get none of these. Channels are
    unbounded integers. */
module ScalarOps {
  import opened Pixels
  import opened ComponentMap

  function Abs(x: int): nat {
    if x < 0 then -x else x
  }

  /** Euclidean division of naturals stays natural. */
  lemma QuotientOfNaturals(a: nat, b: nat)
    requires b > 0
    ensures a / b >= 0
  {
  }

  /** The integer `/` of the source language: the quotient truncated toward
      zero, unlike Dafny's Euclidean `/`. For the unsigned channel types the two
      agree. Division by zero panics in the source; it is excluded here. */
  function TruncDiv(x: int, d: int): (q: int)
    requires d != 0
    ensures Abs(q) == Abs(x) / Abs(d)
    ensures q != 0 ==> (q < 0 <==> (x < 0) != (d < 0))
    ensures 0 <= x && 0 < d ==> q == x / d
  {
    var m := Abs(x) / Abs(d);
    QuotientOfNaturals(Abs(x), Abs(d));
    if (x < 0) != (d < 0) then -m else m
  }

  // ---- RGB ----

  /** `px - r`: the scalar operation on every channel, through `map`. */
  function RgbSubScalar(p: RGB<int>, r: int): (s: RGB<int>)
    ensures forall k | 0 <= k < 3 :: RgbChannels(s)[k] == RgbChannels(p)[k] - r
  {
    RgbMap(p, l => l - r)
  }

  /** `px - r=` in place: `*self = self.map(...)`. */
  method RgbSubAssignScalar(a: array<RGB<int>>, i: nat, r: int)
    requires i < a.Length
    modifies a
    ensures a[i] == RgbSubScalar(old(a[i]), r)
    ensures forall j | 0 <= j < a.Length && j != i :: a[j] == old(a[j])
  {
    a[i] := RgbMap(a[i], l => l - r);
  }

  /** `px + r`: the scalar operation on every channel, through `map`. */
  function RgbAddScalar(p: RGB<int>, r: int): (s: RGB<int>)
    ensures forall k | 0 <= k < 3 :: RgbChannels(s)[k] == RgbChannels(p)[k] + r
  {
    RgbMap(p, l => l + r)
  }

  /** `px + r=` in place: `*self = self.map(...)`. */
  method RgbAddAssignScalar(a: array<RGB<int>>, i: nat, r: int)
    requires i < a.Length
    modifies a
    ensures a[i] == RgbAddScalar(old(a[i]), r)
    ensures forall j | 0 <= j < a.Length && j != i :: a[j] == old(a[j])
  {
    a[i] := RgbMap(a[i], l => l + r);
  }

  /** `px * r`: the scalar operation on every channel, through `map`. */
  function RgbMulScalar(p: RGB<int>, r: int): (s: RGB<int>)
    ensures forall k | 0 <= k < 3 :: RgbChannels(s)[k] == RgbChannels(p)[k] * r
  {
    RgbMap(p, l => l * r)
  }

  /** `px * r=` in place: `*self = self.map(...)`. */
  method RgbMulAssignScalar(a: array<RGB<int>>, i: nat, r: int)
    requires i < a.Length
    modifies a
    ensures a[i] == RgbMulScalar(old(a[i]), r)
    ensures forall j | 0 <= j < a.Length && j != i :: a[j] == old(a[j])
  {
    a[i] := RgbMap(a[i], l => l * r);
  }

  /** `px / r`: the scalar operation on every channel, through `map`. */
  function RgbDivScalar(p: RGB<int>, r: int): (s: RGB<int>)
    requires r != 0
    ensures forall k | 0 <= k < 3 :: RgbChannels(s)[k] == TruncDiv(RgbChannels(p)[k], r)
  {
    RgbMap(p, l requires r != 0 => TruncDiv(l, r))
  }

  /** `px / r=` in place: `*self = self.map(...)`. */
  method RgbDivAssignScalar(a: array<RGB<int>>, i: nat, r: int)
    requires i < a.Length
    requires r != 0
    modifies a
    ensures a[i] == RgbDivScalar(old(a[i]), r)
    ensures forall j | 0 <= j < a.Length && j != i :: a[j] == old(a[j])
  {
    a[i] := RgbMap(a[i], l requires r != 0 => TruncDiv(l, r));
  }

  // ---- RGBA ----

  /** `px - r`: the scalar operation on every channel, through `map`. */
  function RgbaSubScalar(p: RGBA<int, int>, r: int): (s: RGBA<int, int>)
    ensures forall k | 0 <= k < 4 :: RgbaChannels(s)[k] == RgbaChannels(p)[k] - r
  {
    RgbaMap(p, l => l - r)
  }

  /** `px - r=` in place: `*self = self.map(...)`. */
  method RgbaSubAssignScalar(a: array<RGBA<int, int>>, i: nat, r: int)
    requires i < a.Length
    modifies a
    ensures a[i] == RgbaSubScalar(old(a[i]), r)
    ensures forall j | 0 <= j < a.Length && j != i :: a[j] == old(a[j])
  {
    a[i] := RgbaMap(a[i], l => l - r);
  }

  /** `px + r`: the scalar operation on every channel, through `map`. */
  function RgbaAddScalar(p: RGBA<int, int>, r: int): (s: RGBA<int, int>)
    ensures forall k | 0 <= k < 4 :: RgbaChannels(s)[k] == RgbaChannels(p)[k] + r
  {
    RgbaMap(p, l => l + r)
  }

  /** `px + r=` in place: `*self = self.map(...)`. */
  method RgbaAddAssignScalar(a: array<RGBA<int, int>>, i: nat, r: int)
    requires i < a.Length
    modifies a
    ensures a[i] == RgbaAddScalar(old(a[i]), r)
    ensures forall j | 0 <= j < a.Length && j != i :: a[j] == old(a[j])
  {
    a[i] := RgbaMap(a[i], l => l + r);
  }

  /** `px * r`: the scalar operation on every channel, through `map`. */
  function RgbaMulScalar(p: RGBA<int, int>, r: int): (s: RGBA<int, int>)
    ensures forall k | 0 <= k < 4 :: RgbaChannels(s)[k] == RgbaChannels(p)[k] * r
  {
    RgbaMap(p, l => l * r)
  }

  /** `px * r=` in place: `*self = self.map(...)`. */
  method RgbaMulAssignScalar(a: array<RGBA<int, int>>, i: nat, r: int)
    requires i < a.Length
    modifies a
    ensures a[i] == RgbaMulScalar(old(a[i]), r)
    ensures forall j | 0 <= j < a.Length && j != i :: a[j] == old(a[j])
  {
    a[i] := RgbaMap(a[i], l => l * r);
  }

  /** `px / r`: the scalar operation on every channel, through `map`. */
  function RgbaDivScalar(p: RGBA<int, int>, r: int): (s: RGBA<int, int>)
    requires r != 0
    ensures forall k | 0 <= k < 4 :: RgbaChannels(s)[k] == TruncDiv(RgbaChannels(p)[k], r)
  {
    RgbaMap(p, l requires r != 0 => TruncDiv(l, r))
  }

  /** `px / r=` in place: `*self = self.map(...)`. */
  method RgbaDivAssignScalar(a: array<RGBA<int, int>>, i: nat, r: int)
    requires i < a.Length
    requires r != 0
    modifies a
    ensures a[i] == RgbaDivScalar(old(a[i]), r)
    ensures forall j | 0 <= j < a.Length && j != i :: a[j] == old(a[j])
  {
    a[i] := RgbaMap(a[i], l requires r != 0 => TruncDiv(l, r));
  }

  // ---- ARGB ----

  /** `px - r`: the scalar operation on every channel, through `map`. */
  function ArgbSubScalar(p: ARGB<int, int>, r: int): (s: ARGB<int, int>)
    ensures forall k | 0 <= k < 4 :: ArgbChannels(s)[k] == ArgbChannels(p)[k] - r
  {
    ArgbMap(p, l => l - r)
  }

  /** `px - r=` in place: `*self = self.map(...)`. */
  method ArgbSubAssignScalar(a: array<ARGB<int, int>>, i: nat, r: int)
    requires i < a.Length
    modifies a
    ensures a[i] == ArgbSubScalar(old(a[i]), r)
    ensures forall j | 0 <= j < a.Length && j != i :: a[j] == old(a[j])
  {
    a[i] := ArgbMap(a[i], l => l - r);
  }

  /** `px + r`: the scalar operation on every channel, through `map`. */
  function ArgbAddScalar(p: ARGB<int, int>, r: int): (s: ARGB<int, int>)
    ensures forall k | 0 <= k < 4 :: ArgbChannels(s)[k] == ArgbChannels(p)[k] + r
  {
    ArgbMap(p, l => l + r)
  }

  /** `px + r=` in place: `*self = self.map(...)`. */
  method ArgbAddAssignScalar(a: array<ARGB<int, int>>, i: nat, r: int)
    requires i < a.Length
    modifies a
    ensures a[i] == ArgbAddScalar(old(a[i]), r)
    ensures forall j | 0 <= j < a.Length && j != i :: a[j] == old(a[j])
  {
    a[i] := ArgbMap(a[i], l => l + r);
  }

  /** `px * r`: the scalar operation on every channel, through `map`. */
  function ArgbMulScalar(p: ARGB<int, int>, r: int): (s: ARGB<int, int>)
    ensures forall k | 0 <= k < 4 :: ArgbChannels(s)[k] == ArgbChannels(p)[k] * r
  {
    ArgbMap(p, l => l * r)
  }

  /** `px * r=` in place: `*self = self.map(...)`. */
  method ArgbMulAssignScalar(a: array<ARGB<int, int>>, i: nat, r: int)
    requires i < a.Length
    modifies a
    ensures a[i] == ArgbMulScalar(old(a[i]), r)
    ensures forall j | 0 <= j < a.Length && j != i :: a[j] == old(a[j])
  {
    a[i] := ArgbMap(a[i], l => l * r);
  }

  /** `px / r`: the scalar operation on every channel, through `map`. */
  function ArgbDivScalar(p: ARGB<int, int>, r: int): (s: ARGB<int, int>)
    requires r != 0
    ensures forall k | 0 <= k < 4 :: ArgbChannels(s)[k] == TruncDiv(ArgbChannels(p)[k], r)
  {
    ArgbMap(p, l requires r != 0 => TruncDiv(l, r))
  }

  /** `px / r=` in place: `*self = self.map(...)`. */
  method ArgbDivAssignScalar(a: array<ARGB<int, int>>, i: nat, r: int)
    requires i < a.Length
    requires r != 0
    modifies a
    ensures a[i] == ArgbDivScalar(old(a[i]), r)
    ensures forall j | 0 <= j < a.Length && j != i :: a[j] == old(a[j])
  {
    a[i] := ArgbMap(a[i], l requires r != 0 => TruncDiv(l, r));
  }

  // ---- GRB ----

  /** `px - r`: the scalar operation on every channel, through `map`. */
  function GrbSubScalar(p: GRB<int>, r: int): (s: GRB<int>)
    ensures forall k | 0 <= k < 3 :: GrbChannels(s)[k] == GrbChannels(p)[k] - r
  {
    GrbMap(p, l => l - r)
  }

  /** `px - r=` in place: `*self = self.map(...)`. */
  method GrbSubAssignScalar(a: array<GRB<int>>, i: nat, r: int)
    requires i < a.Length
    modifies a
    ensures a[i] == GrbSubScalar(old(a[i]), r)
    ensures forall j | 0 <= j < a.Length && j != i :: a[j] == old(a[j])
  {
    a[i] := GrbMap(a[i], l => l - r);
  }

  /** `px + r`: the scalar operation on every channel, through `map`. */
  function GrbAddScalar(p: GRB<int>, r: int): (s: GRB<int>)
    ensures forall k | 0 <= k < 3 :: GrbChannels(s)[k] == GrbChannels(p)[k] + r
  {
    GrbMap(p, l => l + r)
  }

  /** `px + r=` in place: `*self = self.map(...)`. */
  method GrbAddAssignScalar(a: array<GRB<int>>, i: nat, r: int)
    requires i < a.Length
    modifies a
    ensures a[i] == GrbAddScalar(old(a[i]), r)
    ensures forall j | 0 <= j < a.Length && j != i :: a[j] == old(a[j])
  {
    a[i] := GrbMap(a[i], l => l + r);
  }

  /** `px * r`: the scalar operation on every channel, through `map`. */
  function GrbMulScalar(p: GRB<int>, r: int): (s: GRB<int>)
    ensures forall k | 0 <= k < 3 :: GrbChannels(s)[k] == GrbChannels(p)[k] * r
  {
    GrbMap(p, l => l * r)
  }

  /** `px * r=` in place: `*self = self.map(...)`. */
  method GrbMulAssignScalar(a: array<GRB<int>>, i: nat, r: int)
    requires i < a.Length
    modifies a
    ensures a[i] == GrbMulScalar(old(a[i]), r)
    ensures forall j | 0 <= j < a.Length && j != i :: a[j] == old(a[j])
  {
    a[i] := GrbMap(a[i], l => l * r);
  }

  /** `px / r`: the scalar operation on every channel, through `map`. */
  function GrbDivScalar(p: GRB<int>, r: int): (s: GRB<int>)
    requires r != 0
    ensures forall k | 0 <= k < 3 :: GrbChannels(s)[k] == TruncDiv(GrbChannels(p)[k], r)
  {
    GrbMap(p, l requires r != 0 => TruncDiv(l, r))
  }

  /** `px / r=` in place: `*self = self.map(...)`. */
  method GrbDivAssignScalar(a: array<GRB<int>>, i: nat, r: int)
    requires i < a.Length
    requires r != 0
    modifies a
    ensures a[i] == GrbDivScalar(old(a[i]), r)
    ensures forall j | 0 <= j < a.Length && j != i :: a[j] == old(a[j])
  {
    a[i] := GrbMap(a[i], l requires r != 0 => TruncDiv(l, r));
  }

  // ---- Gray ----

  /** `px - r`: the scalar operation on every channel, through `map`. */
  function GraySubScalar(p: Gray<int>, r: int): (s: Gray<int>)
    ensures forall k | 0 <= k < 1 :: GrayChannels(s)[k] == GrayChannels(p)[k] - r
  {
    GrayMap(p, l => l - r)
  }

  /** `px - r=` in place: `*self = self.map(...)`. */
  method GraySubAssignScalar(a: array<Gray<int>>, i: nat, r: int)
    requires i < a.Length
    modifies a
    ensures a[i] == GraySubScalar(old(a[i]), r)
    ensures forall j | 0 <= j < a.Length && j != i :: a[j] == old(a[j])
  {
    a[i] := GrayMap(a[i], l => l - r);
  }

  /** `px + r`: the scalar operation on every channel, through `map`. */
  function GrayAddScalar(p: Gray<int>, r: int): (s: Gray<int>)
    ensures forall k | 0 <= k < 1 :: GrayChannels(s)[k] == GrayChannels(p)[k] + r
  {
    GrayMap(p, l => l + r)
  }

  /** `px + r=` in place: `*self = self.map(...)`. */
  method GrayAddAssignScalar(a: array<Gray<int>>, i: nat, r: int)
    requires i < a.Length
    modifies a
    ensures a[i] == GrayAddScalar(old(a[i]), r)
    ensures forall j | 0 <= j < a.Length && j != i :: a[j] == old(a[j])
  {
    a[i] := GrayMap(a[i], l => l + r);
  }

  /** `px * r`: the scalar operation on every channel, through `map`. */
  function GrayMulScalar(p: Gray<int>, r: int): (s: Gray<int>)
    ensures forall k | 0 <= k < 1 :: GrayChannels(s)[k] == GrayChannels(p)[k] * r
  {
    GrayMap(p, l => l * r)
  }

  /** `px * r=` in place: `*self = self.map(...)`. */
  method GrayMulAssignScalar(a: array<Gray<int>>, i: nat, r: int)
    requires i < a.Length
    modifies a
    ensures a[i] == GrayMulScalar(old(a[i]), r)
    ensures forall j | 0 <= j < a.Length && j != i :: a[j] == old(a[j])
  {
    a[i] := GrayMap(a[i], l => l * r);
  }

  /** `px / r`: the scalar operation on every channel, through `map`. */
  function GrayDivScalar(p: Gray<int>, r: int): (s: Gray<int>)
    requires r != 0
    ensures forall k | 0 <= k < 1 :: GrayChannels(s)[k] == TruncDiv(GrayChannels(p)[k], r)
  {
    GrayMap(p, l requires r != 0 => TruncDiv(l, r))
  }

  /** `px / r=` in place: `*self = self.map(...)`. */
  method GrayDivAssignScalar(a: array<Gray<int>>, i: nat, r: int)
    requires i < a.Length
    requires r != 0
    modifies a
    ensures a[i] == GrayDivScalar(old(a[i]), r)
    ensures forall j | 0 <= j < a.Length && j != i :: a[j] == old(a[j])
  {
    a[i] := GrayMap(a[i], l requires r != 0 => TruncDiv(l, r));
  }

  // ---- GrayAlpha ----

  /** `px - r`: the scalar operation on every channel, through `map`. */
  function GrayAlphaSubScalar(p: GrayAlpha<int, int>, r: int): (s: GrayAlpha<int, int>)
    ensures forall k | 0 <= k < 2 :: GrayAlphaChannels(s)[k] == GrayAlphaChannels(p)[k] - r
  {
    GrayAlphaMap(p, l => l - r)
  }

  /** `px - r=` in place: `*self = self.map(...)`. */
  method GrayAlphaSubAssignScalar(a: array<GrayAlpha<int, int>>, i: nat, r: int)
    requires i < a.Length
    modifies a
    ensures a[i] == GrayAlphaSubScalar(old(a[i]), r)
    ensures forall j | 0 <= j < a.Length && j != i :: a[j] == old(a[j])
  {
    a[i] := GrayAlphaMap(a[i], l => l - r);
  }

  /** `px + r`: the scalar operation on every channel, through `map`. */
  function GrayAlphaAddScalar(p: GrayAlpha<int, int>, r: int): (s: GrayAlpha<int, int>)
    ensures forall k | 0 <= k < 2 :: GrayAlphaChannels(s)[k] == GrayAlphaChannels(p)[k] + r
  {
    GrayAlphaMap(p, l => l + r)
  }

  /** `px + r=` in place: `*self = self.map(...)`. */
  method GrayAlphaAddAssignScalar(a: array<GrayAlpha<int, int>>, i: nat, r: int)
    requires i < a.Length
    modifies a
    ensures a[i] == GrayAlphaAddScalar(old(a[i]), r)
    ensures forall j | 0 <= j < a.Length && j != i :: a[j] == old(a[j])
  {
    a[i] := GrayAlphaMap(a[i], l => l + r);
  }

  /** `px * r`: the scalar operation on every channel, through `map`. */
  function GrayAlphaMulScalar(p: GrayAlpha<int, int>, r: int): (s: GrayAlpha<int, int>)
    ensures forall k | 0 <= k < 2 :: GrayAlphaChannels(s)[k] == GrayAlphaChannels(p)[k] * r
  {
    GrayAlphaMap(p, l => l * r)
  }

  /** `px * r=` in place: `*self = self.map(...)`. */
  method GrayAlphaMulAssignScalar(a: array<GrayAlpha<int, int>>, i: nat, r: int)
    requires i < a.Length
    modifies a
    ensures a[i] == GrayAlphaMulScalar(old(a[i]), r)
    ensures forall j | 0 <= j < a.Length && j != i :: a[j] == old(a[j])
  {
    a[i] := GrayAlphaMap(a[i], l => l * r);
  }

  /** `px / r`: the scalar operation on every channel, through `map`. */
  function GrayAlphaDivScalar(p: GrayAlpha<int, int>, r: int): (s: GrayAlpha<int, int>)
    requires r != 0
    ensures forall k | 0 <= k < 2 :: GrayAlphaChannels(s)[k] == TruncDiv(GrayAlphaChannels(p)[k], r)
  {
    GrayAlphaMap(p, l requires r != 0 => TruncDiv(l, r))
  }

  /** `px / r=` in place: `*self = self.map(...)`. */
  method GrayAlphaDivAssignScalar(a: array<GrayAlpha<int, int>>, i: nat, r: int)
    requires i < a.Length
    requires r != 0
    modifies a
    ensures a[i] == GrayAlphaDivScalar(old(a[i]), r)
    ensures forall j | 0 <= j < a.Length && j != i :: a[j] == old(a[j])
  {
    a[i] := GrayAlphaMap(a[i], l requires r != 0 => TruncDiv(l, r));
  }

  /** `GRB { g: 1, r: 2, b: 3 }.map(|c| c * 2) + 1` has g = 3, r = 5, b = 7. */
  lemma GrbMapThenAddScalar()
    ensures GrbAddScalar(GrbMap(GRB(1, 2, 3), c => c * 2), 1) == GRB(3, 5, 7)
  {
  }

  /** `Gray(5) - 1 == Gray(4)`. */
  lemma GraySubOne()
    ensures GraySubScalar(Gray(5), 1) == Gray(4)
  {
  }

  /** Division truncates toward zero: -7 / 2 is -3 (Dafny's `/` gives -4). */
  lemma DivTruncates()
    ensures RgbDivScalar(RGB(-7, 7, 6), 2) == RGB(-3, 3, 3)
  {
  }
}
