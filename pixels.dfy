/** The pixel record types of the crate (src/lib.rs, src/alt.rs) and what their
    derives give them: the declaration-order channel list, `Default` and the
    lexicographic `Ord`. Every record is a plain value; alpha-bearing records
    take a separate alpha type `TA` (the source defaults it to `T`). */
module Pixels {
  import opened Order

  /** Unsigned scalar types of the 8- and 16-bit aliases. */
  newtype u8 = x: int | 0 <= x < 0x100
  newtype u16 = x: int | 0 <= x < 0x1_0000

  datatype RGB<T> = RGB(r: T, g: T, b: T)
  datatype RGBA<T, TA> = RGBA(r: T, g: T, b: T, a: TA)
  datatype BGR<T> = BGR(b: T, g: T, r: T)
  datatype BGRA<T, TA> = BGRA(b: T, g: T, r: T, a: TA)
  datatype ABGR<T, TA> = ABGR(a: TA, b: T, g: T, r: T)
  datatype ARGB<T, TA> = ARGB(a: TA, r: T, g: T, b: T)
  datatype GRB<T> = GRB(g: T, r: T, b: T)
  /** Brightness only (the source's tuple field `.0`). */
  datatype Gray<T> = Gray(v: T)
  /** Brightness and alpha (the source's tuple fields `.0` and `.1`). */
  datatype GrayAlpha<T, TA> = GrayAlpha(v: T, a: TA)

  type RGB8 = RGB<u8>
  type RGB16 = RGB<u16>
  type RGBA8 = RGBA<u8, u8>
  type RGBA16 = RGBA<u16, u16>
  type BGR8 = BGR<u8>
  type BGR16 = BGR<u16>
  type BGRA8 = BGRA<u8, u8>
  type BGRA16 = BGRA<u16, u16>
  type ABGR8 = ABGR<u8, u8>
  type ABGR16 = ABGR<u16, u16>
  type ARGB8 = ARGB<u8, u8>
  type ARGB16 = ARGB<u16, u16>
  type GRB8 = GRB<u8>
  type GRAY8 = Gray<u8>
  type GRAY16 = Gray<u16>
  type GRAYA8 = GrayAlpha<u8, u8>
  type GRAYA16 = GrayAlpha<u16, u16>

  // ---------------------------------------------------------------------------
  // Channels in field declaration order
  // ---------------------------------------------------------------------------

  function RgbChannels<T>(p: RGB<T>): (s: seq<T>)
    ensures |s| == 3
  {
    [p.r, p.g, p.b]
  }

  function BgrChannels<T>(p: BGR<T>): (s: seq<T>)
    ensures |s| == 3
  {
    [p.b, p.g, p.r]
  }

  function GrbChannels<T>(p: GRB<T>): (s: seq<T>)
    ensures |s| == 3
  {
    [p.g, p.r, p.b]
  }

  function GrayChannels<T>(p: Gray<T>): (s: seq<T>)
    ensures |s| == 1
  {
    [p.v]
  }

  /** The colour channels of an alpha-bearing record, in declaration order;
      defined whatever the alpha type is. They are laid out exactly as the
      alpha-less record with the same colour order. */
  function RgbaColors<T, TA>(p: RGBA<T, TA>): (s: seq<T>)
    ensures s == RgbChannels(RGB(p.r, p.g, p.b))
  {
    [p.r, p.g, p.b]
  }

  function BgraColors<T, TA>(p: BGRA<T, TA>): (s: seq<T>)
    ensures s == BgrChannels(BGR(p.b, p.g, p.r))
  {
    [p.b, p.g, p.r]
  }

  function ArgbColors<T, TA>(p: ARGB<T, TA>): (s: seq<T>)
    ensures s == RgbaColors(RGBA(p.r, p.g, p.b, p.a))
  {
    [p.r, p.g, p.b]
  }

  function AbgrColors<T, TA>(p: ABGR<T, TA>): (s: seq<T>)
    ensures s == BgraColors(BGRA(p.b, p.g, p.r, p.a))
  {
    [p.b, p.g, p.r]
  }

  /** All channels of a record whose alpha has the colour type: the colours,
      with alpha last or first as declared. */
  function RgbaChannels<T>(p: RGBA<T, T>): (s: seq<T>)
    ensures s == RgbaColors(p) + [p.a]
  {
    [p.r, p.g, p.b, p.a]
  }

  function BgraChannels<T>(p: BGRA<T, T>): (s: seq<T>)
    ensures s == BgraColors(p) + [p.a]
  {
    [p.b, p.g, p.r, p.a]
  }

  function ArgbChannels<T>(p: ARGB<T, T>): (s: seq<T>)
    ensures s == [p.a] + ArgbColors(p)
  {
    [p.a, p.r, p.g, p.b]
  }

  function AbgrChannels<T>(p: ABGR<T, T>): (s: seq<T>)
    ensures s == [p.a] + AbgrColors(p)
  {
    [p.a, p.b, p.g, p.r]
  }

  function GrayAlphaChannels<T>(p: GrayAlpha<T, T>): (s: seq<T>)
    ensures s == GrayChannels(Gray(p.v)) + [p.a]
  {
    [p.v, p.a]
  }

  /** Structural equality: two RGB pixels are equal exactly when their channel
      lists are. */
  lemma RgbEqualIffChannels<T>(p: RGB<T>, q: RGB<T>)
    ensures p == q <==> RgbChannels(p) == RgbChannels(q)
  {
    if RgbChannels(p) == RgbChannels(q) {
      assert RgbChannels(p)[0] == RgbChannels(q)[0];
      assert RgbChannels(p)[1] == RgbChannels(q)[1];
      assert RgbChannels(p)[2] == RgbChannels(q)[2];
    }
  }

  lemma RgbaEqualIffChannels<T>(p: RGBA<T, T>, q: RGBA<T, T>)
    ensures p == q <==> RgbaChannels(p) == RgbaChannels(q)
  {
    if RgbaChannels(p) == RgbaChannels(q) {
      assert RgbaChannels(p)[0] == RgbaChannels(q)[0];
      assert RgbaChannels(p)[1] == RgbaChannels(q)[1];
      assert RgbaChannels(p)[2] == RgbaChannels(q)[2];
      assert RgbaChannels(p)[3] == RgbaChannels(q)[3];
    }
  }

  lemma BgrEqualIffChannels<T>(p: BGR<T>, q: BGR<T>)
    ensures p == q <==> BgrChannels(p) == BgrChannels(q)
  {
    if BgrChannels(p) == BgrChannels(q) {
      assert BgrChannels(p)[0] == BgrChannels(q)[0];
      assert BgrChannels(p)[1] == BgrChannels(q)[1];
      assert BgrChannels(p)[2] == BgrChannels(q)[2];
    }
  }

  lemma BgraEqualIffChannels<T>(p: BGRA<T, T>, q: BGRA<T, T>)
    ensures p == q <==> BgraChannels(p) == BgraChannels(q)
  {
    if BgraChannels(p) == BgraChannels(q) {
      assert BgraChannels(p)[0] == BgraChannels(q)[0];
      assert BgraChannels(p)[1] == BgraChannels(q)[1];
      assert BgraChannels(p)[2] == BgraChannels(q)[2];
      assert BgraChannels(p)[3] == BgraChannels(q)[3];
    }
  }

  lemma AbgrEqualIffChannels<T>(p: ABGR<T, T>, q: ABGR<T, T>)
    ensures p == q <==> AbgrChannels(p) == AbgrChannels(q)
  {
    if AbgrChannels(p) == AbgrChannels(q) {
      assert AbgrChannels(p)[0] == AbgrChannels(q)[0];
      assert AbgrChannels(p)[1] == AbgrChannels(q)[1];
      assert AbgrChannels(p)[2] == AbgrChannels(q)[2];
      assert AbgrChannels(p)[3] == AbgrChannels(q)[3];
    }
  }

  lemma ArgbEqualIffChannels<T>(p: ARGB<T, T>, q: ARGB<T, T>)
    ensures p == q <==> ArgbChannels(p) == ArgbChannels(q)
  {
    if ArgbChannels(p) == ArgbChannels(q) {
      assert ArgbChannels(p)[0] == ArgbChannels(q)[0];
      assert ArgbChannels(p)[1] == ArgbChannels(q)[1];
      assert ArgbChannels(p)[2] == ArgbChannels(q)[2];
      assert ArgbChannels(p)[3] == ArgbChannels(q)[3];
    }
  }

  lemma GrbEqualIffChannels<T>(p: GRB<T>, q: GRB<T>)
    ensures p == q <==> GrbChannels(p) == GrbChannels(q)
  {
    if GrbChannels(p) == GrbChannels(q) {
      assert GrbChannels(p)[0] == GrbChannels(q)[0];
      assert GrbChannels(p)[1] == GrbChannels(q)[1];
      assert GrbChannels(p)[2] == GrbChannels(q)[2];
    }
  }

  lemma GrayEqualIffChannels<T>(p: Gray<T>, q: Gray<T>)
    ensures p == q <==> GrayChannels(p) == GrayChannels(q)
  {
    if GrayChannels(p) == GrayChannels(q) {
      assert GrayChannels(p)[0] == GrayChannels(q)[0];
    }
  }

  lemma GrayAlphaEqualIffChannels<T>(p: GrayAlpha<T, T>, q: GrayAlpha<T, T>)
    ensures p == q <==> GrayAlphaChannels(p) == GrayAlphaChannels(q)
  {
    if GrayAlphaChannels(p) == GrayAlphaChannels(q) {
      assert GrayAlphaChannels(p)[0] == GrayAlphaChannels(q)[0];
      assert GrayAlphaChannels(p)[1] == GrayAlphaChannels(q)[1];
    }
  }

  // ---------------------------------------------------------------------------
  // #[derive(Default)]: every channel is the scalar's default
  // ---------------------------------------------------------------------------

  function RgbDefault<T>(zero: T): (p: RGB<T>)
    ensures RgbChannels(p) == [zero, zero, zero]
  {
    RGB(zero, zero, zero)
  }

  function RgbaDefault<T, TA>(zero: T, zeroAlpha: TA): (p: RGBA<T, TA>)
    ensures RgbaColors(p) == [zero, zero, zero] && p.a == zeroAlpha
  {
    RGBA(zero, zero, zero, zeroAlpha)
  }

  function BgrDefault<T>(zero: T): (p: BGR<T>)
    ensures BgrChannels(p) == [zero, zero, zero]
  {
    BGR(zero, zero, zero)
  }

  function BgraDefault<T, TA>(zero: T, zeroAlpha: TA): (p: BGRA<T, TA>)
    ensures BgraColors(p) == [zero, zero, zero] && p.a == zeroAlpha
  {
    BGRA(zero, zero, zero, zeroAlpha)
  }

  function AbgrDefault<T, TA>(zero: T, zeroAlpha: TA): (p: ABGR<T, TA>)
    ensures AbgrColors(p) == [zero, zero, zero] && p.a == zeroAlpha
  {
    ABGR(zeroAlpha, zero, zero, zero)
  }

  function ArgbDefault<T, TA>(zero: T, zeroAlpha: TA): (p: ARGB<T, TA>)
    ensures ArgbColors(p) == [zero, zero, zero] && p.a == zeroAlpha
  {
    ARGB(zeroAlpha, zero, zero, zero)
  }

  function GrbDefault<T>(zero: T): (p: GRB<T>)
    ensures GrbChannels(p) == [zero, zero, zero]
  {
    GRB(zero, zero, zero)
  }

  function GrayDefault<T>(zero: T): (p: Gray<T>)
    ensures GrayChannels(p) == [zero]
  {
    Gray(zero)
  }

  function GrayAlphaDefault<T, TA>(zero: T, zeroAlpha: TA): (p: GrayAlpha<T, TA>)
    ensures GrayChannels(Gray(p.v)) == [zero] && p.a == zeroAlpha
  {
    GrayAlpha(zero, zeroAlpha)
  }

  // ---------------------------------------------------------------------------
  // #[derive(Ord)]: field by field in declaration order
  // ---------------------------------------------------------------------------

  function RgbCmp<T>(p: RGB<T>, q: RGB<T>, cmp: (T, T) -> Ordering): Ordering {
    cmp(p.r, q.r).Then(cmp(p.g, q.g).Then(cmp(p.b, q.b)))
  }

  function RgbaCmp<T, TA>(p: RGBA<T, TA>, q: RGBA<T, TA>, cmp: (T, T) -> Ordering, cmpAlpha: (TA, TA) -> Ordering): Ordering {
    cmp(p.r, q.r).Then(cmp(p.g, q.g).Then(cmp(p.b, q.b).Then(cmpAlpha(p.a, q.a))))
  }

  function BgrCmp<T>(p: BGR<T>, q: BGR<T>, cmp: (T, T) -> Ordering): Ordering {
    cmp(p.b, q.b).Then(cmp(p.g, q.g).Then(cmp(p.r, q.r)))
  }

  function BgraCmp<T, TA>(p: BGRA<T, TA>, q: BGRA<T, TA>, cmp: (T, T) -> Ordering, cmpAlpha: (TA, TA) -> Ordering): Ordering {
    cmp(p.b, q.b).Then(cmp(p.g, q.g).Then(cmp(p.r, q.r).Then(cmpAlpha(p.a, q.a))))
  }

  function AbgrCmp<T, TA>(p: ABGR<T, TA>, q: ABGR<T, TA>, cmp: (T, T) -> Ordering, cmpAlpha: (TA, TA) -> Ordering): Ordering {
    cmpAlpha(p.a, q.a).Then(cmp(p.b, q.b).Then(cmp(p.g, q.g).Then(cmp(p.r, q.r))))
  }

  function ArgbCmp<T, TA>(p: ARGB<T, TA>, q: ARGB<T, TA>, cmp: (T, T) -> Ordering, cmpAlpha: (TA, TA) -> Ordering): Ordering {
    cmpAlpha(p.a, q.a).Then(cmp(p.r, q.r).Then(cmp(p.g, q.g).Then(cmp(p.b, q.b))))
  }

  function GrbCmp<T>(p: GRB<T>, q: GRB<T>, cmp: (T, T) -> Ordering): Ordering {
    cmp(p.g, q.g).Then(cmp(p.r, q.r).Then(cmp(p.b, q.b)))
  }

  function GrayCmp<T>(p: Gray<T>, q: Gray<T>, cmp: (T, T) -> Ordering): Ordering {
    cmp(p.v, q.v)
  }

  function GrayAlphaCmp<T, TA>(p: GrayAlpha<T, TA>, q: GrayAlpha<T, TA>, cmp: (T, T) -> Ordering, cmpAlpha: (TA, TA) -> Ordering): Ordering {
    cmp(p.v, q.v).Then(cmpAlpha(p.a, q.a))
  }

  /** The derived orderings are the lexicographic orderings of the channel
      lists in declaration order. */
  lemma RgbCmpIsLex<T>(p: RGB<T>, q: RGB<T>, cmp: (T, T) -> Ordering)
    ensures RgbCmp(p, q, cmp) == LexCmp(RgbChannels(p), RgbChannels(q), cmp)
  {
    assert LexCmp(RgbChannels(p)[2..], RgbChannels(q)[2..], cmp) == cmp(RgbChannels(p)[2], RgbChannels(q)[2]).Then(LexCmp(RgbChannels(p)[3..], RgbChannels(q)[3..], cmp));
    assert LexCmp(RgbChannels(p)[1..], RgbChannels(q)[1..], cmp) == cmp(RgbChannels(p)[1], RgbChannels(q)[1]).Then(LexCmp(RgbChannels(p)[2..], RgbChannels(q)[2..], cmp));
    assert LexCmp(RgbChannels(p)[0..], RgbChannels(q)[0..], cmp) == cmp(RgbChannels(p)[0], RgbChannels(q)[0]).Then(LexCmp(RgbChannels(p)[1..], RgbChannels(q)[1..], cmp));
  }

  lemma RgbaCmpIsLex<T>(p: RGBA<T, T>, q: RGBA<T, T>, cmp: (T, T) -> Ordering)
    ensures RgbaCmp(p, q, cmp, cmp) == LexCmp(RgbaChannels(p), RgbaChannels(q), cmp)
  {
    assert LexCmp(RgbaChannels(p)[3..], RgbaChannels(q)[3..], cmp) == cmp(RgbaChannels(p)[3], RgbaChannels(q)[3]).Then(LexCmp(RgbaChannels(p)[4..], RgbaChannels(q)[4..], cmp));
    assert LexCmp(RgbaChannels(p)[2..], RgbaChannels(q)[2..], cmp) == cmp(RgbaChannels(p)[2], RgbaChannels(q)[2]).Then(LexCmp(RgbaChannels(p)[3..], RgbaChannels(q)[3..], cmp));
    assert LexCmp(RgbaChannels(p)[1..], RgbaChannels(q)[1..], cmp) == cmp(RgbaChannels(p)[1], RgbaChannels(q)[1]).Then(LexCmp(RgbaChannels(p)[2..], RgbaChannels(q)[2..], cmp));
    assert LexCmp(RgbaChannels(p)[0..], RgbaChannels(q)[0..], cmp) == cmp(RgbaChannels(p)[0], RgbaChannels(q)[0]).Then(LexCmp(RgbaChannels(p)[1..], RgbaChannels(q)[1..], cmp));
  }

  lemma BgrCmpIsLex<T>(p: BGR<T>, q: BGR<T>, cmp: (T, T) -> Ordering)
    ensures BgrCmp(p, q, cmp) == LexCmp(BgrChannels(p), BgrChannels(q), cmp)
  {
    assert LexCmp(BgrChannels(p)[2..], BgrChannels(q)[2..], cmp) == cmp(BgrChannels(p)[2], BgrChannels(q)[2]).Then(LexCmp(BgrChannels(p)[3..], BgrChannels(q)[3..], cmp));
    assert LexCmp(BgrChannels(p)[1..], BgrChannels(q)[1..], cmp) == cmp(BgrChannels(p)[1], BgrChannels(q)[1]).Then(LexCmp(BgrChannels(p)[2..], BgrChannels(q)[2..], cmp));
    assert LexCmp(BgrChannels(p)[0..], BgrChannels(q)[0..], cmp) == cmp(BgrChannels(p)[0], BgrChannels(q)[0]).Then(LexCmp(BgrChannels(p)[1..], BgrChannels(q)[1..], cmp));
  }

  lemma BgraCmpIsLex<T>(p: BGRA<T, T>, q: BGRA<T, T>, cmp: (T, T) -> Ordering)
    ensures BgraCmp(p, q, cmp, cmp) == LexCmp(BgraChannels(p), BgraChannels(q), cmp)
  {
    assert LexCmp(BgraChannels(p)[3..], BgraChannels(q)[3..], cmp) == cmp(BgraChannels(p)[3], BgraChannels(q)[3]).Then(LexCmp(BgraChannels(p)[4..], BgraChannels(q)[4..], cmp));
    assert LexCmp(BgraChannels(p)[2..], BgraChannels(q)[2..], cmp) == cmp(BgraChannels(p)[2], BgraChannels(q)[2]).Then(LexCmp(BgraChannels(p)[3..], BgraChannels(q)[3..], cmp));
    assert LexCmp(BgraChannels(p)[1..], BgraChannels(q)[1..], cmp) == cmp(BgraChannels(p)[1], BgraChannels(q)[1]).Then(LexCmp(BgraChannels(p)[2..], BgraChannels(q)[2..], cmp));
    assert LexCmp(BgraChannels(p)[0..], BgraChannels(q)[0..], cmp) == cmp(BgraChannels(p)[0], BgraChannels(q)[0]).Then(LexCmp(BgraChannels(p)[1..], BgraChannels(q)[1..], cmp));
  }

  lemma AbgrCmpIsLex<T>(p: ABGR<T, T>, q: ABGR<T, T>, cmp: (T, T) -> Ordering)
    ensures AbgrCmp(p, q, cmp, cmp) == LexCmp(AbgrChannels(p), AbgrChannels(q), cmp)
  {
    assert LexCmp(AbgrChannels(p)[3..], AbgrChannels(q)[3..], cmp) == cmp(AbgrChannels(p)[3], AbgrChannels(q)[3]).Then(LexCmp(AbgrChannels(p)[4..], AbgrChannels(q)[4..], cmp));
    assert LexCmp(AbgrChannels(p)[2..], AbgrChannels(q)[2..], cmp) == cmp(AbgrChannels(p)[2], AbgrChannels(q)[2]).Then(LexCmp(AbgrChannels(p)[3..], AbgrChannels(q)[3..], cmp));
    assert LexCmp(AbgrChannels(p)[1..], AbgrChannels(q)[1..], cmp) == cmp(AbgrChannels(p)[1], AbgrChannels(q)[1]).Then(LexCmp(AbgrChannels(p)[2..], AbgrChannels(q)[2..], cmp));
    assert LexCmp(AbgrChannels(p)[0..], AbgrChannels(q)[0..], cmp) == cmp(AbgrChannels(p)[0], AbgrChannels(q)[0]).Then(LexCmp(AbgrChannels(p)[1..], AbgrChannels(q)[1..], cmp));
  }

  lemma ArgbCmpIsLex<T>(p: ARGB<T, T>, q: ARGB<T, T>, cmp: (T, T) -> Ordering)
    ensures ArgbCmp(p, q, cmp, cmp) == LexCmp(ArgbChannels(p), ArgbChannels(q), cmp)
  {
    assert LexCmp(ArgbChannels(p)[3..], ArgbChannels(q)[3..], cmp) == cmp(ArgbChannels(p)[3], ArgbChannels(q)[3]).Then(LexCmp(ArgbChannels(p)[4..], ArgbChannels(q)[4..], cmp));
    assert LexCmp(ArgbChannels(p)[2..], ArgbChannels(q)[2..], cmp) == cmp(ArgbChannels(p)[2], ArgbChannels(q)[2]).Then(LexCmp(ArgbChannels(p)[3..], ArgbChannels(q)[3..], cmp));
    assert LexCmp(ArgbChannels(p)[1..], ArgbChannels(q)[1..], cmp) == cmp(ArgbChannels(p)[1], ArgbChannels(q)[1]).Then(LexCmp(ArgbChannels(p)[2..], ArgbChannels(q)[2..], cmp));
    assert LexCmp(ArgbChannels(p)[0..], ArgbChannels(q)[0..], cmp) == cmp(ArgbChannels(p)[0], ArgbChannels(q)[0]).Then(LexCmp(ArgbChannels(p)[1..], ArgbChannels(q)[1..], cmp));
  }

  lemma GrbCmpIsLex<T>(p: GRB<T>, q: GRB<T>, cmp: (T, T) -> Ordering)
    ensures GrbCmp(p, q, cmp) == LexCmp(GrbChannels(p), GrbChannels(q), cmp)
  {
    assert LexCmp(GrbChannels(p)[2..], GrbChannels(q)[2..], cmp) == cmp(GrbChannels(p)[2], GrbChannels(q)[2]).Then(LexCmp(GrbChannels(p)[3..], GrbChannels(q)[3..], cmp));
    assert LexCmp(GrbChannels(p)[1..], GrbChannels(q)[1..], cmp) == cmp(GrbChannels(p)[1], GrbChannels(q)[1]).Then(LexCmp(GrbChannels(p)[2..], GrbChannels(q)[2..], cmp));
    assert LexCmp(GrbChannels(p)[0..], GrbChannels(q)[0..], cmp) == cmp(GrbChannels(p)[0], GrbChannels(q)[0]).Then(LexCmp(GrbChannels(p)[1..], GrbChannels(q)[1..], cmp));
  }

  lemma GrayCmpIsLex<T>(p: Gray<T>, q: Gray<T>, cmp: (T, T) -> Ordering)
    ensures GrayCmp(p, q, cmp) == LexCmp(GrayChannels(p), GrayChannels(q), cmp)
  {
    assert LexCmp(GrayChannels(p)[1..], GrayChannels(q)[1..], cmp) == Equal;
    ThenLaws(cmp(p.v, q.v), Equal, Equal);
  }

  lemma GrayAlphaCmpIsLex<T>(p: GrayAlpha<T, T>, q: GrayAlpha<T, T>, cmp: (T, T) -> Ordering)
    ensures GrayAlphaCmp(p, q, cmp, cmp) == LexCmp(GrayAlphaChannels(p), GrayAlphaChannels(q), cmp)
  {
    assert LexCmp(GrayAlphaChannels(p)[1..], GrayAlphaChannels(q)[1..], cmp) == cmp(GrayAlphaChannels(p)[1], GrayAlphaChannels(q)[1]).Then(LexCmp(GrayAlphaChannels(p)[2..], GrayAlphaChannels(q)[2..], cmp));
    assert LexCmp(GrayAlphaChannels(p)[0..], GrayAlphaChannels(q)[0..], cmp) == cmp(GrayAlphaChannels(p)[0], GrayAlphaChannels(q)[0]).Then(LexCmp(GrayAlphaChannels(p)[1..], GrayAlphaChannels(q)[1..], cmp));
  }

  /** With an alpha type of its own, the derived ordering compares the colours
      lexicographically and then alpha (or alpha first, where it is declared
      first). */
  lemma RgbaCmpColorsThenAlpha<T, TA>(p: RGBA<T, TA>, q: RGBA<T, TA>, cmp: (T, T) -> Ordering, cmpAlpha: (TA, TA) -> Ordering)
    ensures RgbaCmp(p, q, cmp, cmpAlpha) == LexCmp(RgbaColors(p), RgbaColors(q), cmp).Then(cmpAlpha(p.a, q.a))
  {
    RgbCmpIsLex(RGB(p.r, p.g, p.b), RGB(q.r, q.g, q.b), cmp);
    ThenLaws(cmp(p.r, q.r), cmp(p.g, q.g).Then(cmp(p.b, q.b)), cmpAlpha(p.a, q.a));
    ThenLaws(cmp(p.g, q.g), cmp(p.b, q.b), cmpAlpha(p.a, q.a));
  }

  lemma BgraCmpColorsThenAlpha<T, TA>(p: BGRA<T, TA>, q: BGRA<T, TA>, cmp: (T, T) -> Ordering, cmpAlpha: (TA, TA) -> Ordering)
    ensures BgraCmp(p, q, cmp, cmpAlpha) == LexCmp(BgraColors(p), BgraColors(q), cmp).Then(cmpAlpha(p.a, q.a))
  {
    BgrCmpIsLex(BGR(p.b, p.g, p.r), BGR(q.b, q.g, q.r), cmp);
    ThenLaws(cmp(p.b, q.b), cmp(p.g, q.g).Then(cmp(p.r, q.r)), cmpAlpha(p.a, q.a));
    ThenLaws(cmp(p.g, q.g), cmp(p.r, q.r), cmpAlpha(p.a, q.a));
  }

  lemma AbgrCmpAlphaThenColors<T, TA>(p: ABGR<T, TA>, q: ABGR<T, TA>, cmp: (T, T) -> Ordering, cmpAlpha: (TA, TA) -> Ordering)
    ensures AbgrCmp(p, q, cmp, cmpAlpha) == cmpAlpha(p.a, q.a).Then(LexCmp(AbgrColors(p), AbgrColors(q), cmp))
  {
    BgrCmpIsLex(BGR(p.b, p.g, p.r), BGR(q.b, q.g, q.r), cmp);
  }

  lemma ArgbCmpAlphaThenColors<T, TA>(p: ARGB<T, TA>, q: ARGB<T, TA>, cmp: (T, T) -> Ordering, cmpAlpha: (TA, TA) -> Ordering)
    ensures ArgbCmp(p, q, cmp, cmpAlpha) == cmpAlpha(p.a, q.a).Then(LexCmp(ArgbColors(p), ArgbColors(q), cmp))
  {
    RgbCmpIsLex(RGB(p.r, p.g, p.b), RGB(q.r, q.g, q.b), cmp);
  }

  lemma GrayAlphaCmpBrightnessThenAlpha<T, TA>(p: GrayAlpha<T, TA>, q: GrayAlpha<T, TA>, cmp: (T, T) -> Ordering, cmpAlpha: (TA, TA) -> Ordering)
    ensures GrayAlphaCmp(p, q, cmp, cmpAlpha) == LexCmp(GrayChannels(Gray(p.v)), GrayChannels(Gray(q.v)), cmp).Then(cmpAlpha(p.a, q.a))
  {
    GrayCmpIsLex(Gray(p.v), Gray(q.v), cmp);
  }

  /** Derived `Eq` and derived `Ord` agree: a comparison answers `Equal`
      exactly on equal pixels (given a scalar comparison that does). */
  lemma RgbCmpEqualIff<T(!new)>(p: RGB<T>, q: RGB<T>, cmp: (T, T) -> Ordering)
    requires DecidesEquality(cmp)
    ensures RgbCmp(p, q, cmp) == Equal <==> p == q
  {
    RgbCmpIsLex(p, q, cmp);
    LexCmpEqual(RgbChannels(p), RgbChannels(q), cmp);
    RgbEqualIffChannels(p, q);
  }

  lemma BgrCmpEqualIff<T(!new)>(p: BGR<T>, q: BGR<T>, cmp: (T, T) -> Ordering)
    requires DecidesEquality(cmp)
    ensures BgrCmp(p, q, cmp) == Equal <==> p == q
  {
    BgrCmpIsLex(p, q, cmp);
    LexCmpEqual(BgrChannels(p), BgrChannels(q), cmp);
    BgrEqualIffChannels(p, q);
  }

  lemma GrbCmpEqualIff<T(!new)>(p: GRB<T>, q: GRB<T>, cmp: (T, T) -> Ordering)
    requires DecidesEquality(cmp)
    ensures GrbCmp(p, q, cmp) == Equal <==> p == q
  {
    GrbCmpIsLex(p, q, cmp);
    LexCmpEqual(GrbChannels(p), GrbChannels(q), cmp);
    GrbEqualIffChannels(p, q);
  }

  lemma GrayCmpEqualIff<T(!new)>(p: Gray<T>, q: Gray<T>, cmp: (T, T) -> Ordering)
    requires DecidesEquality(cmp)
    ensures GrayCmp(p, q, cmp) == Equal <==> p == q
  {
    GrayCmpIsLex(p, q, cmp);
    LexCmpEqual(GrayChannels(p), GrayChannels(q), cmp);
    GrayEqualIffChannels(p, q);
  }

  lemma RgbaCmpEqualIff<T(!new), TA(!new)>(p: RGBA<T, TA>, q: RGBA<T, TA>, cmp: (T, T) -> Ordering, cmpAlpha: (TA, TA) -> Ordering)
    requires DecidesEquality(cmp) && DecidesEquality(cmpAlpha)
    ensures RgbaCmp(p, q, cmp, cmpAlpha) == Equal <==> p == q
  {
    RgbaCmpColorsThenAlpha(p, q, cmp, cmpAlpha);
    LexCmpEqual(RgbaColors(p), RgbaColors(q), cmp);
    ThenLaws(LexCmp(RgbaColors(p), RgbaColors(q), cmp), cmpAlpha(p.a, q.a), Equal);
    ThenLaws(cmpAlpha(p.a, q.a), LexCmp(RgbaColors(p), RgbaColors(q), cmp), Equal);
    if RgbaColors(p) == RgbaColors(q) {
      assert RgbaColors(p)[0] == RgbaColors(q)[0];
      assert RgbaColors(p)[1] == RgbaColors(q)[1];
      assert RgbaColors(p)[2] == RgbaColors(q)[2];
    }
  }

  lemma BgraCmpEqualIff<T(!new), TA(!new)>(p: BGRA<T, TA>, q: BGRA<T, TA>, cmp: (T, T) -> Ordering, cmpAlpha: (TA, TA) -> Ordering)
    requires DecidesEquality(cmp) && DecidesEquality(cmpAlpha)
    ensures BgraCmp(p, q, cmp, cmpAlpha) == Equal <==> p == q
  {
    BgraCmpColorsThenAlpha(p, q, cmp, cmpAlpha);
    LexCmpEqual(BgraColors(p), BgraColors(q), cmp);
    ThenLaws(LexCmp(BgraColors(p), BgraColors(q), cmp), cmpAlpha(p.a, q.a), Equal);
    ThenLaws(cmpAlpha(p.a, q.a), LexCmp(BgraColors(p), BgraColors(q), cmp), Equal);
    if BgraColors(p) == BgraColors(q) {
      assert BgraColors(p)[0] == BgraColors(q)[0];
      assert BgraColors(p)[1] == BgraColors(q)[1];
      assert BgraColors(p)[2] == BgraColors(q)[2];
    }
  }

  lemma AbgrCmpEqualIff<T(!new), TA(!new)>(p: ABGR<T, TA>, q: ABGR<T, TA>, cmp: (T, T) -> Ordering, cmpAlpha: (TA, TA) -> Ordering)
    requires DecidesEquality(cmp) && DecidesEquality(cmpAlpha)
    ensures AbgrCmp(p, q, cmp, cmpAlpha) == Equal <==> p == q
  {
    AbgrCmpAlphaThenColors(p, q, cmp, cmpAlpha);
    LexCmpEqual(AbgrColors(p), AbgrColors(q), cmp);
    ThenLaws(LexCmp(AbgrColors(p), AbgrColors(q), cmp), cmpAlpha(p.a, q.a), Equal);
    ThenLaws(cmpAlpha(p.a, q.a), LexCmp(AbgrColors(p), AbgrColors(q), cmp), Equal);
    if AbgrColors(p) == AbgrColors(q) {
      assert AbgrColors(p)[0] == AbgrColors(q)[0];
      assert AbgrColors(p)[1] == AbgrColors(q)[1];
      assert AbgrColors(p)[2] == AbgrColors(q)[2];
    }
  }

  lemma ArgbCmpEqualIff<T(!new), TA(!new)>(p: ARGB<T, TA>, q: ARGB<T, TA>, cmp: (T, T) -> Ordering, cmpAlpha: (TA, TA) -> Ordering)
    requires DecidesEquality(cmp) && DecidesEquality(cmpAlpha)
    ensures ArgbCmp(p, q, cmp, cmpAlpha) == Equal <==> p == q
  {
    ArgbCmpAlphaThenColors(p, q, cmp, cmpAlpha);
    LexCmpEqual(ArgbColors(p), ArgbColors(q), cmp);
    ThenLaws(LexCmp(ArgbColors(p), ArgbColors(q), cmp), cmpAlpha(p.a, q.a), Equal);
    ThenLaws(cmpAlpha(p.a, q.a), LexCmp(ArgbColors(p), ArgbColors(q), cmp), Equal);
    if ArgbColors(p) == ArgbColors(q) {
      assert ArgbColors(p)[0] == ArgbColors(q)[0];
      assert ArgbColors(p)[1] == ArgbColors(q)[1];
      assert ArgbColors(p)[2] == ArgbColors(q)[2];
    }
  }

  lemma GrayAlphaCmpEqualIff<T(!new), TA(!new)>(p: GrayAlpha<T, TA>, q: GrayAlpha<T, TA>, cmp: (T, T) -> Ordering, cmpAlpha: (TA, TA) -> Ordering)
    requires DecidesEquality(cmp) && DecidesEquality(cmpAlpha)
    ensures GrayAlphaCmp(p, q, cmp, cmpAlpha) == Equal <==> p == q
  {
    GrayCmpEqualIff(Gray(p.v), Gray(q.v), cmp);
    ThenLaws(cmp(p.v, q.v), cmpAlpha(p.a, q.a), Equal);
  }

  /** The derived orderings are antisymmetric. */
  lemma RgbCmpReverse<T(!new)>(p: RGB<T>, q: RGB<T>, cmp: (T, T) -> Ordering)
    requires Antisymmetric(cmp)
    ensures RgbCmp(q, p, cmp) == RgbCmp(p, q, cmp).Reverse()
  {
    RgbCmpIsLex(p, q, cmp);
    RgbCmpIsLex(q, p, cmp);
    LexCmpReverse(RgbChannels(p), RgbChannels(q), cmp);
  }

  lemma BgrCmpReverse<T(!new)>(p: BGR<T>, q: BGR<T>, cmp: (T, T) -> Ordering)
    requires Antisymmetric(cmp)
    ensures BgrCmp(q, p, cmp) == BgrCmp(p, q, cmp).Reverse()
  {
    BgrCmpIsLex(p, q, cmp);
    BgrCmpIsLex(q, p, cmp);
    LexCmpReverse(BgrChannels(p), BgrChannels(q), cmp);
  }

  lemma GrbCmpReverse<T(!new)>(p: GRB<T>, q: GRB<T>, cmp: (T, T) -> Ordering)
    requires Antisymmetric(cmp)
    ensures GrbCmp(q, p, cmp) == GrbCmp(p, q, cmp).Reverse()
  {
    GrbCmpIsLex(p, q, cmp);
    GrbCmpIsLex(q, p, cmp);
    LexCmpReverse(GrbChannels(p), GrbChannels(q), cmp);
  }

  lemma GrayCmpReverse<T(!new)>(p: Gray<T>, q: Gray<T>, cmp: (T, T) -> Ordering)
    requires Antisymmetric(cmp)
    ensures GrayCmp(q, p, cmp) == GrayCmp(p, q, cmp).Reverse()
  {
    GrayCmpIsLex(p, q, cmp);
    GrayCmpIsLex(q, p, cmp);
    LexCmpReverse(GrayChannels(p), GrayChannels(q), cmp);
  }

  lemma RgbaCmpReverse<T(!new), TA(!new)>(p: RGBA<T, TA>, q: RGBA<T, TA>, cmp: (T, T) -> Ordering, cmpAlpha: (TA, TA) -> Ordering)
    requires Antisymmetric(cmp) && Antisymmetric(cmpAlpha)
    ensures RgbaCmp(q, p, cmp, cmpAlpha) == RgbaCmp(p, q, cmp, cmpAlpha).Reverse()
  {
    RgbaCmpColorsThenAlpha(p, q, cmp, cmpAlpha);
    RgbaCmpColorsThenAlpha(q, p, cmp, cmpAlpha);
    LexCmpReverse(RgbaColors(p), RgbaColors(q), cmp);
    ThenLaws(LexCmp(RgbaColors(p), RgbaColors(q), cmp), cmpAlpha(p.a, q.a), Equal);
  }

  lemma BgraCmpReverse<T(!new), TA(!new)>(p: BGRA<T, TA>, q: BGRA<T, TA>, cmp: (T, T) -> Ordering, cmpAlpha: (TA, TA) -> Ordering)
    requires Antisymmetric(cmp) && Antisymmetric(cmpAlpha)
    ensures BgraCmp(q, p, cmp, cmpAlpha) == BgraCmp(p, q, cmp, cmpAlpha).Reverse()
  {
    BgraCmpColorsThenAlpha(p, q, cmp, cmpAlpha);
    BgraCmpColorsThenAlpha(q, p, cmp, cmpAlpha);
    LexCmpReverse(BgraColors(p), BgraColors(q), cmp);
    ThenLaws(LexCmp(BgraColors(p), BgraColors(q), cmp), cmpAlpha(p.a, q.a), Equal);
  }

  lemma AbgrCmpReverse<T(!new), TA(!new)>(p: ABGR<T, TA>, q: ABGR<T, TA>, cmp: (T, T) -> Ordering, cmpAlpha: (TA, TA) -> Ordering)
    requires Antisymmetric(cmp) && Antisymmetric(cmpAlpha)
    ensures AbgrCmp(q, p, cmp, cmpAlpha) == AbgrCmp(p, q, cmp, cmpAlpha).Reverse()
  {
    AbgrCmpAlphaThenColors(p, q, cmp, cmpAlpha);
    AbgrCmpAlphaThenColors(q, p, cmp, cmpAlpha);
    LexCmpReverse(AbgrColors(p), AbgrColors(q), cmp);
    ThenLaws(cmpAlpha(p.a, q.a), LexCmp(AbgrColors(p), AbgrColors(q), cmp), Equal);
  }

  lemma ArgbCmpReverse<T(!new), TA(!new)>(p: ARGB<T, TA>, q: ARGB<T, TA>, cmp: (T, T) -> Ordering, cmpAlpha: (TA, TA) -> Ordering)
    requires Antisymmetric(cmp) && Antisymmetric(cmpAlpha)
    ensures ArgbCmp(q, p, cmp, cmpAlpha) == ArgbCmp(p, q, cmp, cmpAlpha).Reverse()
  {
    ArgbCmpAlphaThenColors(p, q, cmp, cmpAlpha);
    ArgbCmpAlphaThenColors(q, p, cmp, cmpAlpha);
    LexCmpReverse(ArgbColors(p), ArgbColors(q), cmp);
    ThenLaws(cmpAlpha(p.a, q.a), LexCmp(ArgbColors(p), ArgbColors(q), cmp), Equal);
  }

  lemma GrayAlphaCmpReverse<T(!new), TA(!new)>(p: GrayAlpha<T, TA>, q: GrayAlpha<T, TA>, cmp: (T, T) -> Ordering, cmpAlpha: (TA, TA) -> Ordering)
    requires Antisymmetric(cmp) && Antisymmetric(cmpAlpha)
    ensures GrayAlphaCmp(q, p, cmp, cmpAlpha) == GrayAlphaCmp(p, q, cmp, cmpAlpha).Reverse()
  {
    ThenLaws(cmp(p.v, q.v), cmpAlpha(p.a, q.a), Equal);
  }

  /** Red decides an RGB comparison whenever the reds differ, whatever the
      other channels are. */
  lemma RgbCmpRedFirst<T(!new)>(p: RGB<T>, q: RGB<T>, cmp: (T, T) -> Ordering)
    requires DecidesEquality(cmp)
    requires p.r != q.r
    ensures RgbCmp(p, q, cmp) == cmp(p.r, q.r)
  {
    RgbCmpIsLex(p, q, cmp);
    LexCmpFirstDifference(RgbChannels(p), RgbChannels(q), cmp, 0);
  }

  /** Blue decides a BGR comparison whenever the blues differ, whatever the
      other channels are. */
  lemma BgrCmpBlueFirst<T(!new)>(p: BGR<T>, q: BGR<T>, cmp: (T, T) -> Ordering)
    requires DecidesEquality(cmp)
    requires p.b != q.b
    ensures BgrCmp(p, q, cmp) == cmp(p.b, q.b)
  {
    BgrCmpIsLex(p, q, cmp);
    LexCmpFirstDifference(BgrChannels(p), BgrChannels(q), cmp, 0);
  }

  /** The usual comparison of integers. */
  function IntCmp(x: int, y: int): Ordering {
    if x < y then Less else if x == y then Equal else Greater
  }

  /** The same two colours are ordered one way as RGB and the other way as BGR:
      (r=1, g=0, b=2) sorts before (r=2, g=0, b=1) as RGB but after it as BGR. */
  lemma BgrOrderDiffersFromRgb()
    ensures RgbCmp(RGB(1, 0, 2), RGB(2, 0, 1), IntCmp) == Less
    ensures BgrCmp(BGR(2, 0, 1), BGR(1, 0, 2), IntCmp) == Greater
  {
  }

  // ---------------------------------------------------------------------------
  // Gray and GrayAlpha helpers (src/alt.rs)
  // ---------------------------------------------------------------------------

  /** `Gray::new`. */
  function GrayNew<T>(brightness: T): (p: Gray<T>)
    ensures GrayDeref(p) == brightness
  {
    Gray(brightness)
  }

  /** `*gray`: the brightness, the pixel's only channel. */
  function GrayDeref<T>(p: Gray<T>): (v: T)
    ensures GrayChannels(p) == [v]
  {
    p.v
  }

  /** Dereferencing and rebuilding a Gray pixel gives it back. */
  lemma GrayDerefRoundTrip<T>(p: Gray<T>)
    ensures GrayNew(GrayDeref(p)) == p
  {
  }

  /** `From<T> for Gray<T>`: the same pixel as `Gray::new`. */
  function GrayFrom<T>(value: T): (p: Gray<T>)
    ensures p == GrayNew(value)
  {
    Gray(value)
  }

  /** `GrayAlpha::gray`: drops the alpha and keeps the brightness. */
  function GrayAlphaGray<T, TA>(p: GrayAlpha<T, TA>): (g: Gray<T>)
    ensures GrayDeref(g) == p.v
  {
    Gray(p.v)
  }

  /** Two GrayAlpha pixels that differ only in alpha give the same Gray. */
  lemma GrayAlphaGrayIgnoresAlpha<T, TA>(v: T, a1: TA, a2: TA)
    ensures GrayAlphaGray(GrayAlpha(v, a1)) == GrayAlphaGray(GrayAlpha(v, a2)) == Gray(v)
  {
  }
}
