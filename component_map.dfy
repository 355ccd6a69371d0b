/** `ComponentMap::map` and `ColorComponentMap::map_c` (src/internal/pixel.rs):
    one callback applied to every channel, giving a pixel of the same shape
    (not an iterator); `map_c` leaves the alpha channel, when there is one, as
    it was. The RGB, BGR and GRB implementations are those of
    src/internal/rgb.rs; the others are written from the trait contracts. */
module ComponentMap {
  import opened Pixels

  // ---- alpha-less records: map and map_c are the same ----

  function RgbMap<T, B>(p: RGB<T>, f: T -> B): (q: RGB<B>)
    ensures forall k | 0 <= k < 3 :: RgbChannels(q)[k] == f(RgbChannels(p)[k])
  {
    RGB(f(p.r), f(p.g), f(p.b))
  }

  function RgbMapC<T, B>(p: RGB<T>, f: T -> B): (q: RGB<B>)
    ensures q == RgbMap(p, f)
  {
    RGB(f(p.r), f(p.g), f(p.b))
  }

  function BgrMap<T, B>(p: BGR<T>, f: T -> B): (q: BGR<B>)
    ensures forall k | 0 <= k < 3 :: BgrChannels(q)[k] == f(BgrChannels(p)[k])
  {
    BGR(f(p.b), f(p.g), f(p.r))
  }

  function BgrMapC<T, B>(p: BGR<T>, f: T -> B): (q: BGR<B>)
    ensures q == BgrMap(p, f)
  {
    BGR(f(p.b), f(p.g), f(p.r))
  }

  function GrbMap<T, B>(p: GRB<T>, f: T -> B): (q: GRB<B>)
    ensures forall k | 0 <= k < 3 :: GrbChannels(q)[k] == f(GrbChannels(p)[k])
  {
    GRB(f(p.g), f(p.r), f(p.b))
  }

  function GrbMapC<T, B>(p: GRB<T>, f: T -> B): (q: GRB<B>)
    ensures q == GrbMap(p, f)
  {
    GRB(f(p.g), f(p.r), f(p.b))
  }

  function GrayMap<T, B>(p: Gray<T>, f: T -> B): (q: Gray<B>)
    ensures GrayChannels(q) == [f(p.v)]
  {
    Gray(f(p.v))
  }

  function GrayMapC<T, B>(p: Gray<T>, f: T -> B): (q: Gray<B>)
    ensures q == GrayMap(p, f)
  {
    Gray(f(p.v))
  }

  // ---- alpha-bearing records: map changes alpha too, map_c keeps it ----

  function RgbaMap<T, B>(p: RGBA<T, T>, f: T -> B): (q: RGBA<B, B>)
    ensures forall k | 0 <= k < 4 :: RgbaChannels(q)[k] == f(RgbaChannels(p)[k])
  {
    RGBA(f(p.r), f(p.g), f(p.b), f(p.a))
  }

  function RgbaMapC<T, TA, B>(p: RGBA<T, TA>, f: T -> B): (q: RGBA<B, TA>)
    ensures forall k | 0 <= k < 3 :: RgbaColors(q)[k] == f(RgbaColors(p)[k])
    ensures q.a == p.a
  {
    RGBA(f(p.r), f(p.g), f(p.b), p.a)
  }

  function BgraMap<T, B>(p: BGRA<T, T>, f: T -> B): (q: BGRA<B, B>)
    ensures forall k | 0 <= k < 4 :: BgraChannels(q)[k] == f(BgraChannels(p)[k])
  {
    BGRA(f(p.b), f(p.g), f(p.r), f(p.a))
  }

  function BgraMapC<T, TA, B>(p: BGRA<T, TA>, f: T -> B): (q: BGRA<B, TA>)
    ensures forall k | 0 <= k < 3 :: BgraColors(q)[k] == f(BgraColors(p)[k])
    ensures q.a == p.a
  {
    BGRA(f(p.b), f(p.g), f(p.r), p.a)
  }

  function ArgbMap<T, B>(p: ARGB<T, T>, f: T -> B): (q: ARGB<B, B>)
    ensures forall k | 0 <= k < 4 :: ArgbChannels(q)[k] == f(ArgbChannels(p)[k])
  {
    ARGB(f(p.a), f(p.r), f(p.g), f(p.b))
  }

  function ArgbMapC<T, TA, B>(p: ARGB<T, TA>, f: T -> B): (q: ARGB<B, TA>)
    ensures forall k | 0 <= k < 3 :: ArgbColors(q)[k] == f(ArgbColors(p)[k])
    ensures q.a == p.a
  {
    ARGB(p.a, f(p.r), f(p.g), f(p.b))
  }

  function AbgrMap<T, B>(p: ABGR<T, T>, f: T -> B): (q: ABGR<B, B>)
    ensures forall k | 0 <= k < 4 :: AbgrChannels(q)[k] == f(AbgrChannels(p)[k])
  {
    ABGR(f(p.a), f(p.b), f(p.g), f(p.r))
  }

  function AbgrMapC<T, TA, B>(p: ABGR<T, TA>, f: T -> B): (q: ABGR<B, TA>)
    ensures forall k | 0 <= k < 3 :: AbgrColors(q)[k] == f(AbgrColors(p)[k])
    ensures q.a == p.a
  {
    ABGR(p.a, f(p.b), f(p.g), f(p.r))
  }

  function GrayAlphaMap<T, B>(p: GrayAlpha<T, T>, f: T -> B): (q: GrayAlpha<B, B>)
    ensures forall k | 0 <= k < 2 :: GrayAlphaChannels(q)[k] == f(GrayAlphaChannels(p)[k])
  {
    GrayAlpha(f(p.v), f(p.a))
  }

  function GrayAlphaMapC<T, TA, B>(p: GrayAlpha<T, TA>, f: T -> B): (q: GrayAlpha<B, TA>)
    ensures q.v == f(p.v) && q.a == p.a
  {
    GrayAlpha(f(p.v), p.a)
  }

  /** On an RGBA pixel `map` and `map_c` agree on the colours; only `map`
      touches alpha. */
  lemma RgbaMapAgreesWithMapC<T, B>(p: RGBA<T, T>, f: T -> B)
    ensures RgbaColors(RgbaMap(p, f)) == RgbaColors(RgbaMapC(p, f))
    ensures RgbaMap(p, f).a == f(RgbaMapC(p, f).a)
  {
  }
}
