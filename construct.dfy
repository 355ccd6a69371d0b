/** Construction helpers of src/internal/rgb.rs: `new`, adding an alpha
    channel (`alpha`, `new_alpha`) and `FromIterator for RGB`. */
module Construct {
  import opened Wrappers
  import opened Pixels
  import opened ComponentMap

  /** `RGB::new(r, g, b)`: arguments in red, green, blue order. */
  function RgbNew<T>(r: T, g: T, b: T): (p: RGB<T>)
    ensures RgbChannels(p) == [r, g, b]
  {
    RGB(r, g, b)
  }

  /** `BGR::new(b, g, r)`: arguments in the record's own blue-first order. */
  function BgrNew<T>(b: T, g: T, r: T): (p: BGR<T>)
    ensures BgrChannels(p) == [b, g, r]
  {
    BGR(b, g, r)
  }

  /** `RGB::new(r, g, b)` and `BGR::new(b, g, r)` hold the same colour. */
  lemma NewSameColour<T>(r: T, g: T, b: T)
    ensures RgbNew(r, g, b).r == BgrNew(b, g, r).r
    ensures RgbNew(r, g, b).g == BgrNew(b, g, r).g
    ensures RgbNew(r, g, b).b == BgrNew(b, g, r).b
  {
  }

  // ---------------------------------------------------------------------------
  // Adding an alpha channel
  // ---------------------------------------------------------------------------

  /** `RGB::new_alpha(a)`: the colours unchanged and alpha `a`, whose type may
      differ from the colours'. */
  function RgbNewAlpha<T, A>(p: RGB<T>, a: A): (q: RGBA<T, A>)
    ensures RgbaColors(q) == RgbChannels(p) && q.a == a
  {
    RGBA(p.r, p.g, p.b, a)
  }

  /** `RGB::alpha(a)`: `new_alpha` with an alpha of the colour type; the flat
      view grows by the alpha at the end. */
  function RgbAlpha<T>(p: RGB<T>, a: T): (q: RGBA<T, T>)
    ensures q == RgbNewAlpha(p, a)
    ensures RgbaChannels(q) == RgbChannels(p) + [a]
  {
    RGBA(p.r, p.g, p.b, a)
  }

  /** `BGR::new_alpha(a)`: the colours unchanged and alpha `a`. */
  function BgrNewAlpha<T, A>(p: BGR<T>, a: A): (q: BGRA<T, A>)
    ensures BgraColors(q) == BgrChannels(p) && q.a == a
  {
    BGRA(p.b, p.g, p.r, a)
  }

  /** `BGR::alpha(a)`: the flat view grows by the alpha at the end. */
  function BgrAlpha<T>(p: BGR<T>, a: T): (q: BGRA<T, T>)
    ensures q == BgrNewAlpha(p, a)
    ensures BgraChannels(q) == BgrChannels(p) + [a]
  {
    BGRA(p.b, p.g, p.r, a)
  }

  // ---------------------------------------------------------------------------
  // FromIterator for RGB
  // ---------------------------------------------------------------------------

  /** An iterator over the values still to come. */
  class SeqIter<T> {
    var rest: seq<T>

    constructor (s: seq<T>)
      ensures rest == s
    {
      rest := s;
    }

    /** `Iterator::next`: the first remaining value, or `None` when exhausted. */
    method Next() returns (x: Option<T>)
      modifies this
      ensures old(rest) == [] ==> x == None && rest == []
      ensures old(rest) != [] ==> x == Some(old(rest)[0]) && rest == old(rest)[1..]
    {
      if rest == [] {
        x := None;
      } else {
        x := Some(rest[0]);
        rest := rest[1..];
      }
    }
  }

  /** What `from_iter` yields for the values `s`: the first three as red, green
      and blue, the rest ignored; `None` (a panic of `unwrap`) when fewer than
      three are available. */
  function RgbCollect<T>(s: seq<T>): (p: Option<RGB<T>>)
    ensures p.None? <==> |s| < 3
    ensures p.Some? ==> RgbChannels(p.value) == s[..3]
  {
    if |s| < 3 then None else Some(RGB(s[0], s[1], s[2]))
  }

  /** `RGB::from_iter`: takes values one at a time from the iterator and
      unwraps each. */
  method RgbFromIter<T>(it: SeqIter<T>) returns (p: Option<RGB<T>>)
    modifies it
    ensures p == RgbCollect(old(it.rest))
    ensures p.Some? ==> it.rest == old(it.rest)[3..]
    ensures p.None? ==> it.rest == []
  {
    var r := it.Next();
    if r.None? {
      return None;
    }
    var g := it.Next();
    if g.None? {
      return None;
    }
    var b := it.Next();
    if b.None? {
      return None;
    }
    p := Some(RGB(r.value, g.value, b.value));
  }

  /** Collecting the flat view of a pixel, followed by anything, gives the
      pixel back. */
  lemma CollectChannels<T>(p: RGB<T>, tail: seq<T>)
    ensures RgbCollect(RgbChannels(p) + tail) == Some(p)
  {
    var s := RgbChannels(p) + tail;
    assert s[0] == p.r && s[1] == p.g && s[2] == p.b;
  }

  /** `map` is `iter().map(f).collect()`. */
  lemma MapIsCollectOfMappedIter<T, B>(p: RGB<T>, f: T -> B)
    ensures RgbCollect(seq(3, k requires 0 <= k < 3 => f(RgbChannels(p)[k]))) == Some(RgbMap(p, f))
  {
  }
}
