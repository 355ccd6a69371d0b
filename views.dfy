/** The flat and byte views (`ComponentSlice`, `ComponentBytes` in
    src/internal/pixel.rs and their implementations in src/internal/rgb.rs).
    The source reinterprets the pixel buffer's memory without copying; here a
    buffer of N pixels is a sequence (or, for the mutable view, the caller's
    own array), and the reinterpretation is `Flatten`, which lists every
    pixel's channels in declaration order, one pixel after another. That is
    the layout the source's pointer casts take for granted; the records carry
    no `#[repr(C)]`, so it is an assumption of this model (see
    `RgbSliceOrderNotFixed`). */
module Views {
  import opened Wrappers
  import opened Pixels

  /** How a flat view sees one pixel record: its channel count, its channels in
      view order, and the record obtained by overwriting slot `k`. */
  datatype Layout<!P, !T> = Layout(arity: nat, channels: P -> seq<T>, withChannel: (P, nat, T) -> P)

  /** Every pixel is exactly `arity` scalars wide. */
  ghost predicate FixedArity<P(!new), T>(channels: P -> seq<T>, arity: nat) {
    forall p :: |channels(p)| == arity
  }

  /** What a flat view over a record needs of its layout: a fixed, non-zero
      number of scalars per record (no padding), and writing slot `k` of a
      pixel changes that slot and no other. Which field sits in which slot is
      not part of the law. */
  ghost predicate LayoutLaw<P(!new), T(!new)>(l: Layout<P, T>) {
    && l.arity > 0
    && FixedArity(l.channels, l.arity)
    && (forall p, k: nat, v | k < l.arity :: l.channels(l.withChannel(p, k, v)) == l.channels(p)[k := v])
  }

  /** Writing slot `k` (k < 3) of an RGB pixel seen as `[r, g, b]`. */
  function RgbWithChannel<T>(p: RGB<T>, k: nat, v: T): (q: RGB<T>)
    ensures k < 3 ==> RgbChannels(q) == RgbChannels(p)[k := v]
  {
    if k == 0 then p.(r := v) else if k == 1 then p.(g := v) else p.(b := v)
  }

  /** Writing slot `k` (k < 3) of a BGR pixel seen as `[b, g, r]`. */
  function BgrWithChannel<T>(p: BGR<T>, k: nat, v: T): (q: BGR<T>)
    ensures k < 3 ==> BgrChannels(q) == BgrChannels(p)[k := v]
  {
    if k == 0 then p.(b := v) else if k == 1 then p.(g := v) else p.(r := v)
  }

  /** Writing slot `k` (k < 3) of a GRB pixel seen as `[g, r, b]`. */
  function GrbWithChannel<T>(p: GRB<T>, k: nat, v: T): (q: GRB<T>)
    ensures k < 3 ==> GrbChannels(q) == GrbChannels(p)[k := v]
  {
    if k == 0 then p.(g := v) else if k == 1 then p.(r := v) else p.(b := v)
  }

  /** The three records that get `ComponentSlice` from `impl_rgb!`, seen as
      three scalars in declaration order: the layout `#[repr(C)]` would fix,
      assumed here. */
  function RgbLayout<T(!new)>(): (l: Layout<RGB<T>, T>)
    ensures LayoutLaw(l) && l.arity == 3
  {
    Layout(3, RgbChannels, RgbWithChannel)
  }

  function BgrLayout<T(!new)>(): (l: Layout<BGR<T>, T>)
    ensures LayoutLaw(l) && l.arity == 3
  {
    Layout(3, BgrChannels, BgrWithChannel)
  }

  function GrbLayout<T(!new)>(): (l: Layout<GRB<T>, T>)
    ensures LayoutLaw(l) && l.arity == 3
  {
    Layout(3, GrbChannels, GrbWithChannel)
  }

  /** Without `#[repr(C)]` the compiler may place the fields of `RGB` in another
      order, say green first. That layout meets the same law. */
  function RgbGreenFirstLayout<T(!new)>(): (l: Layout<RGB<T>, T>)
    ensures LayoutLaw(l) && l.arity == 3
    ensures forall p: RGB<T> :: l.channels(p) == [p.g, p.r, p.b]
  {
    Layout(3, (p: RGB<T>) => [p.g, p.r, p.b],
              (p: RGB<T>, k: nat, v: T) => if k == 0 then p.(g := v) else if k == 1 then p.(r := v) else p.(b := v))
  }

  /** As written, the flat view of `RGB8 { r: 1, g: 2, b: 3 }` is not pinned
      down: both layouts obey the law the casts rely on, yet the view reads
      `[1, 2, 3]` under one and `[2, 1, 3]` under the other. */
  lemma RgbSliceOrderNotFixed()
    ensures LayoutLaw(RgbLayout<u8>()) && LayoutLaw(RgbGreenFirstLayout<u8>())
    ensures Flatten([RGB(1, 2, 3)], RgbLayout<u8>().channels) == [1, 2, 3]
    ensures Flatten([RGB(1, 2, 3)], RgbGreenFirstLayout<u8>().channels) == [2, 1, 3]
  {
    FlattenSingle(RGB(1, 2, 3), RgbLayout<u8>().channels);
    FlattenSingle(RGB(1, 2, 3), RgbGreenFirstLayout<u8>().channels);
  }

  // ---------------------------------------------------------------------------
  // The flat view of a buffer
  // ---------------------------------------------------------------------------

  /** `as_slice` over a buffer: all channels of all pixels, pixel after pixel. */
  function Flatten<P, T>(ps: seq<P>, channels: P -> seq<T>): seq<T> {
    if ps == [] then [] else channels(ps[0]) + Flatten(ps[1..], channels)
  }

  lemma {:induction false} FlattenLength<P(!new), T>(ps: seq<P>, channels: P -> seq<T>, arity: nat)
    requires FixedArity(channels, arity)
    ensures |Flatten(ps, channels)| == |ps| * arity
  {
    if ps != [] {
      FlattenLength(ps[1..], channels, arity);
      assert |ps| * arity == arity + (|ps| - 1) * arity;
    }
  }

  /** Slot `j` of pixel `i` sits at flat position `i * arity + j`. */
  lemma {:induction false} FlattenAt<P(!new), T>(ps: seq<P>, channels: P -> seq<T>, arity: nat, i: nat, j: nat)
    requires FixedArity(channels, arity)
    requires i < |ps| && j < arity
    ensures i * arity + j < |Flatten(ps, channels)| == |ps| * arity
    ensures Flatten(ps, channels)[i * arity + j] == channels(ps[i])[j]
  {
    FlattenLength(ps, channels, arity);
    if i > 0 {
      FlattenAt(ps[1..], channels, arity, i - 1, j);
      assert i * arity + j == arity + ((i - 1) * arity + j);
    }
  }

  /** Splitting a flat position into a pixel index and a channel index. */
  lemma DivModSplit(k: nat, n: nat, arity: nat)
    requires k < n * arity
    ensures arity > 0 && k / arity < n && k % arity < arity
    ensures k == (k / arity) * arity + k % arity
  {
  }

  /** The index law of the flat view: position `k` holds channel `k % arity`
      of pixel `k / arity`. */
  lemma FlattenIndex<P(!new), T>(ps: seq<P>, channels: P -> seq<T>, arity: nat, k: nat)
    requires FixedArity(channels, arity)
    requires k < |ps| * arity
    ensures arity > 0 && k / arity < |ps|
    ensures |Flatten(ps, channels)| == |ps| * arity
    ensures Flatten(ps, channels)[k] == channels(ps[k / arity])[k % arity]
  {
    DivModSplit(k, |ps|, arity);
    FlattenAt(ps, channels, arity, k / arity, k % arity);
  }

  /** Overwriting slot `j` of pixel `i` is overwriting flat position
      `i * arity + j` of the view, and nothing else. */
  lemma {:induction false} FlattenUpdate<P(!new), T(!new)>(ps: seq<P>, l: Layout<P, T>, i: nat, j: nat, v: T)
    requires LayoutLaw(l)
    requires i < |ps| && j < l.arity
    ensures i * l.arity + j < |Flatten(ps, l.channels)|
    ensures Flatten(ps[i := l.withChannel(ps[i], j, v)], l.channels)
         == Flatten(ps, l.channels)[i * l.arity + j := v]
  {
    FlattenAt(ps, l.channels, l.arity, i, j);
    var ps' := ps[i := l.withChannel(ps[i], j, v)];
    if i == 0 {
      assert ps'[1..] == ps[1..];
    } else {
      FlattenUpdate(ps[1..], l, i - 1, j, v);
      assert ps'[1..] == ps[1..][i - 1 := l.withChannel(ps[i], j, v)];
      assert i * l.arity + j == l.arity + ((i - 1) * l.arity + j);
    }
  }

  /** `as_slice` over a slice of RGB pixels has 3N elements, and element `k` is
      channel `k % 3` of pixel `k / 3`. */
  lemma RgbSliceIndex<T(!new)>(ps: seq<RGB<T>>, k: nat)
    requires k < 3 * |ps|
    ensures |Flatten(ps, RgbChannels)| == 3 * |ps|
    ensures Flatten(ps, RgbChannels)[k] == RgbChannels(ps[k / 3])[k % 3]
  {
    FlattenIndex(ps, RgbChannels, 3, k);
  }

  /** The same for BGR: under the declaration-order layout a BGR buffer is
      seen blue-first. */
  lemma BgrSliceIndex<T(!new)>(ps: seq<BGR<T>>, k: nat)
    requires k < 3 * |ps|
    ensures |Flatten(ps, BgrChannels)| == 3 * |ps|
    ensures Flatten(ps, BgrChannels)[k] == BgrChannels(ps[k / 3])[k % 3]
  {
    FlattenIndex(ps, BgrChannels, 3, k);
  }

  /** The flat view of one pixel is its channel list. */
  lemma {:induction false} FlattenSingle<P, T>(p: P, channels: P -> seq<T>)
    ensures Flatten([p], channels) == channels(p)
  {
    assert [p][1..] == [];
  }

  /** Two RGB8 pixels (1, 2, 3) and (4, 5, 6) flatten to [1, 2, 3, 4, 5, 6]. */
  lemma TwoRgb8PixelsFlatten()
    ensures Flatten([RGB(1, 2, 3), RGB(4, 5, 6)], (p: RGB8) => RgbChannels(p)) == [1, 2, 3, 4, 5, 6]
  {
    var ps: seq<RGB8> := [RGB(1, 2, 3), RGB(4, 5, 6)];
    assert ps[1..][1..] == [];
  }

  // ---------------------------------------------------------------------------
  // The mutable flat view: an alias of the caller's buffer
  // ---------------------------------------------------------------------------

  /** `as_mut_slice` over a buffer of pixels: a view that shares the caller's
      array, so a write through it is a write to the buffer. */
  class ChannelSlice<P(!new), T(!new)> {
    const layout: Layout<P, T>
    const pixels: array<P>

    ghost predicate Valid() {
      LayoutLaw(layout)
    }

    constructor (layout: Layout<P, T>, pixels: array<P>)
      requires LayoutLaw(layout)
      ensures Valid() && this.layout == layout && this.pixels == pixels
    {
      this.layout := layout;
      this.pixels := pixels;
    }

    /** What the view shows: the flattened buffer. */
    function AsSlice(): (s: seq<T>)
      reads pixels
      requires Valid()
      ensures |s| == pixels.Length * layout.arity
    {
      FlattenLength(pixels[..], layout.channels, layout.arity);
      Flatten(pixels[..], layout.channels)
    }

    /** Reading element `k` of the view reads channel `k % arity` of pixel
        `k / arity`. */
    method Get(k: nat) returns (v: T)
      requires Valid()
      requires k < pixels.Length * layout.arity
      ensures v == AsSlice()[k]
      ensures k / layout.arity < pixels.Length
      ensures v == layout.channels(pixels[k / layout.arity])[k % layout.arity]
    {
      FlattenIndex(pixels[..], layout.channels, layout.arity, k);
      v := layout.channels(pixels[k / layout.arity])[k % layout.arity];
    }

    /** Writing element `k` of the view overwrites channel `k % arity` of pixel
        `k / arity` and changes no other channel and no other pixel. */
    method SetFlat(k: nat, v: T)
      requires Valid()
      requires k < pixels.Length * layout.arity
      modifies pixels
      ensures k / layout.arity < pixels.Length
      ensures pixels[k / layout.arity] == layout.withChannel(old(pixels[k / layout.arity]), k % layout.arity, v)
      ensures layout.channels(pixels[k / layout.arity])[k % layout.arity] == v
      ensures forall m | 0 <= m < layout.arity && m != k % layout.arity ::
                layout.channels(pixels[k / layout.arity])[m] == old(layout.channels(pixels[k / layout.arity])[m])
      ensures forall i | 0 <= i < pixels.Length && i != k / layout.arity :: pixels[i] == old(pixels[i])
      ensures AsSlice() == old(AsSlice())[k := v]
    {
      DivModSplit(k, pixels.Length, layout.arity);
      var i, j := k / layout.arity, k % layout.arity;
      ghost var before := pixels[..];
      pixels[i] := layout.withChannel(pixels[i], j, v);
      assert pixels[..] == before[i := layout.withChannel(before[i], j, v)];
      FlattenUpdate(before, layout, i, j, v);
    }
  }

  // ---------------------------------------------------------------------------
  // The byte view
  // ---------------------------------------------------------------------------

  /** `as_bytes` over a flat view whose scalar is `size` bytes wide and is laid
      out in memory as `encode` says (the host's native representation, which
      the "plain old data" capability promises is exactly `size` bytes for every
      value). A zero-sized scalar fails the assertion: `None`. */
  function AsBytes<T(!new)>(view: seq<T>, encode: T -> seq<u8>, size: nat): (r: Option<seq<u8>>)
    requires FixedArity(encode, size)
    ensures r.None? <==> size == 0
    ensures r.Some? ==> |r.value| == |view| * size
    ensures r.Some? ==> r.value == Flatten(view, encode)
  {
    if size == 0 then None
    else
      FlattenLength(view, encode, size);
      Some(Flatten(view, encode))
  }

  /** Byte `j` of the memory of flat element `i` sits at byte `i * size + j`. */
  lemma AsBytesAt<T(!new)>(view: seq<T>, encode: T -> seq<u8>, size: nat, i: nat, j: nat)
    requires FixedArity(encode, size)
    requires i < |view| && j < size
    ensures AsBytes(view, encode, size).Some?
    ensures i * size + j < |AsBytes(view, encode, size).value|
    ensures AsBytes(view, encode, size).value[i * size + j] == encode(view[i])[j]
  {
    FlattenAt(view, encode, size, i, j);
  }

  /** The memory of a one-byte scalar is that byte. */
  function U8Bytes(x: u8): seq<u8> {
    [x]
  }

  /** For u8 channels the byte view is the flat view, element for element. */
  lemma {:induction false} U8BytesAreChannels(view: seq<u8>)
    ensures AsBytes(view, U8Bytes, 1) == Some(view)
  {
    if view != [] {
      U8BytesAreChannels(view[1..]);
      assert view == [view[0]] + view[1..];
    }
  }

  /** `as_mut_bytes` over u8 channels covers the same storage as `as_mut_slice`:
      writing byte `k` is writing flat element `k`. */
  method SetByte<P(!new)>(s: ChannelSlice<P, u8>, k: nat, v: u8)
    requires s.Valid()
    requires k < s.pixels.Length * s.layout.arity
    modifies s.pixels
    ensures k / s.layout.arity < s.pixels.Length
    ensures s.pixels[k / s.layout.arity] == s.layout.withChannel(old(s.pixels[k / s.layout.arity]), k % s.layout.arity, v)
    ensures forall i | 0 <= i < s.pixels.Length && i != k / s.layout.arity :: s.pixels[i] == old(s.pixels[i])
    ensures old(AsBytes(s.AsSlice(), U8Bytes, 1)) == Some(old(s.AsSlice()))
    ensures AsBytes(s.AsSlice(), U8Bytes, 1) == Some(old(s.AsSlice())[k := v])
  {
    U8BytesAreChannels(s.AsSlice());
    s.SetFlat(k, v);
    U8BytesAreChannels(s.AsSlice());
  }
}
