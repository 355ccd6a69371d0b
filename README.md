# cr pixel types in Dafny

A model of the core of the `cr` pixel crate: the plain pixel structs
(`RGB`, `RGBA`, `BGR`, `BGRA`, `ABGR`, `ARGB`, `GRB`, `Gray`, `GrayAlpha`),
their derived equality, ordering and `Default`, the channel views
(`as_slice`, `as_mut_slice`, `as_bytes`, `as_mut_bytes`), the per-channel
mapping traits (`map`, `map_c`), the constructors (`new`, `alpha`,
`new_alpha`, `from_iter`, `Gray::new`, `From`, `gray()`), the arithmetic
operators generated by `impl_struct_ops_opaque!`, `impl_struct_ops_alpha!`
and `impl_scalar!` (including the `*Assign` forms and `Sum`), and the
conversions between pixels and fixed-size arrays.

Files:

- `pixels.dfy` — the pixel datatypes, type aliases, each record's channels in
  field declaration order, derived `Eq`/`Ord`/`Default`, the `Gray` helpers.
- `order.dfy` — `Ordering`, and the lexicographic comparison that a derived
  `Ord` performs field by field.
- `component_map.dfy` — `map` (every channel) and `map_c` (colour channels
  only, alpha kept).
- `views.dfy` — the flat scalar view of a pixel buffer, the index law of
  `as_slice`, the mutable view as a class sharing the caller's buffer, and
  the byte view of `as_bytes`/`as_mut_bytes`.
- `construct.dfy` — `new`, `alpha`, `new_alpha`, and `from_iter` over an
  iterator object whose `next` consumes a sequence.
- `fold.dfy` — the left fold used by `Sum`, with its concatenation laws.
- `struct_ops_opaque.dfy`, `struct_ops_alpha.dfy`, `scalar_ops.dfy` — the
  operators, both as value-returning functions and as in-place `*Assign`
  methods on a slot of a pixel array.
- `convert_array.dfy` — `From<[T; N]>` and `Into<[T; N]>`.

Modelling choices:

- Channels are generic where the source is generic (`map`, views, equality,
  ordering). Arithmetic is over mathematical integers: the source delegates
  to the scalar's own `+`, `-`, `*`, `/`, so overflow behaviour is whatever
  the scalar type does and is not modelled. Integer `/` follows Rust and
  truncates toward zero (`ScalarOps.TruncDiv`).
- A panic becomes `None`: `unwrap` on an exhausted iterator in `from_iter`,
  and the zero-size assertion in `as_bytes`. Division by zero is excluded by
  a precondition instead.
- A compound assignment `*self = …` is a method on slot `i` of an array of
  pixels, so the in-place update and the frame ("no other pixel changes") are
  both stated.
- The reinterpretation of `[P]` as `[T]` through a raw pointer is modelled by
  a `Layout`: how many scalars a pixel holds, the ordered list of them, and
  how writing one scalar rewrites the pixel. `LayoutLaw` states what the
  casts need: no padding, and writing slot `k` changes channel `k` and
  nothing else. Which field sits in which slot is an assumption: the model
  takes declaration order, which `#[repr(C)]` would guarantee, but the
  records declare no representation (see "## Findings"). `as_mut_slice` is a `ChannelSlice` object sharing the caller's
  array, so writes through it are writes to the pixels.
- `as_bytes` works from a caller-supplied native byte encoding of one scalar
  of fixed size (the role the `Pod` bound plays); for `u8` that encoding is
  the identity.
- `Sum` folds from `Default` with `+`; the fold of a concatenation is
  proved equal to the sum of the sums.

## Model

| member | source | states |
|---|---|---|
| `Order.LexCmp` | src/lib.rs:19 | definition: the field-by-field comparison a derived `Ord` performs; its laws are `Order.LexCmpEqual`, `Order.LexCmpReverse`, `Order.LexCmpFirstDifference` |
| `Order.ThenLaws` | src/lib.rs:19 | the chaining a derived `Ord` uses between fields is associative, ends in `Equal` neutrally, is `Equal` iff both links are, and reverses link by link |
| `Order.LexCmpEqual` | src/lib.rs:19 | derived `Ord` compares `Equal` exactly on equal channel lists, given a scalar comparison that does |
| `Order.LexCmpReverse` | src/lib.rs:19 | swapping the operands of the derived comparison reverses its result |
| `Order.LexCmpFirstDifference` | src/lib.rs:19 | the first channel where two pixels differ decides the derived comparison |
| `Pixels.RgbChannels` | src/lib.rs:20-27 | an RGB pixel has exactly three channels, listed r, g, b |
| `Pixels.BgrChannels` | src/alt.rs:3-11 | a BGR pixel has exactly three channels, listed b, g, r |
| `Pixels.GrbChannels` | src/alt.rs:79-88 | a GRB pixel has exactly three channels, listed g, r, b |
| `Pixels.GrayChannels` | src/alt.rs:94-97 | a Gray pixel has exactly one channel, its brightness |
| `Pixels.RgbaColors` | src/lib.rs:29-39 | the colours of RGBA, whatever the alpha type, are laid out as the RGB with the same r, g, b |
| `Pixels.BgraColors` | src/alt.rs:13-23 | the colours of BGRA are laid out as the BGR with the same b, g, r |
| `Pixels.ArgbColors` | src/alt.rs:38-49 | the colours of ARGB are laid out as the RGB with the same r, g, b |
| `Pixels.AbgrColors` | src/alt.rs:25-36 | the colours of ABGR are laid out as the BGR with the same b, g, r |
| `Pixels.RgbaChannels` | src/lib.rs:29-39 | with alpha of the colour type, RGBA lists its colours and then alpha |
| `Pixels.BgraChannels` | src/alt.rs:13-23 | BGRA lists b, g, r and then alpha |
| `Pixels.ArgbChannels` | src/alt.rs:38-49 | ARGB lists alpha first, then r, g, b |
| `Pixels.AbgrChannels` | src/alt.rs:25-36 | ABGR lists alpha first, then b, g, r |
| `Pixels.GrayAlphaChannels` | src/alt.rs:99-101 | GrayAlpha lists brightness, then alpha |
| `Pixels.RgbEqualIffChannels` | src/lib.rs:19-27 | derived equality: two RGB pixels are equal iff every channel is equal |
| `Pixels.RgbaEqualIffChannels` | src/lib.rs:29-39 | derived equality: two RGBA pixels are equal iff every channel is equal |
| `Pixels.BgrEqualIffChannels` | src/alt.rs:3-11 | derived equality: two BGR pixels are equal iff every channel is equal |
| `Pixels.BgraEqualIffChannels` | src/alt.rs:13-23 | derived equality: two BGRA pixels are equal iff every channel is equal |
| `Pixels.AbgrEqualIffChannels` | src/alt.rs:26-36 | derived equality: two ABGR pixels are equal iff every channel is equal |
| `Pixels.ArgbEqualIffChannels` | src/alt.rs:39-49 | derived equality: two ARGB pixels are equal iff every channel is equal |
| `Pixels.GrbEqualIffChannels` | src/alt.rs:80-88 | derived equality: two GRB pixels are equal iff every channel is equal |
| `Pixels.GrayEqualIffChannels` | src/alt.rs:94-97 | derived equality: two Gray pixels are equal iff their brightness is |
| `Pixels.GrayAlphaEqualIffChannels` | src/alt.rs:99-101 | derived equality: two GrayAlpha pixels are equal iff brightness and alpha are |
| `Pixels.RgbDefault` | src/lib.rs:19 | `Default` sets r, g and b to the scalar default |
| `Pixels.RgbaDefault` | src/lib.rs:29 | `Default` sets the colours to the scalar default and alpha to the alpha default |
| `Pixels.BgrDefault` | src/alt.rs:3 | `Default` sets every channel to the scalar default |
| `Pixels.BgraDefault` | src/alt.rs:13 | `Default` sets the colours to the scalar default and alpha to the alpha default |
| `Pixels.AbgrDefault` | src/alt.rs:26 | `Default` sets the colours to the scalar default and alpha to the alpha default |
| `Pixels.ArgbDefault` | src/alt.rs:39 | `Default` sets the colours to the scalar default and alpha to the alpha default |
| `Pixels.GrbDefault` | src/alt.rs:80 | `Default` sets every channel to the scalar default |
| `Pixels.GrayDefault` | src/alt.rs:94 | `Default` sets the brightness to the scalar default |
| `Pixels.GrayAlphaDefault` | src/alt.rs:99 | `Default` sets brightness and alpha to their defaults |
| `Pixels.RgbCmp` | src/lib.rs:19-27 | definition: derived `Ord::cmp` of RGB, field by field; its law is `Pixels.RgbCmpIsLex` |
| `Pixels.RgbaCmp` | src/lib.rs:29-39 | definition: derived `Ord::cmp` of RGBA with its own alpha comparison; its law is `Pixels.RgbaCmpColorsThenAlpha` |
| `Pixels.BgrCmp` | src/alt.rs:3-11 | definition: derived `Ord::cmp` of BGR; its law is `Pixels.BgrCmpIsLex` |
| `Pixels.BgraCmp` | src/alt.rs:13-23 | definition: derived `Ord::cmp` of BGRA; its law is `Pixels.BgraCmpColorsThenAlpha` |
| `Pixels.AbgrCmp` | src/alt.rs:26-36 | definition: derived `Ord::cmp` of ABGR; its law is `Pixels.AbgrCmpAlphaThenColors` |
| `Pixels.ArgbCmp` | src/alt.rs:39-49 | definition: derived `Ord::cmp` of ARGB; its law is `Pixels.ArgbCmpAlphaThenColors` |
| `Pixels.GrbCmp` | src/alt.rs:80-88 | definition: derived `Ord::cmp` of GRB; its law is `Pixels.GrbCmpIsLex` |
| `Pixels.GrayCmp` | src/alt.rs:94-97 | definition: derived `Ord::cmp` of Gray; its law is `Pixels.GrayCmpIsLex` |
| `Pixels.GrayAlphaCmp` | src/alt.rs:99-101 | definition: derived `Ord::cmp` of GrayAlpha; its law is `Pixels.GrayAlphaCmpBrightnessThenAlpha` |
| `Pixels.RgbCmpIsLex` | src/lib.rs:19-27 | derived RGB ordering is lexicographic over r, g, b |
| `Pixels.RgbaCmpIsLex` | src/lib.rs:29-39 | derived RGBA ordering is lexicographic over r, g, b, a, when alpha has the colour type (the general case is `Pixels.RgbaCmpColorsThenAlpha`) |
| `Pixels.BgrCmpIsLex` | src/alt.rs:3-11 | derived BGR ordering is lexicographic over b, g, r |
| `Pixels.BgraCmpIsLex` | src/alt.rs:13-23 | derived BGRA ordering is lexicographic over b, g, r, a, when alpha has the colour type (general case: `Pixels.BgraCmpColorsThenAlpha`) |
| `Pixels.AbgrCmpIsLex` | src/alt.rs:25-36 | derived ABGR ordering is lexicographic over a, b, g, r, when alpha has the colour type (general case: `Pixels.AbgrCmpAlphaThenColors`) |
| `Pixels.ArgbCmpIsLex` | src/alt.rs:38-49 | derived ARGB ordering is lexicographic over a, r, g, b, when alpha has the colour type (general case: `Pixels.ArgbCmpAlphaThenColors`) |
| `Pixels.GrbCmpIsLex` | src/alt.rs:79-88 | derived GRB ordering is lexicographic over g, r, b |
| `Pixels.GrayCmpIsLex` | src/alt.rs:94-97 | derived Gray ordering is the comparison of the brightness, as a one-element lexicographic comparison |
| `Pixels.RgbaCmpColorsThenAlpha` | src/lib.rs:29-39 | for any alpha type, derived RGBA ordering compares r, g, b lexicographically, then alpha |
| `Pixels.BgraCmpColorsThenAlpha` | src/alt.rs:13-23 | for any alpha type, derived BGRA ordering compares b, g, r lexicographically, then alpha |
| `Pixels.AbgrCmpAlphaThenColors` | src/alt.rs:26-36 | for any alpha type, derived ABGR ordering compares alpha, then b, g, r lexicographically |
| `Pixels.ArgbCmpAlphaThenColors` | src/alt.rs:39-49 | for any alpha type, derived ARGB ordering compares alpha, then r, g, b lexicographically |
| `Pixels.GrayAlphaCmpBrightnessThenAlpha` | src/alt.rs:99-101 | for any alpha type, derived GrayAlpha ordering is the one-element lexicographic comparison of the brightness, then alpha |
| `Pixels.GrayAlphaCmpIsLex` | src/alt.rs:99-101 | derived GrayAlpha ordering is lexicographic over brightness, alpha, when alpha has the brightness type (general case: `Pixels.GrayAlphaCmpBrightnessThenAlpha`) |
| `Pixels.RgbCmpEqualIff` | src/lib.rs:19-27 | derived `Eq` and `Ord` agree: RGB compares `Equal` iff the pixels are equal, given scalar comparisons that do |
| `Pixels.RgbCmpReverse` | src/lib.rs:19-27 | the derived RGB ordering is antisymmetric when the scalar comparisons are |
| `Pixels.BgrCmpEqualIff` | src/alt.rs:3-11 | derived `Eq` and `Ord` agree: BGR compares `Equal` iff the pixels are equal, given scalar comparisons that do |
| `Pixels.BgrCmpReverse` | src/alt.rs:3-11 | the derived BGR ordering is antisymmetric when the scalar comparisons are |
| `Pixels.GrbCmpEqualIff` | src/alt.rs:80-88 | derived `Eq` and `Ord` agree: GRB compares `Equal` iff the pixels are equal, given scalar comparisons that do |
| `Pixels.GrbCmpReverse` | src/alt.rs:80-88 | the derived GRB ordering is antisymmetric when the scalar comparisons are |
| `Pixels.GrayCmpEqualIff` | src/alt.rs:94-97 | derived `Eq` and `Ord` agree: Gray compares `Equal` iff the pixels are equal, given scalar comparisons that do |
| `Pixels.GrayCmpReverse` | src/alt.rs:94-97 | the derived Gray ordering is antisymmetric when the scalar comparisons are |
| `Pixels.RgbaCmpEqualIff` | src/lib.rs:29-39 | derived `Eq` and `Ord` agree: RGBA compares `Equal` iff the pixels are equal, given scalar comparisons that do, for any alpha type (given alpha comparisons that do likewise) |
| `Pixels.RgbaCmpReverse` | src/lib.rs:29-39 | the derived RGBA ordering is antisymmetric when the scalar comparisons are, for any alpha type |
| `Pixels.BgraCmpEqualIff` | src/alt.rs:13-23 | derived `Eq` and `Ord` agree: BGRA compares `Equal` iff the pixels are equal, given scalar comparisons that do, for any alpha type (given alpha comparisons that do likewise) |
| `Pixels.BgraCmpReverse` | src/alt.rs:13-23 | the derived BGRA ordering is antisymmetric when the scalar comparisons are, for any alpha type |
| `Pixels.AbgrCmpEqualIff` | src/alt.rs:26-36 | derived `Eq` and `Ord` agree: ABGR compares `Equal` iff the pixels are equal, given scalar comparisons that do, for any alpha type (given alpha comparisons that do likewise) |
| `Pixels.AbgrCmpReverse` | src/alt.rs:26-36 | the derived ABGR ordering is antisymmetric when the scalar comparisons are, for any alpha type |
| `Pixels.ArgbCmpEqualIff` | src/alt.rs:39-49 | derived `Eq` and `Ord` agree: ARGB compares `Equal` iff the pixels are equal, given scalar comparisons that do, for any alpha type (given alpha comparisons that do likewise) |
| `Pixels.ArgbCmpReverse` | src/alt.rs:39-49 | the derived ARGB ordering is antisymmetric when the scalar comparisons are, for any alpha type |
| `Pixels.GrayAlphaCmpEqualIff` | src/alt.rs:99-101 | derived `Eq` and `Ord` agree: GrayAlpha compares `Equal` iff the pixels are equal, given scalar comparisons that do, for any alpha type (given alpha comparisons that do likewise) |
| `Pixels.GrayAlphaCmpReverse` | src/alt.rs:99-101 | the derived GrayAlpha ordering is antisymmetric when the scalar comparisons are, for any alpha type |
| `Pixels.RgbCmpRedFirst` | src/lib.rs:19-27 | when the reds differ they alone decide the RGB ordering |
| `Pixels.BgrCmpBlueFirst` | src/alt.rs:3-11 | when the blues differ they alone decide the BGR ordering |
| `Pixels.BgrOrderDiffersFromRgb` | src/alt.rs:3-11 | the same two colours sort one way as RGB and the other way as BGR |
| `Pixels.GrayNew` | src/alt.rs:115-121 | `Gray::new(x)` dereferences to x |
| `Pixels.GrayDeref` | src/alt.rs:132-137 | `Deref` yields the pixel's only channel |
| `Pixels.GrayDerefRoundTrip` | src/alt.rs:124-138 | `*Gray(v) == v`, and rebuilding from the brightness gives the pixel back |
| `Pixels.GrayFrom` | src/alt.rs:143-147 | `Gray::from(x)` is `Gray::new(x)` |
| `Pixels.GrayAlphaGray` | src/alt.rs:149-155 | `gray()` keeps the brightness |
| `Pixels.GrayAlphaGrayIgnoresAlpha` | src/alt.rs:149-155 | `gray()` drops alpha: pixels differing only in alpha give the same Gray |
| `ComponentMap.RgbMap` | src/internal/rgb.rs:52-64 | `map` applies f to each of the 3 channels of RGB, in place of that channel |
| `ComponentMap.RgbMapC` | src/internal/rgb.rs:66-78 | for alpha-less RGB, `map_c` gives exactly what `map` gives |
| `ComponentMap.BgrMap` | src/internal/rgb.rs:52-64 | `map` applies f to each of the 3 channels of BGR, in place of that channel |
| `ComponentMap.BgrMapC` | src/internal/rgb.rs:66-78 | for alpha-less BGR, `map_c` gives exactly what `map` gives |
| `ComponentMap.GrbMap` | src/internal/rgb.rs:52-64 | `map` applies f to each of the 3 channels of GRB, in place of that channel |
| `ComponentMap.GrbMapC` | src/internal/rgb.rs:66-78 | for alpha-less GRB, `map_c` gives exactly what `map` gives |
| `ComponentMap.GrayMap` | src/internal/pixel.rs:73-80 | `map` applies f to the brightness |
| `ComponentMap.GrayMapC` | src/internal/pixel.rs:82-87 | Gray has no alpha, so `map_c` is `map` |
| `ComponentMap.RgbaMap` | src/internal/pixel.rs:73-80 | `map` applies f to all 4 channels of RGBA, alpha included |
| `ComponentMap.RgbaMapC` | src/internal/pixel.rs:82-87 | `map_c` applies f to the colour channels of RGBA and leaves alpha unchanged |
| `ComponentMap.BgraMap` | src/internal/pixel.rs:73-80 | `map` applies f to all 4 channels of BGRA, alpha included |
| `ComponentMap.BgraMapC` | src/internal/pixel.rs:82-87 | `map_c` applies f to the colour channels of BGRA and leaves alpha unchanged |
| `ComponentMap.ArgbMap` | src/internal/pixel.rs:73-80 | `map` applies f to all 4 channels of ARGB, alpha included |
| `ComponentMap.ArgbMapC` | src/internal/pixel.rs:82-87 | `map_c` applies f to the colour channels of ARGB and leaves alpha unchanged |
| `ComponentMap.AbgrMap` | src/internal/pixel.rs:73-80 | `map` applies f to all 4 channels of ABGR, alpha included |
| `ComponentMap.AbgrMapC` | src/internal/pixel.rs:82-87 | `map_c` applies f to the colour channels of ABGR and leaves alpha unchanged |
| `ComponentMap.GrayAlphaMap` | src/internal/pixel.rs:73-80 | `map` applies f to all 2 channels of GrayAlpha, alpha included |
| `ComponentMap.GrayAlphaMapC` | src/internal/pixel.rs:82-87 | `map_c` applies f to the colour channels of GrayAlpha and leaves alpha unchanged |
| `ComponentMap.RgbaMapAgreesWithMapC` | src/internal/pixel.rs:73-87 | on RGBA, `map` and `map_c` agree on colours; only `map` changes alpha |
| `Views.RgbWithChannel` | src/internal/rgb.rs:86-89 | writing slot k < 3 of a single RGB pixel's mutable view replaces channel k of [r, g, b] and keeps the others |
| `Views.BgrWithChannel` | src/internal/rgb.rs:86-89 | writing slot k < 3 of a BGR pixel's mutable view replaces channel k of [b, g, r] and keeps the others |
| `Views.GrbWithChannel` | src/internal/rgb.rs:86-89 | writing slot k < 3 of a GRB pixel's mutable view replaces channel k of [g, r, b] and keeps the others |
| `Views.RgbLayout` | src/internal/rgb.rs:80-90 | RGB seen as 3 scalars in declaration order (the layout assumed, as `#[repr(C)]` would fix): fixed width 3, writing slot k changes channel k only |
| `Views.BgrLayout` | src/internal/rgb.rs:80-90 | BGR seen as 3 scalars [b, g, r] under the same assumption, with the same law |
| `Views.GrbLayout` | src/internal/rgb.rs:80-90 | GRB seen as 3 scalars [g, r, b] under the same assumption, with the same law |
| `Views.RgbGreenFirstLayout` | src/internal/rgb.rs:83 | a green-first field order, which the default representation permits, satisfies the same layout law |
| `Views.RgbSliceOrderNotFixed` | src/internal/rgb.rs:83 | as written, the flat view of RGB8 (1, 2, 3) is [1, 2, 3] under one lawful layout and [2, 1, 3] under another |
| `Views.Flatten` | src/internal/rgb.rs:92-96 | definition: `as_slice` over a pixel buffer, each pixel's channels in turn; its laws are `Views.FlattenLength`, `Views.FlattenIndex`, `Views.FlattenUpdate` |
| `Views.FlattenLength` | src/internal/rgb.rs:92-96 | the flat view of N pixels has N × arity elements |
| `Views.FlattenAt` | src/internal/rgb.rs:92-96 | slot j of pixel i sits at flat position i × arity + j |
| `Views.FlattenIndex` | src/internal/rgb.rs:92-96 | flat element k is channel k mod arity of pixel k div arity |
| `Views.FlattenUpdate` | src/internal/rgb.rs:98-103 | overwriting one channel of one pixel overwrites exactly one flat element |
| `Views.RgbSliceIndex` | src/internal/rgb.rs:92-96 | under the declaration-order layout, `as_slice` over N RGB pixels has 3N elements; element k is channel k mod 3 of pixel k div 3 |
| `Views.BgrSliceIndex` | src/internal/rgb.rs:92-96 | the same index law for BGR buffers under the declaration-order layout, blue first |
| `Views.FlattenSingle` | src/internal/rgb.rs:80-84 | the flat view of one pixel is its channel list |
| `Views.TwoRgb8PixelsFlatten` | src/internal/rgb.rs:92-96 | two RGB8 pixels (1,2,3), (4,5,6) flatten to [1,2,3,4,5,6] |
| `Views.ChannelSlice.constructor` | src/internal/rgb.rs:98-103 | the mutable view shares the caller's buffer |
| `Views.ChannelSlice.AsSlice` | src/internal/rgb.rs:92-96 | the view shows N × arity scalars |
| `Views.ChannelSlice.Get` | src/internal/rgb.rs:92-96 | reading element k of the view reads channel k mod arity of pixel k div arity |
| `Views.ChannelSlice.SetFlat` | src/internal/rgb.rs:98-103 | writing element k changes exactly channel k mod arity of pixel k div arity; other pixels and channels unchanged; the view equals the old view with k overwritten |
| `Views.AsBytes` | src/internal/pixel.rs:38-51 | `as_bytes` fails iff the scalar is zero-sized; else its length is flat length × size, made of each element's bytes in order |
| `Views.AsBytesAt` | src/internal/pixel.rs:49 | byte j of flat element i sits at byte i × size + j, so the byte view starts at the first flat element |
| `Views.U8BytesAreChannels` | src/internal/pixel.rs:49 | for u8 channels the byte view equals the flat view element for element |
| `Views.SetByte` | src/internal/pixel.rs:53-60 | over u8 channels, writing byte k of `as_mut_bytes` rewrites channel k mod arity of pixel k div arity, leaves every other pixel unchanged, and the new bytes are the old flat view with element k replaced |
| `Views.DivModSplit` | src/internal/rgb.rs:92-96 | a flat position below N × arity lies in pixel k div arity < N, at channel k mod arity < arity |
| `Construct.RgbNew` | src/internal/rgb.rs:12-19 | `RGB::new(r, g, b)` lists r, g, b |
| `Construct.BgrNew` | src/internal/rgb.rs:21-26 | `BGR::new` takes its arguments in b, g, r order |
| `Construct.NewSameColour` | src/internal/rgb.rs:12-26 | `RGB::new(r, g, b)` and `BGR::new(b, g, r)` hold the same colour |
| `Construct.RgbNewAlpha` | src/internal/rgb.rs:127-136 | `new_alpha` copies r, g, b and sets alpha, of any type, to a |
| `Construct.RgbAlpha` | src/internal/rgb.rs:117-125 | `alpha(a)` is `new_alpha(a)`; the flat view gains a at the end |
| `Construct.BgrNewAlpha` | src/internal/rgb.rs:127-136 | BGR `new_alpha` copies b, g, r and sets alpha to a |
| `Construct.BgrAlpha` | src/internal/rgb.rs:117-125 | BGR `alpha(a)` is `new_alpha(a)`; the flat view gains a at the end |
| `Construct.SeqIter.constructor` | src/internal/rgb.rs:155 | an iterator over the given values |
| `Construct.SeqIter.Next` | src/internal/rgb.rs:158-160 | `next` yields the first remaining value, or nothing when exhausted |
| `Construct.RgbCollect` | src/internal/rgb.rs:150-163 | fails iff fewer than 3 values; otherwise the channels are the first three |
| `Construct.RgbFromIter` | src/internal/rgb.rs:150-163 | `from_iter` takes three values in turn, panics on a missing one, ignores the rest |
| `Construct.CollectChannels` | src/internal/rgb.rs:150-163 | collecting a pixel's flat view, followed by anything, gives the pixel back |
| `Construct.MapIsCollectOfMappedIter` | src/internal/pixel.rs:74-77 | `map` equals `iter().map(f).collect()` |
| `Fold.FoldLeft` | src/internal/ops.rs:103-107 | the fold of nothing is the start; of one element, one combination |
| `Fold.FoldLeftAppend` | src/internal/ops.rs:103-107 | a left fold over a concatenation continues from the first part's result |
| `Fold.FoldLeftFromAccumulator` | src/internal/ops.rs:103-107 | with an associative operation and identity, folding from an accumulator combines it with the fold from the identity |
| `Fold.FoldLeftConcat` | src/internal/ops.rs:103-107 | with a monoid, the fold of a concatenation combines the folds of the parts |
| `StructOpsOpaque.RgbAdd` | src/internal/ops.rs:19-31 | RGB p + q: each output channel is p's channel + q's matching channel |
| `StructOpsOpaque.RgbSub` | src/internal/ops.rs:75-87 | RGB p - q: each output channel is p's channel - q's matching channel |
| `StructOpsOpaque.RgbMul` | src/internal/ops.rs:47-59 | RGB p × q: each output channel is p's channel × q's matching channel |
| `StructOpsOpaque.RgbAddAssign` | src/internal/ops.rs:33-45 | `+=` leaves the slot equal to old value + other; no other slot changes |
| `StructOpsOpaque.RgbSubAssign` | src/internal/ops.rs:89-101 | `-=` leaves the slot equal to old value - other; no other slot changes |
| `StructOpsOpaque.RgbMulAssign` | src/internal/ops.rs:61-73 | `×=` leaves the slot equal to old value × other; no other slot changes |
| `StructOpsOpaque.RgbSum` | src/internal/ops.rs:103-108 | sum of no RGB pixels is the all-zero default; of one pixel, that pixel |
| `StructOpsOpaque.RgbSumPair` | src/internal/ops.rs:103-108 | sum of [p, q] is (default + p) + q, which is p + q |
| `StructOpsOpaque.RgbSumConcat` | src/internal/ops.rs:103-108 | sum of a concatenation is the sum of the parts' sums |
| `StructOpsOpaque.GrbAdd` | src/internal/ops.rs:19-31 | GRB p + q: each output channel is p's channel + q's matching channel |
| `StructOpsOpaque.GrbSub` | src/internal/ops.rs:75-87 | GRB p - q: each output channel is p's channel - q's matching channel |
| `StructOpsOpaque.GrbMul` | src/internal/ops.rs:47-59 | GRB p × q: each output channel is p's channel × q's matching channel |
| `StructOpsOpaque.GrbAddAssign` | src/internal/ops.rs:33-45 | `+=` leaves the slot equal to old value + other; no other slot changes |
| `StructOpsOpaque.GrbSubAssign` | src/internal/ops.rs:89-101 | `-=` leaves the slot equal to old value - other; no other slot changes |
| `StructOpsOpaque.GrbMulAssign` | src/internal/ops.rs:61-73 | `×=` leaves the slot equal to old value × other; no other slot changes |
| `StructOpsOpaque.GrbSum` | src/internal/ops.rs:103-108 | sum of no GRB pixels is the all-zero default; of one pixel, that pixel |
| `StructOpsOpaque.GrbSumPair` | src/internal/ops.rs:103-108 | sum of [p, q] is (default + p) + q, which is p + q |
| `StructOpsOpaque.GrbSumConcat` | src/internal/ops.rs:103-108 | sum of a concatenation is the sum of the parts' sums |
| `StructOpsOpaque.GrayAdd` | src/internal/ops.rs:19-31 | Gray p + q: each output channel is p's channel + q's matching channel |
| `StructOpsOpaque.GraySub` | src/internal/ops.rs:75-87 | Gray p - q: each output channel is p's channel - q's matching channel |
| `StructOpsOpaque.GrayMul` | src/internal/ops.rs:47-59 | Gray p × q: each output channel is p's channel × q's matching channel |
| `StructOpsOpaque.GrayAddAssign` | src/internal/ops.rs:33-45 | `+=` leaves the slot equal to old value + other; no other slot changes |
| `StructOpsOpaque.GraySubAssign` | src/internal/ops.rs:89-101 | `-=` leaves the slot equal to old value - other; no other slot changes |
| `StructOpsOpaque.GrayMulAssign` | src/internal/ops.rs:61-73 | `×=` leaves the slot equal to old value × other; no other slot changes |
| `StructOpsOpaque.GraySum` | src/internal/ops.rs:103-108 | sum of no Gray pixels is the all-zero default; of one pixel, that pixel |
| `StructOpsOpaque.GraySumPair` | src/internal/ops.rs:103-108 | sum of [p, q] is (default + p) + q, which is p + q |
| `StructOpsOpaque.GraySumConcat` | src/internal/ops.rs:103-108 | sum of a concatenation is the sum of the parts' sums |
| `StructOpsAlpha.RgbaAdd` | src/internal/ops.rs:114-126 | RGBA p + q: each output channel is p's channel + q's matching channel, alpha included |
| `StructOpsAlpha.RgbaSub` | src/internal/ops.rs:143-155 | RGBA p - q: each output channel is p's channel - q's matching channel, alpha included |
| `StructOpsAlpha.RgbaAddAssign` | src/internal/ops.rs:128-141 | `+=` leaves the slot equal to old value + other; no other slot changes |
| `StructOpsAlpha.RgbaSubAssign` | src/internal/ops.rs:157-170 | `-=` leaves the slot equal to old value - other; no other slot changes |
| `StructOpsAlpha.RgbaSum` | src/internal/ops.rs:172-177 | sum of no RGBA pixels is the all-zero default; of one pixel, that pixel |
| `StructOpsAlpha.RgbaSumPair` | src/internal/ops.rs:172-177 | sum of [p, q] is (default + p) + q, which is p + q |
| `StructOpsAlpha.RgbaSumConcat` | src/internal/ops.rs:172-177 | sum of a concatenation is the sum of the parts' sums |
| `StructOpsAlpha.ArgbAdd` | src/internal/ops.rs:114-126 | ARGB p + q: each output channel is p's channel + q's matching channel, alpha included |
| `StructOpsAlpha.ArgbSub` | src/internal/ops.rs:143-155 | ARGB p - q: each output channel is p's channel - q's matching channel, alpha included |
| `StructOpsAlpha.ArgbAddAssign` | src/internal/ops.rs:128-141 | `+=` leaves the slot equal to old value + other; no other slot changes |
| `StructOpsAlpha.ArgbSubAssign` | src/internal/ops.rs:157-170 | `-=` leaves the slot equal to old value - other; no other slot changes |
| `StructOpsAlpha.ArgbSum` | src/internal/ops.rs:172-177 | sum of no ARGB pixels is the all-zero default; of one pixel, that pixel |
| `StructOpsAlpha.ArgbSumPair` | src/internal/ops.rs:172-177 | sum of [p, q] is (default + p) + q, which is p + q |
| `StructOpsAlpha.ArgbSumConcat` | src/internal/ops.rs:172-177 | sum of a concatenation is the sum of the parts' sums |
| `StructOpsAlpha.GrayAlphaAdd` | src/internal/ops.rs:114-126 | GrayAlpha p + q: each output channel is p's channel + q's matching channel, alpha included |
| `StructOpsAlpha.GrayAlphaSub` | src/internal/ops.rs:143-155 | GrayAlpha p - q: each output channel is p's channel - q's matching channel, alpha included |
| `StructOpsAlpha.GrayAlphaAddAssign` | src/internal/ops.rs:128-141 | `+=` leaves the slot equal to old value + other; no other slot changes |
| `StructOpsAlpha.GrayAlphaSubAssign` | src/internal/ops.rs:157-170 | `-=` leaves the slot equal to old value - other; no other slot changes |
| `StructOpsAlpha.GrayAlphaSum` | src/internal/ops.rs:172-177 | sum of no GrayAlpha pixels is the all-zero default; of one pixel, that pixel |
| `StructOpsAlpha.GrayAlphaSumPair` | src/internal/ops.rs:172-177 | sum of [p, q] is (default + p) + q, which is p + q |
| `StructOpsAlpha.GrayAlphaSumConcat` | src/internal/ops.rs:172-177 | sum of a concatenation is the sum of the parts' sums |
| `StructOpsOpaque.GrayAddExample` | src/internal/ops.rs:298 | Gray(5) + Gray(3) == Gray(8) |
| `ScalarOps.TruncDiv` | src/internal/ops.rs:263-264 | integer `/` truncates toward zero: magnitude |x| div |d|, sign negative iff operand signs differ; agrees with `/` on non-negative operands |
| `ScalarOps.RgbSubScalar` | src/internal/ops.rs:183-194 | RGB p - r: every channel is that channel - r |
| `ScalarOps.RgbSubAssignScalar` | src/internal/ops.rs:196-205 | `-=` r leaves the slot equal to old value - r; no other slot changes |
| `ScalarOps.RgbAddScalar` | src/internal/ops.rs:207-218 | RGB p + r: every channel is that channel + r |
| `ScalarOps.RgbAddAssignScalar` | src/internal/ops.rs:220-229 | `+=` r leaves the slot equal to old value + r; no other slot changes |
| `ScalarOps.RgbMulScalar` | src/internal/ops.rs:231-242 | RGB p × r: every channel is that channel × r |
| `ScalarOps.RgbMulAssignScalar` | src/internal/ops.rs:244-253 | `×=` r leaves the slot equal to old value × r; no other slot changes |
| `ScalarOps.RgbDivScalar` | src/internal/ops.rs:255-266 | RGB p / r: every channel is that channel / r (truncating), r ≠ 0 |
| `ScalarOps.RgbDivAssignScalar` | src/internal/ops.rs:268-277 | `/=` r leaves the slot equal to old value / r; no other slot changes |
| `ScalarOps.RgbaSubScalar` | src/internal/ops.rs:183-194 | RGBA p - r: every channel (alpha included) is that channel - r |
| `ScalarOps.RgbaSubAssignScalar` | src/internal/ops.rs:196-205 | `-=` r leaves the slot equal to old value - r; no other slot changes |
| `ScalarOps.RgbaAddScalar` | src/internal/ops.rs:207-218 | RGBA p + r: every channel (alpha included) is that channel + r |
| `ScalarOps.RgbaAddAssignScalar` | src/internal/ops.rs:220-229 | `+=` r leaves the slot equal to old value + r; no other slot changes |
| `ScalarOps.RgbaMulScalar` | src/internal/ops.rs:231-242 | RGBA p × r: every channel (alpha included) is that channel × r |
| `ScalarOps.RgbaMulAssignScalar` | src/internal/ops.rs:244-253 | `×=` r leaves the slot equal to old value × r; no other slot changes |
| `ScalarOps.RgbaDivScalar` | src/internal/ops.rs:255-266 | RGBA p / r: every channel (alpha included) is that channel / r (truncating), r ≠ 0 |
| `ScalarOps.RgbaDivAssignScalar` | src/internal/ops.rs:268-277 | `/=` r leaves the slot equal to old value / r; no other slot changes |
| `ScalarOps.ArgbSubScalar` | src/internal/ops.rs:183-194 | ARGB p - r: every channel (alpha included) is that channel - r |
| `ScalarOps.ArgbSubAssignScalar` | src/internal/ops.rs:196-205 | `-=` r leaves the slot equal to old value - r; no other slot changes |
| `ScalarOps.ArgbAddScalar` | src/internal/ops.rs:207-218 | ARGB p + r: every channel (alpha included) is that channel + r |
| `ScalarOps.ArgbAddAssignScalar` | src/internal/ops.rs:220-229 | `+=` r leaves the slot equal to old value + r; no other slot changes |
| `ScalarOps.ArgbMulScalar` | src/internal/ops.rs:231-242 | ARGB p × r: every channel (alpha included) is that channel × r |
| `ScalarOps.ArgbMulAssignScalar` | src/internal/ops.rs:244-253 | `×=` r leaves the slot equal to old value × r; no other slot changes |
| `ScalarOps.ArgbDivScalar` | src/internal/ops.rs:255-266 | ARGB p / r: every channel (alpha included) is that channel / r (truncating), r ≠ 0 |
| `ScalarOps.ArgbDivAssignScalar` | src/internal/ops.rs:268-277 | `/=` r leaves the slot equal to old value / r; no other slot changes |
| `ScalarOps.GrbSubScalar` | src/internal/ops.rs:183-194 | GRB p - r: every channel is that channel - r |
| `ScalarOps.GrbSubAssignScalar` | src/internal/ops.rs:196-205 | `-=` r leaves the slot equal to old value - r; no other slot changes |
| `ScalarOps.GrbAddScalar` | src/internal/ops.rs:207-218 | GRB p + r: every channel is that channel + r |
| `ScalarOps.GrbAddAssignScalar` | src/internal/ops.rs:220-229 | `+=` r leaves the slot equal to old value + r; no other slot changes |
| `ScalarOps.GrbMulScalar` | src/internal/ops.rs:231-242 | GRB p × r: every channel is that channel × r |
| `ScalarOps.GrbMulAssignScalar` | src/internal/ops.rs:244-253 | `×=` r leaves the slot equal to old value × r; no other slot changes |
| `ScalarOps.GrbDivScalar` | src/internal/ops.rs:255-266 | GRB p / r: every channel is that channel / r (truncating), r ≠ 0 |
| `ScalarOps.GrbDivAssignScalar` | src/internal/ops.rs:268-277 | `/=` r leaves the slot equal to old value / r; no other slot changes |
| `ScalarOps.GraySubScalar` | src/internal/ops.rs:183-194 | Gray p - r: every channel is that channel - r |
| `ScalarOps.GraySubAssignScalar` | src/internal/ops.rs:196-205 | `-=` r leaves the slot equal to old value - r; no other slot changes |
| `ScalarOps.GrayAddScalar` | src/internal/ops.rs:207-218 | Gray p + r: every channel is that channel + r |
| `ScalarOps.GrayAddAssignScalar` | src/internal/ops.rs:220-229 | `+=` r leaves the slot equal to old value + r; no other slot changes |
| `ScalarOps.GrayMulScalar` | src/internal/ops.rs:231-242 | Gray p × r: every channel is that channel × r |
| `ScalarOps.GrayMulAssignScalar` | src/internal/ops.rs:244-253 | `×=` r leaves the slot equal to old value × r; no other slot changes |
| `ScalarOps.GrayDivScalar` | src/internal/ops.rs:255-266 | Gray p / r: every channel is that channel / r (truncating), r ≠ 0 |
| `ScalarOps.GrayDivAssignScalar` | src/internal/ops.rs:268-277 | `/=` r leaves the slot equal to old value / r; no other slot changes |
| `ScalarOps.GrayAlphaSubScalar` | src/internal/ops.rs:183-194 | GrayAlpha p - r: every channel (alpha included) is that channel - r |
| `ScalarOps.GrayAlphaSubAssignScalar` | src/internal/ops.rs:196-205 | `-=` r leaves the slot equal to old value - r; no other slot changes |
| `ScalarOps.GrayAlphaAddScalar` | src/internal/ops.rs:207-218 | GrayAlpha p + r: every channel (alpha included) is that channel + r |
| `ScalarOps.GrayAlphaAddAssignScalar` | src/internal/ops.rs:220-229 | `+=` r leaves the slot equal to old value + r; no other slot changes |
| `ScalarOps.GrayAlphaMulScalar` | src/internal/ops.rs:231-242 | GrayAlpha p × r: every channel (alpha included) is that channel × r |
| `ScalarOps.GrayAlphaMulAssignScalar` | src/internal/ops.rs:244-253 | `×=` r leaves the slot equal to old value × r; no other slot changes |
| `ScalarOps.GrayAlphaDivScalar` | src/internal/ops.rs:255-266 | GrayAlpha p / r: every channel (alpha included) is that channel / r (truncating), r ≠ 0 |
| `ScalarOps.GrayAlphaDivAssignScalar` | src/internal/ops.rs:268-277 | `/=` r leaves the slot equal to old value / r; no other slot changes |
| `ScalarOps.GrbMapThenAddScalar` | src/internal/rgb.rs:206-214 | GRB{g:1,r:2,b:3}.map(c×2) + 1 has g=3, r=5, b=7 |
| `ScalarOps.GraySubOne` | src/internal/ops.rs:290 | Gray(5) - 1 == Gray(4) |
| `ScalarOps.DivTruncates` | src/internal/ops.rs:255-266 | RGB(-7,7,6) / 2 is RGB(-3,3,3): truncation, not flooring |
| `ConvertArray.RgbFromArray` | src/internal/convert/array.rs:7-16 | array indices map to r, g, b; converting back gives the array |
| `ConvertArray.RgbToArray` | src/internal/convert/array.rs:18-23 | RGB to array lists r, g, b, the same sequence as the flat view |
| `ConvertArray.RgbArrayRoundTrip` | src/internal/convert/array.rs:7-16 | array of the pixel, converted back, is the pixel |
| `ConvertArray.RgbaFromArray` | src/internal/convert/array.rs:25-35 | array indices map to r, g, b, a; converting back gives the array |
| `ConvertArray.RgbaToArray` | src/internal/convert/array.rs:37-42 | RGBA to array lists r, g, b, a, the same sequence as the flat view |
| `ConvertArray.RgbaArrayRoundTrip` | src/internal/convert/array.rs:25-35 | array of the pixel, converted back, is the pixel |
| `ConvertArray.ArgbFromArray` | src/internal/convert/array.rs:44-55 | array indices map to a, r, g, b; converting back gives the array |
| `ConvertArray.ArgbToArray` | src/internal/convert/array.rs:57-63 | ARGB to array lists a, r, g, b, the same sequence as the flat view |
| `ConvertArray.ArgbArrayRoundTrip` | src/internal/convert/array.rs:44-55 | array of the pixel, converted back, is the pixel |
| `ConvertArray.BgrFromArray` | src/internal/convert/array.rs:65-74 | array indices map to b, g, r; converting back gives the array |
| `ConvertArray.BgrToArray` | src/internal/convert/array.rs:76-81 | BGR to array lists b, g, r, the same sequence as the flat view |
| `ConvertArray.BgrArrayRoundTrip` | src/internal/convert/array.rs:65-74 | array of the pixel, converted back, is the pixel |
| `ConvertArray.BgraFromArray` | src/internal/convert/array.rs:83-93 | array indices map to b, g, r, a; converting back gives the array |
| `ConvertArray.BgraToArray` | src/internal/convert/array.rs:95-100 | BGRA to array lists b, g, r, a, the same sequence as the flat view |
| `ConvertArray.BgraArrayRoundTrip` | src/internal/convert/array.rs:83-93 | array of the pixel, converted back, is the pixel |
| `ConvertArray.RgbArrayExample` | src/internal/convert/array.rs:108-109 | RGB8::from([1,2,3]) == RGB8::new(1,2,3), which converts to [1,2,3] |
| `ConvertArray.BgrArrayExample` | src/internal/convert/array.rs:65-93 | BGR::from([3,2,1]) is r=1, g=2, b=3; BGRA::from([3,2,1,4]) is b=3, g=2, r=1, a=4 |
| `ConvertArray.BgrArrayTestAsWritten` | src/internal/convert/array.rs:112-113 | the test's expectations fail: BGR::from([3,2,1]) ≠ BGR::new(1,2,3), and BGR::new(1,2,3) does not convert to [3,2,1] |
| `ConvertArray.BgrArrayTestCorrected` | src/internal/convert/array.rs:112-113 | with BGR::new's own b, g, r order, both expectations hold |

## Left out

- `iter()` (src/internal/rgb.rs:46-50) has no member of its own: it yields the pixel's channel list, which is `RgbChannels`/`BgrChannels`/`GrbChannels`.
- Single-pixel `as_mut_slice` (src/internal/rgb.rs:86-89) is modelled by the single-slot writes `Views.RgbWithChannel`, `Views.BgrWithChannel` and `Views.GrbWithChannel`, or equally by the `ChannelSlice` class over a one-element array.
- Raw pointers, lifetimes and the `unsafe` reinterpretation itself are not modelled; the layout law stands for what they rely on.
- The contents of the bytes of multi-byte scalars (`u16` and wider) depend on machine endianness; the encoding is a parameter. Byte-level writes through `as_mut_bytes` are modelled for `u8` channels only (`Views.SetByte`).
- `Pod`/`Zeroable` marker impls are not modelled beyond the fixed-size encoding.
- Display, hex formatting, `Debug` and `Hash` derivations are not modelled.
- Overflow of `u8`/`u16` arithmetic (panic in debug builds, wrap-around in release) is not modelled: channels in the operator modules are integers.
- Cargo feature gating (`argb`, `grb`, `as-bytes`) is ignored; every gated item is modelled as present.
- The `rgba.rs` file is not part of this model. The only `ComponentMap`/`ColorComponentMap` implementations in the modelled files are those of `impl_rgb!` (src/internal/rgb.rs:52-78, for RGB, BGR and GRB); the `map` and `map_c` of RGBA, BGRA, ARGB, ABGR, Gray and GrayAlpha (which the scalar operators of src/internal/ops.rs:281-291 call) follow the trait contracts (src/internal/pixel.rs:73-87). RGBA/BGRA `new`, `as_slice` and `as_bytes` are not modelled.
- The flat views assume each record is laid out as its fields in declaration order with no padding (what `#[repr(C)]` guarantees). The source does not declare a representation, so `Views.Flatten`, `Views.FlattenIndex`, `Views.RgbSliceIndex`, `Views.BgrSliceIndex` and the byte view over pixels hold of the program only under that assumption.
- The GRB-to-RGB conversion used in the test at src/internal/rgb.rs:211 lives outside the modelled files and is not modelled.
- The `FnMut` callbacks of `map`/`map_c` are modelled as pure functions; a callback with side effects across calls is not covered.
- Type-parameter defaults (`RGBA<T, TA = T>`) are not expressible; alpha types are written out.
- Pixel-by-pixel multiplication exists only for RGB, GRB and Gray, and no operator exists for BGR, BGRA or ABGR (src/internal/ops.rs:281-305); absence of an operator is a fact about the instantiations and is not a Dafny statement.
- The BGRA half of the test at src/internal/convert/array.rs:114-115 depends on `BGRA::new`, which is defined in `rgba.rs` and is not part of this model.
- Pixels.RgbaCmpIsLex: with alpha of the colour type only; for a distinct alpha type the ordering is stated by `Pixels.RgbaCmpColorsThenAlpha`, and the same holds for the BGRA, ABGR, ARGB and GrayAlpha `CmpIsLex` lemmas.
- StructOpsAlpha.RgbaAdd: alpha has the same integer type as the colours; the source allows a separate alpha type `A` with its own `Add`.
- StructOpsAlpha.RgbaSub: alpha has the same integer type as the colours, as for `RgbaAdd`.
- StructOpsAlpha.ArgbAdd: alpha has the same integer type as the colours, as for `RgbaAdd`.
- StructOpsAlpha.ArgbSub: alpha has the same integer type as the colours, as for `RgbaAdd`.
- StructOpsAlpha.GrayAlphaAdd: alpha has the same integer type as the brightness, as for `RgbaAdd`.
- StructOpsAlpha.GrayAlphaSub: alpha has the same integer type as the brightness, as for `RgbaAdd`.
- ScalarOps.RgbDivScalar: requires a non-zero divisor; the source panics on integer division by zero.
- ScalarOps.RgbaDivScalar: requires a non-zero divisor, as for `RgbDivScalar`.
- ScalarOps.ArgbDivScalar: requires a non-zero divisor, as for `RgbDivScalar`.
- ScalarOps.GrbDivScalar: requires a non-zero divisor, as for `RgbDivScalar`.
- ScalarOps.GrayDivScalar: requires a non-zero divisor, as for `RgbDivScalar`.
- ScalarOps.GrayAlphaDivScalar: requires a non-zero divisor, as for `RgbDivScalar`.

## Findings

| source | as written | input that shows it | evidently intended | confidence | as-written member | corrected member |
|---|---|---|---|---|---|---|
| src/internal/convert/array.rs:112-113 | the test expects `BGR8::from([3, 2, 1]) == BGR8::new(1, 2, 3)` and `BGR8::new(1, 2, 3)` to convert to `[3, 2, 1]`, reading `new` as taking r, g, b | `BGR8::new(1, 2, 3)` is b=1, g=2, r=3 (src/internal/rgb.rs:21-26), while `BGR8::from([3, 2, 1])` is b=3, g=2, r=1 | `BGR8::new(3, 2, 1)` (arguments in b, g, r order), for which both expectations hold | not executed | `ConvertArray.BgrArrayTestAsWritten` | `ConvertArray.BgrArrayTestCorrected` |
| src/internal/rgb.rs:80-104 | the records carry no `#[repr(C)]`, yet `as_slice`/`as_mut_slice` cast a record pointer to a pointer to its first scalar and read 3 scalars, assuming fields in declaration order with no padding | `RGB8 { r: 1, g: 2, b: 3 }`: a green-first field order, which the default representation permits and which satisfies the same layout law, makes `as_slice` read `[2, 1, 3]` | `#[repr(C)]` on each record, fixing declaration order, so `as_slice` of an RGB buffer reads r, g, b of pixel 0, then pixel 1, … | not executed | `Views.RgbSliceOrderNotFixed` | `Views.RgbSliceIndex` |
