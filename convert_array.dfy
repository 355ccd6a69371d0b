/** Conversions between pixel records and fixed-size arrays
    (src/internal/convert/array.rs). An array `[T; N]` is a sequence of length
    N; the index mapping follows each record's declaration order. */
module ConvertArray {
  import opened Pixels
  import opened Construct

  // ---- RGB <-> [r, g, b] ----

  /** `From<[T; 3]> for RGB<T>`: indices 0, 1, 2 become r, g, b. */
  function RgbFromArray<T>(a: seq<T>): (p: RGB<T>)
    requires |a| == 3
    ensures RgbToArray(p) == a
  {
    RGB(a[0], a[1], a[2])
  }

  /** `From<RGB<T>> for [T; 3]`: the same sequence as the pixel's flat view. */
  function RgbToArray<T>(p: RGB<T>): (a: seq<T>)
    ensures a == RgbChannels(p)
  {
    [p.r, p.g, p.b]
  }

  lemma RgbArrayRoundTrip<T>(p: RGB<T>)
    ensures RgbFromArray(RgbToArray(p)) == p
  {
  }

  // ---- RGBA <-> [r, g, b, a] ----

  /** `From<[T; 4]> for RGBA<T>`: indices 0..3 become r, g, b, a. */
  function RgbaFromArray<T>(a: seq<T>): (p: RGBA<T, T>)
    requires |a| == 4
    ensures RgbaToArray(p) == a
  {
    RGBA(a[0], a[1], a[2], a[3])
  }

  /** `From<RGBA<T>> for [T; 4]`: the same sequence as the pixel's flat view. */
  function RgbaToArray<T>(p: RGBA<T, T>): (a: seq<T>)
    ensures a == RgbaChannels(p)
  {
    [p.r, p.g, p.b, p.a]
  }

  lemma RgbaArrayRoundTrip<T>(p: RGBA<T, T>)
    ensures RgbaFromArray(RgbaToArray(p)) == p
  {
  }

  // ---- ARGB <-> [a, r, g, b] ----

  /** `From<[T; 4]> for ARGB<T>`: index 0 becomes alpha, 1..3 become r, g, b. */
  function ArgbFromArray<T>(a: seq<T>): (p: ARGB<T, T>)
    requires |a| == 4
    ensures ArgbToArray(p) == a
  {
    ARGB(a[0], a[1], a[2], a[3])
  }

  /** `Into<[T; 4]> for ARGB<T>`: alpha first, as declared. */
  function ArgbToArray<T>(p: ARGB<T, T>): (a: seq<T>)
    ensures a == ArgbChannels(p)
  {
    [p.a, p.r, p.g, p.b]
  }

  lemma ArgbArrayRoundTrip<T>(p: ARGB<T, T>)
    ensures ArgbFromArray(ArgbToArray(p)) == p
  {
  }

  // ---- BGR <-> [b, g, r] ----

  /** `From<[T; 3]> for BGR<T>`: indices 0, 1, 2 become b, g, r. */
  function BgrFromArray<T>(a: seq<T>): (p: BGR<T>)
    requires |a| == 3
    ensures BgrToArray(p) == a
  {
    BGR(a[0], a[1], a[2])
  }

  /** `From<BGR<T>> for [T; 3]`: blue first, as declared. */
  function BgrToArray<T>(p: BGR<T>): (a: seq<T>)
    ensures a == BgrChannels(p)
  {
    [p.b, p.g, p.r]
  }

  lemma BgrArrayRoundTrip<T>(p: BGR<T>)
    ensures BgrFromArray(BgrToArray(p)) == p
  {
  }

  // ---- BGRA <-> [b, g, r, a] ----

  /** `From<[T; 4]> for BGRA<T>`: indices 0..3 become b, g, r, a. */
  function BgraFromArray<T>(a: seq<T>): (p: BGRA<T, T>)
    requires |a| == 4
    ensures BgraToArray(p) == a
  {
    BGRA(a[0], a[1], a[2], a[3])
  }

  /** `From<BGRA<T>> for [T; 4]`: the same sequence as the pixel's flat view. */
  function BgraToArray<T>(p: BGRA<T, T>): (a: seq<T>)
    ensures a == BgraChannels(p)
  {
    [p.b, p.g, p.r, p.a]
  }

  lemma BgraArrayRoundTrip<T>(p: BGRA<T, T>)
    ensures BgraFromArray(BgraToArray(p)) == p
  {
  }

  // ---- concrete cases ----

  /** `RGB8::from([1, 2, 3]) == RGB8::new(1, 2, 3)`, and back to `[1, 2, 3]`. */
  lemma RgbArrayExample()
    ensures RgbFromArray<u8>([1, 2, 3]) == RgbNew(1, 2, 3)
    ensures RgbToArray<u8>(RgbNew(1, 2, 3)) == [1, 2, 3]
  {
  }

  /** `BGR::from([3, 2, 1])` is the colour r = 1, g = 2, b = 3, and
      `BGRA::from([3, 2, 1, 4])` is b = 3, g = 2, r = 1, a = 4. */
  lemma BgrArrayExample()
    ensures BgrFromArray<u8>([3, 2, 1]) == BGR(3, 2, 1)
    ensures var p := BgrFromArray<u8>([3, 2, 1]); p.r == 1 && p.g == 2 && p.b == 3
    ensures BgraFromArray<u8>([3, 2, 1, 4]) == BGRA(3, 2, 1, 4)
  {
  }

  /** The test at src/internal/convert/array.rs:112-113 as written expects
      `BGR8::from([3, 2, 1]) == BGR8::new(1, 2, 3)` and
      `BGR8::new(1, 2, 3)` to convert to `[3, 2, 1]`; `BGR::new` takes its
      arguments blue first, so neither holds. */
  lemma BgrArrayTestAsWritten()
    ensures BgrFromArray<u8>([3, 2, 1]) != BgrNew(1, 2, 3)
    ensures BgrToArray<u8>(BgrNew(1, 2, 3)) != [3, 2, 1]
  {
    assert BgrToArray<u8>(BgrNew(1, 2, 3))[0] == 1;
  }

  /** With the constructor's arguments in its own b, g, r order, both
      expectations of that test hold. */
  lemma BgrArrayTestCorrected()
    ensures BgrFromArray<u8>([3, 2, 1]) == BgrNew(3, 2, 1)
    ensures BgrToArray<u8>(BgrNew(3, 2, 1)) == [3, 2, 1]
  {
  }
}
