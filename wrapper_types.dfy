// The plain value types passed across the native boundary and the C
// vectors that native code fills in (src/wrapper/mod.rs).

module WrapperTypes {
  import opened Prim

  /** A 4-element pixel value. */
  datatype Scalar = Scalar(v0: i32, v1: i32, v2: i32, v3: i32)

  /** `Scalar::new`: the four values, in order. */
  function ScalarNew(v0: i32, v1: i32, v2: i32, v3: i32): (s: Scalar)
    ensures [s.v0, s.v1, s.v2, s.v3] == [v0, v1, v2, v3]
  {
    Scalar(v0, v1, v2, v3)
  }

  /** The integral size of an image or rectangle. */
  datatype Size2i = Size2i(width: i32, height: i32)

  /** `Size2i::new`. */
  function Size2iNew(width: i32, height: i32): (s: Size2i)
    ensures s.width == width && s.height == height
  {
    Size2i(width, height)
  }

  /** An integer rectangle: left-top corner, width and height. Equality is field-wise. */
  datatype Rect = Rect(x: i32, y: i32, width: i32, height: i32)

  /** `Rect::new`. */
  function RectNew(x: i32, y: i32, width: i32, height: i32): (r: Rect)
    ensures r.x == x && r.y == y && r.width == width && r.height == height
  {
    Rect(x, y, width, height)
  }

  /** The derived `Rect::default()`. */
  function RectDefault(): (r: Rect)
    ensures r.x == 0 && r.y == 0 && r.width == 0 && r.height == 0
  {
    Rect(0, 0, 0, 0)
  }

  /** The derived `PartialEq` of `Rect` compares the four fields. */
  lemma RectEqualityIsFieldwise(a: Rect, b: Rect)
    ensures a == b <==> (a.x == b.x && a.y == b.y && a.width == b.width && a.height == b.height)
  {
  }

  /** A C array pointer (the `array` field of the vectors): null, or the elements it points at. */
  datatype CArray<T> = Null | Elements(elems: seq<T>)

  /** Reading `buffer[i]` is defined for every `i` below `bound`. */
  predicate Readable<T>(a: CArray<T>, bound: nat) {
    bound == 0 || (a.Elements? && bound <= |a.elems|)
  }

  /** A vector of rectangles handed over by native code. */
  datatype CVecOfRect = CVecOfRect(buffer: CArray<Rect>, size: nat)

  /** A vector of `f64` handed over by native code; its values are only copied. */
  datatype CVecDouble = CVecDouble(buffer: CArray<real>, size: nat)

  /** The `Default` of both vectors: a null buffer and size 0. */
  function CVecOfRectDefault(): (v: CVecOfRect)
    ensures v.buffer == Null && v.size == 0
  {
    CVecOfRect(Null, 0)
  }

  function CVecDoubleDefault(): (v: CVecDouble)
    ensures v.buffer == Null && v.size == 0
  {
    CVecDouble(Null, 0)
  }

  /** `CVecOfRect::rustify`: `buffer[i]` for every `i` in `0..size`. */
  function RustifyRects(v: CVecOfRect): (r: seq<Rect>)
    requires Readable(v.buffer, v.size)
    ensures |r| == v.size
    ensures v.size > 0 ==> r == v.buffer.elems[..v.size]
  {
    seq(v.size, i requires 0 <= i < v.size && Readable(v.buffer, v.size) => v.buffer.elems[i])
  }

  /** `CVecDouble::rustify`: `buffer[i]` for every `i` in `1..size`, so element 0 is not copied. */
  function RustifyDoubles(v: CVecDouble): (r: seq<real>)
    requires v.size <= 1 || Readable(v.buffer, v.size)
    ensures |r| == if v.size == 0 then 0 else v.size - 1
    ensures v.size > 1 ==> r == v.buffer.elems[1..v.size]
  {
    if v.size <= 1 then []
    else seq(v.size - 1, k requires 0 <= k < v.size - 1 && Readable(v.buffer, v.size) => v.buffer.elems[k + 1])
  }

  /** A default vector converts to an empty sequence. */
  lemma DefaultRustifiesEmpty()
    ensures RustifyRects(CVecOfRectDefault()) == []
    ensures RustifyDoubles(CVecDoubleDefault()) == []
  {
  }

  /** With at most one element nothing is read, so even a null buffer converts to `[]`. */
  lemma SingleDoubleReadsNothing(buffer: CArray<real>)
    ensures RustifyDoubles(CVecDouble(buffer, 1)) == []
  {
  }

  /**
   * The two conversions disagree in length: `size` rectangles come with
   * `size - 1` doubles.
   */
  lemma DoublesDropFirst(rects: seq<Rect>, weights: seq<real>)
    requires |rects| == |weights| > 0
    ensures |RustifyDoubles(CVecDouble(Elements(weights), |weights|))|
            == |RustifyRects(CVecOfRect(Elements(rects), |rects|))| - 1
  {
  }
}
