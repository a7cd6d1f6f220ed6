// The `Mat` ownership layer of src/core.rs: a managed wrapper that owns
// exactly one opaque native matrix, over a native store that allocates and
// releases them.

module Mats {
  import opened Prim
  import opened MatTypes
  import opened TypeTag
  import opened WrapperTypes
  import opened Flip

  /** The native matrix a `*mut CMat` points at: its pixels and its type tag. */
  class CMat {
    var data: array2<int>
    var typ: int

    constructor (rows: nat, cols: nat, typ: int)
      ensures fresh(data) && data.Length0 == rows && data.Length1 == cols && this.typ == typ
      ensures forall i, j :: 0 <= i < rows && 0 <= j < cols ==> data[i, j] == 0
    {
      data := new int[rows, cols]((i, j) => 0);
      this.typ := typ;
    }
  }

  /**
   * The native allocator: which matrices are live, and which have been
   * released. A released matrix is never live again.
   */
  class NativeStore {
    ghost var live: set<CMat>
    ghost var released: set<CMat>

    ghost predicate Valid()
      reads this
    {
      live !! released
    }

    constructor ()
      ensures Valid() && live == {} && released == {}
    {
      live, released := {}, {};
    }

    /** Allocates a new native matrix of the given size and type tag, zero-filled. */
    method Alloc(rows: nat, cols: nat, typ: int) returns (h: CMat)
      requires Valid()
      modifies this
      ensures Valid() && fresh(h) && fresh(h.data)
      ensures live == old(live) + {h} && released == old(released)
      ensures h.data.Length0 == rows && h.data.Length1 == cols && h.typ == typ
      ensures forall i, j :: 0 <= i < rows && 0 <= j < cols ==> h.data[i, j] == 0
    {
      h := new CMat(rows, cols, typ);
      live := live + {h};
    }

    /** `cv_mat_drop`: releases a live native matrix. */
    method Release(h: CMat)
      requires Valid() && h in live
      modifies this
      ensures Valid()
      ensures live == old(live) - {h} && released == old(released) + {h}
    {
      live := live - {h};
      released := released + {h};
    }
  }

  /** The largest native `c_int` dimension. */
  const MAX_DIM: nat := 0x7FFF_FFFF

  /** A rectangle that lies inside a rows x cols image. */
  predicate RectInside(rect: Rect, rows: int, cols: int) {
    0 <= rect.x && 0 <= rect.width && rect.x + rect.width <= cols &&
    0 <= rect.y && 0 <= rect.height && rect.y + rect.height <= rows
  }

  /** OpenCV's `Mat`: the owner of one native matrix. */
  class Mat {
    const store: NativeStore
    var inner: CMat

    /** The owned handle is live, and its size and type tag are what native code can report. */
    ghost predicate Valid()
      reads this, store, inner
    {
      store.Valid() && inner in store.live &&
      inner.data.Length0 <= MAX_DIM && inner.data.Length1 <= MAX_DIM &&
      0 <= inner.typ < MAX_CHANNELS * DEPTH_SCALE
    }

    /** `Mat::from_raw`: wraps a handle that the store has allocated. */
    constructor FromRaw(store: NativeStore, raw: CMat)
      ensures this.store == store && inner == raw
    {
      this.store := store;
      inner := raw;
    }

    /** `Mat::new`: an empty matrix. */
    static method New(store: NativeStore) returns (m: Mat)
      requires store.Valid()
      modifies store
      ensures fresh(m) && fresh(m.inner) && fresh(m.inner.data) && m.store == store && m.Valid()
      ensures store.live == old(store.live) + {m.inner} && store.released == old(store.released)
      ensures m.Rows() == 0 && m.Cols() == 0
    {
      var raw := store.Alloc(0, 0, 0);
      m := new Mat.FromRaw(store, raw);
    }

    /** `Mat::from_buffer`: a rows x cols matrix of type tag `cvType` built from `buf`. */
    static method FromBuffer(store: NativeStore, rows: i32, cols: i32, cvType: i32, buf: seq<bv8>) returns (m: Mat)
      requires store.Valid()
      requires 0 <= rows && 0 <= cols && 0 <= cvType < MAX_CHANNELS * DEPTH_SCALE
      modifies store
      ensures fresh(m) && fresh(m.inner) && fresh(m.inner.data) && m.store == store && m.Valid()
      ensures store.live == old(store.live) + {m.inner} && store.released == old(store.released)
      ensures m.Rows() == rows && m.Cols() == cols && m.inner.typ == cvType
    {
      var raw := store.Alloc(rows, cols, cvType);
      m := new Mat.FromRaw(store, raw);
    }

    /** `Mat::with_size`: a rows x cols matrix whose type reads back as `matType`. */
    static method WithSize(store: NativeStore, rows: i32, cols: i32, matType: MatType) returns (m: Mat)
      requires store.Valid() && MatTypes.Valid(matType)
      requires 0 <= rows && 0 <= cols
      modifies store
      ensures fresh(m) && fresh(m.inner) && fresh(m.inner.data) && m.store == store && m.Valid()
      ensures store.live == old(store.live) + {m.inner} && store.released == old(store.released)
      ensures m.Rows() == rows && m.Cols() == cols && m.MatTypeOf() == matType
    {
      var raw := store.Alloc(rows, cols, AsOpencvValue(matType));
      m := new Mat.FromRaw(store, raw);
      RoundTrip(matType);
    }

    /** `Mat::zeros`: a rows x cols matrix of type tag `t` whose pixels are all zero. */
    static method Zeros(store: NativeStore, rows: i32, cols: i32, t: i32) returns (m: Mat)
      requires store.Valid()
      requires 0 <= rows && 0 <= cols && 0 <= t < MAX_CHANNELS * DEPTH_SCALE
      modifies store
      ensures fresh(m) && fresh(m.inner) && fresh(m.inner.data) && m.store == store && m.Valid()
      ensures store.live == old(store.live) + {m.inner} && store.released == old(store.released)
      ensures m.Rows() == rows && m.Cols() == cols && m.inner.typ == t
      ensures forall i, j :: 0 <= i < rows && 0 <= j < cols ==> m.inner.data[i, j] == 0
    {
      var raw := store.Alloc(rows, cols, t);
      m := new Mat.FromRaw(store, raw);
    }

    /** Returns the height of this matrix. */
    function Rows(): (n: int)
      reads this, inner
      ensures n >= 0
    {
      inner.data.Length0
    }

    /** Returns the width of this matrix. */
    function Cols(): (n: int)
      reads this, inner
      ensures n >= 0
    {
      inner.data.Length1
    }

    /** `Mat::size`: the width is the column count and the height the row count. */
    function Size(): (s: Size2i)
      requires Valid()
      reads this, store, inner
      ensures s.width == Cols() && s.height == Rows()
    {
      Size2i(Cols(), Rows())
    }

    /** The pixels of this matrix, row by row. */
    ghost function Image(): Grid
      reads this, inner, inner.data
    {
      Pixels(inner.data)
    }

    /** `Mat::mat_type`: the decoded type tag; the `unwrap` cannot fail on a native tag. */
    function MatTypeOf(): (t: MatType)
      requires Valid()
      reads this, store, inner
      ensures MatTypes.Valid(t) && AsOpencvValue(t) == inner.typ
    {
      DecodeEncode(inner.typ);
      FromOpencvValue(inner.typ).value
    }

    /** `Mat::flip`: flips the pixels in place, as the documented index map of `code` says. */
    method Flip(code: FlipCode)
      requires Valid()
      modifies inner.data
      ensures Image() == Flipped(old(Image()), code)
      ensures Image() == NativeFlip(old(Image()), NativeCode(code))
    {
      FlipInPlace(inner.data, NativeCode(code));
      NativeFlipMatchesDoc(old(Pixels(inner.data)), code);
    }

    /**
     * `Mat::logic_and`: `self &= mask` in place. `mask` is taken by value,
     * so its handle is released when the call returns; this matrix keeps
     * its handle. The pixel values are left to native code.
     */
    method LogicAnd(mask: Mat)
      requires Valid() && mask.Valid() && mask.store == store && mask.inner != inner
      modifies inner.data, store
      ensures Valid() && inner == old(inner)
      ensures store.live == old(store.live) - {mask.inner}
      ensures store.released == old(store.released) + {mask.inner}
    {
      // cv_mat_logic_and(self.inner, mask.inner) writes the pixels of inner.data
      mask.Drop();
    }

    /** `Drop for Mat`: releases the owned handle, exactly once. */
    method Drop()
      requires Valid()
      modifies store
      ensures store.Valid() && inner !in store.live
      ensures store.live == old(store.live) - {inner}
      ensures store.released == old(store.released) + {inner}
    {
      store.Release(inner);
    }

    /** `Mat::roi`: a new handle on the region `rect` of this matrix. */
    method Roi(rect: Rect) returns (r: Mat)
      requires Valid() && RectInside(rect, Rows(), Cols())
      modifies store
      ensures fresh(r) && fresh(r.inner) && r.store == store && r.Valid()
      ensures store.live == old(store.live) + {r.inner} && store.released == old(store.released)
      ensures r.Rows() == rect.height && r.Cols() == rect.width && r.inner.typ == inner.typ
    {
      var raw := store.Alloc(rect.height, rect.width, inner.typ);
      r := new Mat.FromRaw(store, raw);
    }

    /**
     * The shape shared by the operations below: a new native matrix
     * (`CMat::new()`) that the native routine fills in. Its size and type
     * are those of `self`.
     */
    method Produce() returns (r: Mat)
      requires Valid()
      modifies store
      ensures fresh(r) && fresh(r.inner) && fresh(r.inner.data) && r.store == store && r.Valid()
      ensures store.live == old(store.live) + {r.inner} && store.released == old(store.released)
      ensures r.Rows() == Rows() && r.Cols() == Cols()
    {
      var raw := store.Alloc(Rows(), Cols(), inner.typ);
      r := new Mat.FromRaw(store, raw);
    }

    /** `Mat::in_range`: a new 8-bit, single-channel mask of the same size. */
    method InRange(lowerb: Scalar, upperb: Scalar) returns (r: Mat)
      requires Valid()
      modifies store
      ensures fresh(r) && fresh(r.inner) && fresh(r.inner.data) && r.store == store && r.Valid()
      ensures r.inner != inner && unchanged(this, inner, inner.data)
      ensures store.live == old(store.live) + {r.inner} && store.released == old(store.released)
      ensures r.Rows() == Rows() && r.Cols() == Cols() && r.MatTypeOf() == MatType(Unsigned8, 0)
    {
      var raw := store.Alloc(Rows(), Cols(), AsOpencvValue(MatType(Unsigned8, 0)));
      r := new Mat.FromRaw(store, raw);
      RoundTrip(MatType(Unsigned8, 0));
    }

    /**
     * `Mat::mix_channels`: a new matrix made by `Mat::with_size` with the
     * size and type of `self`, into which native code copies channels (the
     * `from_to` pairs are not modelled).
     */
    method MixChannels(nsrcs: int, ndsts: int, npairs: int) returns (r: Mat)
      requires Valid()
      modifies store
      ensures fresh(r) && fresh(r.inner) && fresh(r.inner.data) && r.store == store && r.Valid()
      ensures r.inner != inner && unchanged(this, inner, inner.data)
      ensures store.live == old(store.live) + {r.inner} && store.released == old(store.released)
      ensures r.Rows() == Rows() && r.Cols() == Cols() && r.MatTypeOf() == MatTypeOf()
    {
      r := WithSize(store, Rows(), Cols(), MatTypeOf());
    }

    /** `Mat::normalize`: a new matrix; `t` reaches native code as its discriminant. */
    method Normalize(alpha: real, beta: real, t: NormTypes) returns (r: Mat)
      requires Valid()
      modifies store
      ensures fresh(r) && fresh(r.inner) && fresh(r.inner.data) && r.store == store && r.Valid()
      ensures r.inner != inner && unchanged(this, inner, inner.data)
      ensures store.live == old(store.live) + {r.inner} && store.released == old(store.released)
      ensures r.Rows() == Rows() && r.Cols() == Cols()
    {
      r := Produce();
    }

    /** `Mat::and`: a new matrix; neither operand changes. */
    method And(another: Mat) returns (r: Mat)
      requires Valid() && another.Valid() && another.store == store
      modifies store
      ensures fresh(r) && fresh(r.inner) && fresh(r.inner.data) && r.store == store && r.Valid()
      ensures r.inner != inner && r.inner != another.inner
      ensures unchanged(this, inner, inner.data) && unchanged(another, another.inner, another.inner.data)
      ensures store.live == old(store.live) + {r.inner} && store.released == old(store.released)
      ensures r.Rows() == Rows() && r.Cols() == Cols()
    {
      r := Produce();
    }

    /** `Mat::or`: a new matrix; neither operand changes. */
    method Or(another: Mat) returns (r: Mat)
      requires Valid() && another.Valid() && another.store == store
      modifies store
      ensures fresh(r) && fresh(r.inner) && fresh(r.inner.data) && r.store == store && r.Valid()
      ensures r.inner != inner && r.inner != another.inner
      ensures unchanged(this, inner, inner.data) && unchanged(another, another.inner, another.inner.data)
      ensures store.live == old(store.live) + {r.inner} && store.released == old(store.released)
      ensures r.Rows() == Rows() && r.Cols() == Cols()
    {
      r := Produce();
    }

    /** `Mat::xor`: a new matrix; neither operand changes. */
    method Xor(another: Mat) returns (r: Mat)
      requires Valid() && another.Valid() && another.store == store
      modifies store
      ensures fresh(r) && fresh(r.inner) && fresh(r.inner.data) && r.store == store && r.Valid()
      ensures r.inner != inner && r.inner != another.inner
      ensures unchanged(this, inner, inner.data) && unchanged(another, another.inner, another.inner.data)
      ensures store.live == old(store.live) + {r.inner} && store.released == old(store.released)
      ensures r.Rows() == Rows() && r.Cols() == Cols()
    {
      r := Produce();
    }

    /** `Mat::not`: a new matrix; the operand does not change. */
    method Not() returns (r: Mat)
      requires Valid()
      modifies store
      ensures fresh(r) && fresh(r.inner) && fresh(r.inner.data) && r.store == store && r.Valid()
      ensures r.inner != inner && unchanged(this, inner, inner.data)
      ensures store.live == old(store.live) + {r.inner} && store.released == old(store.released)
      ensures r.Rows() == Rows() && r.Cols() == Cols()
    {
      r := Produce();
    }
  }

  /**
   * A caller of the layer: two matrices combined into a third, which then
   * masks the first in place; every handle allocated in between is
   * released exactly once, so the store ends as it began.
   */
  method CombineAndRelease(store: NativeStore)
    requires store.Valid()
    modifies store
    ensures store.Valid() && store.live == old(store.live)
  {
    var a := Mat.Zeros(store, 4, 4, 0);
    var b := Mat.Zeros(store, 4, 4, 0);
    var c := a.Or(b);
    a.LogicAnd(c);
    a.Drop();
    b.Drop();
  }
}
