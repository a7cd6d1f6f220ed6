// Flipping an image (src/core.rs, `FlipCode` and `Mat::flip`): the
// documented index maps, the native flip-code convention, and the in-place
// update of a 2-D pixel array that the native call performs.

module Flip {

  /** How to flip an image. */
  datatype FlipCode =
    /** Along the x-axis: dst[i, j] = src[rows - i - 1, j] */
    | XAxis
    /** Along the y-axis: dst[i, j] = src[i, cols - j - 1] */
    | YAxis
    /** Along both axes: dst[i, j] = src[rows - i - 1, cols - j - 1] */
    | XYAxis

  // The native flip code: 0 flips around the x-axis (rows reversed), a
  // positive code around the y-axis (columns reversed), a negative code
  // around both.
  predicate ReversesRows(c: int) { c <= 0 }
  predicate ReversesCols(c: int) { c != 0 }

  /** The integer `Mat::flip` hands to the native layer for each flip code. */
  function NativeCode(code: FlipCode): (c: int)
    ensures ReversesRows(c) <==> code != YAxis
    ensures ReversesCols(c) <==> code != XAxis
  {
    match code
    case XAxis => 0
    case YAxis => 1
    case XYAxis => -1
  }

  /** The literal codes: 0 for `XAxis`, 1 for `YAxis`, -1 for `XYAxis`. */
  lemma NativeCodeValues()
    ensures NativeCode(XAxis) == 0 && NativeCode(YAxis) == 1 && NativeCode(XYAxis) == -1
  {
  }

  // ---------------------------------------------------------------------
  // Pixel grids: a rows x cols image as a sequence of rows.

  type Grid = seq<seq<int>>

  function Width(g: Grid): nat {
    if |g| == 0 then 0 else |g[0]|
  }

  predicate Rectangular(g: Grid) {
    forall i :: 0 <= i < |g| ==> |g[i]| == Width(g)
  }

  /** The source row of destination row `i`, by the documented index maps. */
  function SourceRow(code: FlipCode, rows: nat, i: nat): (si: nat)
    requires i < rows
    ensures si < rows
  {
    match code
    case XAxis => rows - i - 1
    case YAxis => i
    case XYAxis => rows - i - 1
  }

  /** The source column of destination column `j`, by the documented index maps. */
  function SourceCol(code: FlipCode, cols: nat, j: nat): (sj: nat)
    requires j < cols
    ensures sj < cols
  {
    match code
    case XAxis => j
    case YAxis => cols - j - 1
    case XYAxis => cols - j - 1
  }

  /** The image the documented index maps describe. */
  function Flipped(g: Grid, code: FlipCode): (r: Grid)
    requires Rectangular(g)
    ensures |r| == |g| && Rectangular(r) && Width(r) == Width(g)
  {
    seq(|g|, i requires 0 <= i < |g| =>
      seq(Width(g), j requires 0 <= j < Width(g) =>
        g[SourceRow(code, |g|, i)][SourceCol(code, Width(g), j)]))
  }

  /** A sequence read back to front. */
  function Mirror(row: seq<int>): (r: seq<int>)
    ensures |r| == |row|
  {
    seq(|row|, j requires 0 <= j < |row| => row[|row| - 1 - j])
  }

  function ReverseRows(g: Grid): (r: Grid)
    ensures |r| == |g|
  {
    seq(|g|, i requires 0 <= i < |g| => g[|g| - 1 - i])
  }

  function ReverseCols(g: Grid): (r: Grid)
    ensures |r| == |g|
  {
    seq(|g|, i requires 0 <= i < |g| => Mirror(g[i]))
  }

  /**
   * What the native flip does to an image for an integer flip code: pixel
   * `(i, j)` comes from the mirrored row when the code reverses rows and
   * from the mirrored column when it reverses columns.
   */
  function NativeFlip(g: Grid, c: int): (r: Grid)
    ensures |r| == |g|
    ensures Rectangular(g) ==> Rectangular(r) && Width(r) == Width(g)
    ensures Rectangular(g) ==>
              forall i, j :: 0 <= i < |g| && 0 <= j < Width(g) ==>
                r[i][j] == g[if ReversesRows(c) then |g| - 1 - i else i]
                            [if ReversesCols(c) then Width(g) - 1 - j else j]
  {
    var rowsDone := if ReversesRows(c) then ReverseRows(g) else g;
    if ReversesCols(c) then ReverseCols(rowsDone) else rowsDone
  }

  /** The code `Mat::flip` passes makes the native flip follow the documented index map. */
  lemma NativeFlipMatchesDoc(g: Grid, code: FlipCode)
    requires Rectangular(g)
    ensures NativeFlip(g, NativeCode(code)) == Flipped(g, code)
  {
    var n := NativeFlip(g, NativeCode(code));
    var f := Flipped(g, code);
    assert |n| == |f|;
    forall i | 0 <= i < |g| ensures n[i] == f[i] {
      var si := SourceRow(code, |g|, i);
      assert |g[si]| == Width(g);
      forall j | 0 <= j < Width(g) ensures n[i][j] == f[i][j] {
      }
    }
  }

  /** Flipping twice with the same code restores the image (for each of the three codes). */
  lemma FlipTwice(g: Grid, code: FlipCode)
    requires Rectangular(g)
    ensures Flipped(Flipped(g, code), code) == g
  {
    var f := Flipped(g, code);
    var ff := Flipped(f, code);
    forall i | 0 <= i < |g| ensures ff[i] == g[i] {
      forall j | 0 <= j < Width(g) ensures ff[i][j] == g[i][j] {
        var si := SourceRow(code, |g|, i);
        var sj := SourceCol(code, Width(g), j);
        assert ff[i][j] == f[si][sj];
      }
    }
  }

  /** One pixel of a flipped image, read through the index maps. */
  lemma FlippedAt(g: Grid, code: FlipCode, i: nat, j: nat)
    requires Rectangular(g) && i < |g| && j < Width(g)
    ensures Flipped(g, code)[i][j] == g[SourceRow(code, |g|, i)][SourceCol(code, Width(g), j)]
  {
  }

  /** Flipping along the x-axis and then the y-axis is flipping along both. */
  lemma FlipXThenY(g: Grid)
    requires Rectangular(g)
    ensures Flipped(Flipped(g, XAxis), YAxis) == Flipped(g, XYAxis)
  {
    var f := Flipped(g, XAxis);
    var fy := Flipped(f, YAxis);
    var b := Flipped(g, XYAxis);
    forall i | 0 <= i < |g| ensures fy[i] == b[i] {
      assert |fy[i]| == Width(g) == |b[i]|;
      forall j | 0 <= j < Width(g) ensures fy[i][j] == b[i][j] {
        FlippedAt(f, YAxis, i, j);
        FlippedAt(g, XAxis, i, Width(g) - j - 1);
        FlippedAt(g, XYAxis, i, j);
      }
    }
  }

  /** The two single-axis flips commute. */
  lemma FlipYThenX(g: Grid)
    requires Rectangular(g)
    ensures Flipped(Flipped(g, YAxis), XAxis) == Flipped(g, XYAxis)
  {
    var f := Flipped(g, YAxis);
    var fx := Flipped(f, XAxis);
    var b := Flipped(g, XYAxis);
    forall i | 0 <= i < |g| ensures fx[i] == b[i] {
      assert |fx[i]| == Width(g) == |b[i]|;
      forall j | 0 <= j < Width(g) ensures fx[i][j] == b[i][j] {
        FlippedAt(f, XAxis, i, j);
        FlippedAt(g, YAxis, |g| - i - 1, j);
        FlippedAt(g, XYAxis, i, j);
      }
    }
  }

  // ---------------------------------------------------------------------
  // The native flip, in place on the pixel array of a Mat.

  /** The pixels of a 2-D array, row by row. */
  ghost function Pixels(a: array2<int>): (g: Grid)
    reads a
    ensures |g| == a.Length0 && Rectangular(g)
    ensures forall i :: 0 <= i < a.Length0 ==> |g[i]| == a.Length1
    ensures forall i, j :: 0 <= i < a.Length0 && 0 <= j < a.Length1 ==> g[i][j] == a[i, j]
  {
    seq(a.Length0, i requires 0 <= i < a.Length0 reads a =>
      seq(a.Length1, j requires 0 <= j < a.Length1 reads a => a[i, j]))
  }

  /** Exchanges two distinct rows of `a`. */
  method SwapRows(a: array2<int>, r1: nat, r2: nat)
    requires r1 < r2 < a.Length0
    modifies a
    ensures forall i, j :: 0 <= i < a.Length0 && 0 <= j < a.Length1 ==>
              a[i, j] == old(a[if i == r1 then r2 else if i == r2 then r1 else i, j])
  {
    var k := 0;
    while k < a.Length1
      invariant 0 <= k <= a.Length1
      invariant forall i, j :: 0 <= i < a.Length0 && 0 <= j < a.Length1 ==>
                  a[i, j] == old(a[if j < k && i == r1 then r2 else if j < k && i == r2 then r1 else i, j])
    {
      a[r1, k], a[r2, k] := a[r2, k], a[r1, k];
      k := k + 1;
    }
  }

  /** Reverses the order of the rows of `a` in place. */
  method ReverseRowsInPlace(a: array2<int>)
    modifies a
    ensures Pixels(a) == ReverseRows(old(Pixels(a)))
  {
    ghost var g0 := Pixels(a);
    var n := a.Length0;
    var i := 0;
    while i < n / 2
      invariant 0 <= i <= n / 2
      invariant forall r, j :: 0 <= r < n && 0 <= j < a.Length1 ==>
                  a[r, j] == g0[if r < i || r >= n - i then n - 1 - r else r][j]
    {
      SwapRows(a, i, n - 1 - i);
      i := i + 1;
    }
    var g1 := Pixels(a);
    var want := ReverseRows(g0);
    forall r | 0 <= r < n ensures g1[r] == want[r] {
      assert |g1[r]| == |want[r]|;
    }
  }

  /** Reverses one row of `a` in place. */
  method MirrorRow(a: array2<int>, r: nat)
    requires r < a.Length0
    modifies a
    ensures forall i, j :: 0 <= i < a.Length0 && 0 <= j < a.Length1 ==>
              a[i, j] == old(a[i, if i == r then a.Length1 - 1 - j else j])
  {
    var m := a.Length1;
    var k := 0;
    while k < m / 2
      invariant 0 <= k <= m / 2
      invariant forall i, j :: 0 <= i < a.Length0 && i != r && 0 <= j < m ==> a[i, j] == old(a[i, j])
      invariant forall j :: 0 <= j < k ==> a[r, j] == old(a[r, m - 1 - j]) && a[r, m - 1 - j] == old(a[r, j])
      invariant forall j :: k <= j < m - k ==> a[r, j] == old(a[r, j])
    {
      a[r, k], a[r, m - 1 - k] := a[r, m - 1 - k], a[r, k];
      k := k + 1;
    }
  }

  /** Reverses every row of `a` in place. */
  method ReverseColsInPlace(a: array2<int>)
    modifies a
    ensures Pixels(a) == ReverseCols(old(Pixels(a)))
  {
    ghost var g0 := Pixels(a);
    var m := a.Length1;
    var i := 0;
    while i < a.Length0
      invariant 0 <= i <= a.Length0
      invariant forall r, j :: 0 <= r < a.Length0 && 0 <= j < m ==>
                  a[r, j] == g0[r][if r < i then m - 1 - j else j]
    {
      MirrorRow(a, i);
      i := i + 1;
    }
    var g1 := Pixels(a);
    var want := ReverseCols(g0);
    forall r | 0 <= r < a.Length0 ensures g1[r] == want[r] {
      assert |g1[r]| == |want[r]|;
    }
  }

  /** The native flip (`cv_mat_flip`): an in-place update of the pixel array. */
  method FlipInPlace(a: array2<int>, c: int)
    modifies a
    ensures Pixels(a) == NativeFlip(old(Pixels(a)), c)
  {
    if ReversesRows(c) {
      ReverseRowsInPlace(a);
    }
    if ReversesCols(c) {
      ReverseColsInPlace(a);
    }
  }
}
