# cv-rs core, modelled in Dafny

This project models the core of cv-rs, a Rust binding to OpenCV. It covers
the following parts:

- **Element types.** `MatDepth`, `MatType` and its validation, the `CvType`
  constants, and the bit-packed type tag that crosses the native boundary
  (`as_opencv_value` / `from_opencv_value`).
- **`Mat` ownership.** A `Mat` owns one native matrix handle. Its
  constructors and its fresh-handle producers allocate one. `logic_and`
  consumes its mask. `Drop` releases the handle exactly once.
- **Flipping.** The `FlipCode` index maps as documented, the integer codes
  `flip` hands to native code, and an in-place flip of a pixel array that
  matches them.
- **Wrapper value types.** `Scalar`, `Size2i` and `Rect`, and the C vectors
  that `rustify` copies out.
- **`highgui` value logic.** The `wait_key` argument and result mapping,
  mouse event kinds, and `from_bits_truncate` on event flags.
- **The mouse-callback bridge.** A boxed (callback, user data) wrapper is
  registered with the windowing system behind a trampoline. A handle frees
  it, and unregisters it first.
- **The CAMShift example.** The `on_mouse` selection state machine and the
  hand-off from a completed selection to tracking in `main`'s loop,
  including the handle traffic of one loop pass.

Native code is opaque: a native matrix is a `CMat` object with a pixel
array and a type tag. `NativeStore` allocates these objects. It records
which handles are live and which have been released.

Files (one module each):

| file | module |
|---|---|
| `prim.dfy` | `Prim` |
| `mat_types.dfy` | `MatTypes` |
| `type_tag.dfy` | `TypeTag` |
| `flip.dfy` | `Flip` |
| `wrapper_types.dfy` | `WrapperTypes` |
| `mat.dfy` | `Mats` |
| `highgui.dfy` | `HighGui` |
| `mouse_callback.dfy` | `MouseCallbacks` |
| `camshift.dfy` | `Camshift` |

Arithmetic conventions:

- `value & 7` on a two's-complement `i32` equals Dafny's Euclidean
  `value % 8`.
- The arithmetic `value >> 3` equals `value / 8` (floor division).
- `as u16` takes the result modulo 2^16.
- A `u16` left shift drops the bits above bit 15.

Where the `CvType` table and the codec disagree about the channel field of
`MatType`, the model follows the code and the corrected codec is modelled
beside it (see Findings).

## Model

| member | source | states |
|---|---|---|
| MatTypes.DepthFromPrimitive | src/core.rs:241-259 | A depth exists for an integer exactly when it is 0..7, and that depth's discriminant is the integer |
| MatTypes.DepthRoundTrip | src/core.rs:241-259 | Every depth is found again from its own discriminant |
| MatTypes.New | src/core.rs:277-286 | Succeeds iff channels < 512. On success, the type holds exactly the given depth and channels and is valid. Otherwise the error is `UnsupportedChannelCount(channels, 512)`, with the count not clamped |
| MatTypes.NewBoundary | src/core.rs:272-286 | 511 channels are accepted and 512 refused, for every depth |
| MatTypes.MatType.Depth | src/core.rs:289-291 | Returns the stored depth |
| MatTypes.MatType.Channels | src/core.rs:294-296 | Returns the stored channel field |
| MatTypes.AccessorsReturnArguments | src/core.rs:288-296 | `depth()` and `channels()` return exactly what `new` was given |
| MatTypes.CvTypeValue | src/core.rs:228-238 | Every `CvType` constant has the 8-bit depth in its low three bits |
| MatTypes.NormValue | src/core.rs:305-323 | Every norm type reaches native code as one of the declared discriminants 1, 2, 4, 5, 6, 7, 8, 32 |
| MatTypes.NormFromPrimitive | src/core.rs:303-323 | The derived `from_i32` finds a norm type exactly for the eight declared discriminants, and that type has the given discriminant |
| MatTypes.NormRoundTrip | src/core.rs:305-323 | Every norm type is found again from its discriminant |
| MatTypes.NormValueInjective | src/core.rs:305-323 | Two norm types reach native code with the same code iff they are the same type |
| MatTypes.NormValues | src/core.rs:306-323 | `NormInf` is 1, `NormL1` 2, `NormL2` 4, `NormL2Sqr` 5, `NormHamming` 6, `NormHamming2` 7, `NormRelative` 8, `NormMinMax` 32 |
| TypeTag.Shl16 | src/wrapper/core.rs:21 | The `u16` shift by three: the low three bits are clear, the upper bits are the channel field modulo 2^13, and below 2^13 the result is eight times the input |
| TypeTag.AsOpencvValue | src/wrapper/core.rs:16-22 | The tag fits 16 bits and its low three bits are the depth. For a valid type, the tag is below 4096 and its upper bits are the channel field |
| TypeTag.FromOpencvValue | src/wrapper/core.rs:24-29 | Succeeds iff `(value >> 3) as u16 < 512`. On success, the type is valid, its depth is `value & 7` and its channel field is `(value >> 3) as u16`. On failure, the error is `UnsupportedChannelCount((value >> 3) as u16, 512)` |
| TypeTag.RoundTrip | src/wrapper/core.rs:20-29 | Decoding the encoding of a valid type gives the type back |
| TypeTag.DecodeEncode | src/core.rs:145-150 | Every tag in [0, 4096) decodes, so the `unwrap` in `mat_type` cannot panic, and re-encoding gives the tag back |
| TypeTag.DecodeFailsIff | src/wrapper/core.rs:24-29 | For 0 <= value < 2^19, decoding fails iff value >= 4096, and the error carries `value >> 3` and 512 |
| TypeTag.DecodeTruncatesChannels | src/wrapper/core.rs:26 | 2^19 decodes to `Ok(U8, 0)`, because the `as u16` cast drops the high bits |
| TypeTag.CvTypeIsEncoding | src/core.rs:217-238 | The CvType constants are the encodings of 8-bit types with channel field 0, 1 and 2 |
| TypeTag.ChannelCountOffByOne | src/wrapper/core.rs:20-22 | As written: a 1-channel 8-bit type encodes as `Cv8UC2`, and `Cv8UC1` decodes to 0 channels |
| TypeTag.MakeType | src/wrapper/core.rs:20-22 | Corrected encoding: the low bits are the depth, the upper bits are the channel count minus one, and the tag is below 4096 |
| TypeTag.TypeOfTag | src/wrapper/core.rs:24-29 | Corrected decoding: always a count in 1..512, with depth `value & 7` and count `((value >> 3) & 511) + 1` |
| TypeTag.MakeTypeRoundTrip | src/wrapper/core.rs:20-29 | Corrected decoding inverts corrected encoding |
| TypeTag.TagRoundTrip | src/wrapper/core.rs:20-29 | Corrected encoding inverts corrected decoding on every tag in [0, 4096) |
| TypeTag.MakeTypeMatchesCvType | src/core.rs:217-238 | With the count stored minus one, `Cv8UC1/2/3` are exactly the 8-bit types with 1, 2 and 3 channels, in both directions |
| Flip.NativeCode | src/core.rs:133-142 | The code passed to native code reverses rows iff the flip is not `YAxis`, and reverses columns iff it is not `XAxis` |
| Flip.NativeCodeValues | src/core.rs:134-138 | The literal codes are 0, 1 and -1 |
| Flip.Flipped | src/core.rs:208-215 | The documented index maps keep the image's dimensions |
| Flip.NativeFlip | src/core.rs:139-141 | The native flip for an integer code keeps the image's dimensions, and pixel (i, j) comes from row `rows-1-i` when the code reverses rows and column `cols-1-j` when it reverses columns |
| Flip.NativeFlipMatchesDoc | src/core.rs:133-142 | For every image, the native flip with the code `flip` passes equals the documented index map of the `FlipCode` |
| Flip.FlipTwice | src/core.rs:208-215 | Flipping twice with the same code restores the image |
| Flip.FlipXThenY | src/core.rs:208-215 | An x-axis flip followed by a y-axis flip is the both-axes flip |
| Flip.FlipYThenX | src/core.rs:208-215 | A y-axis flip followed by an x-axis flip is the both-axes flip |
| Flip.FlipInPlace | src/core.rs:139-141 | The in-place flip of the pixel array leaves exactly the native flip of the old pixels |
| WrapperTypes.ScalarNew | src/wrapper/mod.rs:23-30 | The four values are stored in order |
| WrapperTypes.Size2iNew | src/wrapper/mod.rs:68-73 | Width and height are stored as given |
| WrapperTypes.RectNew | src/wrapper/mod.rs:104-111 | The four fields are stored as given |
| WrapperTypes.RectDefault | src/wrapper/mod.rs:89-100 | The derived default is all zeros |
| WrapperTypes.RectEqualityIsFieldwise | src/wrapper/mod.rs:89-100 | Two rectangles are equal iff their four fields are equal |
| WrapperTypes.CVecOfRectDefault | src/wrapper/mod.rs:147-154 | The default is a null buffer of size 0 |
| WrapperTypes.CVecDoubleDefault | src/wrapper/mod.rs:189-196 | The default is a null buffer of size 0 |
| WrapperTypes.RustifyRects | src/wrapper/mod.rs:167-173 | Yields exactly `size` elements, namely `array[0..size]` |
| WrapperTypes.RustifyDoubles | src/wrapper/mod.rs:181-187 | Yields `size - 1` elements (none for size 0), namely `array[1..size]` |
| WrapperTypes.DefaultRustifiesEmpty | src/wrapper/mod.rs:147-154 | A default vector of either kind converts to an empty sequence |
| WrapperTypes.SingleDoubleReadsNothing | src/wrapper/mod.rs:182-186 | A vector of size 1 converts to an empty sequence whatever its buffer, even a null one |
| WrapperTypes.DoublesDropFirst | src/wrapper/mod.rs:168-186 | For equal non-zero sizes, the doubles come out one shorter than the rectangles |
| Mats.NativeStore.Alloc | src/wrapper/core.rs:10-14 | A fresh handle becomes live, and nothing else changes |
| Mats.NativeStore.Release | src/core.rs:153-159 | A live handle moves from live to released |
| Mats.Mat.FromRaw | src/core.rs:21-25 | Wraps the given handle |
| Mats.Mat.New | src/core.rs:28-30 | A fresh live handle for an empty matrix |
| Mats.Mat.FromBuffer | src/core.rs:57-60 | A fresh live handle with the given dimensions and type tag |
| Mats.Mat.WithSize | src/core.rs:63-66 | A fresh live handle with the given dimensions, whose `mat_type` reads back as the given type |
| Mats.Mat.Zeros | src/core.rs:69-72 | A fresh live handle with the given dimensions and tag, and all pixels 0 |
| Mats.Mat.Rows | src/core.rs:93-96 | The height of the native matrix, never negative |
| Mats.Mat.Cols | src/core.rs:98-101 | The width of the native matrix, never negative |
| Mats.Mat.Size | src/core.rs:105-110 | The width is the column count and the height the row count |
| Mats.Mat.MatTypeOf | src/core.rs:145-150 | The decoded type is valid and encodes back to the native tag |
| Mats.Mat.Flip | src/core.rs:133-142 | The pixels become the documented flip of the old pixels |
| Mats.Mat.LogicAnd | src/core.rs:126-130 | The mask's handle is released, and the receiver keeps its handle |
| Mats.Mat.Drop | src/core.rs:153-159 | The owned handle goes from live to released, exactly once |
| Mats.Mat.Roi | src/core.rs:118-121 | A fresh live handle with the rectangle's dimensions and the receiver's type |
| Mats.Mat.InRange | src/core.rs:329-333 | A fresh live handle of the same size and type CV_8U with one channel. The receiver is unchanged |
| Mats.Mat.MixChannels | src/core.rs:339-351 | A fresh live handle made by `with_size`, with the receiver's size and type. The receiver is unchanged |
| Mats.Mat.Normalize | src/core.rs:354-358 | A fresh live handle of the same size. The receiver is unchanged |
| Mats.Mat.And | src/core.rs:361-365 | A fresh live handle, distinct from both operands. Both operands are unchanged |
| Mats.Mat.Or | src/core.rs:368-372 | A fresh live handle, distinct from both operands. Both operands are unchanged |
| Mats.Mat.Xor | src/core.rs:375-379 | A fresh live handle, distinct from both operands. Both operands are unchanged |
| Mats.Mat.Not | src/core.rs:382-386 | A fresh live handle, distinct from the operand. The operand is unchanged |
| Mats.CombineAndRelease | src/core.rs:153-159 | A caller that allocates, combines, masks and drops matrices ends with exactly the live handles it started with |
| HighGui.DelayDefault | src/highgui.rs:88-92 | The default delay is `Forever` |
| HighGui.DelayMsec | src/highgui.rs:64-68 | `Forever` maps to 0 and `Msec(n)` to n. The argument is at most 0 iff the documented wait is indefinite |
| HighGui.KeyFromResult | src/highgui.rs:70-76 | A key is reported iff the native result is non-negative, and it is that result |
| HighGui.WaitKey | src/highgui.rs:64-77 | Reports the native key code for the mapped delay iff that code is non-negative |
| HighGui.DefaultWaitsIndefinitely | src/highgui.rs:79-92 | The default delay waits indefinitely and passes 0 to native code |
| HighGui.EventTypeFromI32 | src/highgui.rs:171 | The `transmute` of 0..11 yields the kind with that discriminant |
| HighGui.EventTypeRoundTrip | src/highgui.rs:226-254 | Every event kind is recovered from its discriminant |
| HighGui.FromBitsTruncate | src/highgui.rs:172 | No undefined bit survives, and a flag is set iff its bit is set in the input |
| HighGui.AllFlagsIsTheSixBits | src/highgui.rs:208-224 | The kept bits are exactly the six defined flags |
| HighGui.TruncateIdempotent | src/highgui.rs:172 | Truncating twice is truncating once |
| HighGui.DecodedFlagsDetermineBits | src/highgui.rs:172 | Two words give the same flags iff they agree on the six defined bits |
| HighGui.CStringNew | src/highgui.rs:140 | Fails iff the name holds a NUL, and otherwise keeps the name |
| MouseCallbacks.FreeBeforeUnregisterDangles | src/highgui.rs:114-123 | Freeing a wrapper that a window still points at breaks the no-dangling-pointer invariant |
| MouseCallbacks.Gui.CreateNamedWindow | src/highgui.rs:23-31 | Adds a window without a callback, and does nothing if the name exists |
| MouseCallbacks.Gui.DestroyWindow | src/highgui.rs:33-39 | Removes the window and its callback, leaving the heap unchanged |
| MouseCallbacks.Gui.SetNativeCallback | src/highgui.rs:14-18 | Installs or clears the callback of an existing window, and ignores unknown names |
| MouseCallbacks.Gui.Trampoline | src/highgui.rs:161-179 | Calls the stored callback once, with the decoded event, truncated flags and stored user data. The heap is left unchanged |
| MouseCallbacks.Gui.DeliverEvent | src/highgui.rs:142-146 | An event reaches the installed wrapper's callback once, and reaches no callback if none is installed |
| MouseCallbacks.MouseCallbackHandle.constructor | src/highgui.rs:149-152 | The handle holds the wrapper address and the name |
| MouseCallbacks.MouseCallbackHandle.Drop | src/highgui.rs:114-123 | Unregisters and then frees. No window still points at the wrapper, the wrapper is freed exactly once, and no callback runs |
| MouseCallbacks.SetMouseCallback | src/highgui.rs:129-153 | Allocates one new wrapper holding the callback and data, and installs the trampoline with its address if the window exists |
| MouseCallbacks.DeliverAll | src/highgui.rs:161-179 | Delivering n events runs the installed callback n times, in order, with each event's arguments |
| MouseCallbacks.RegisterDeliverDrop | src/highgui.rs:104-107 | Over register, deliver, drop, deliver: one call per event before the drop, none after, and one free |
| Camshift.InitialSelection | examples/camshift.rs:42-45 | The shared record starts with a default rectangle and no completed selection |
| Camshift.AfterMouse | examples/camshift.rs:18-39 | A press sets only the corner. A release sets the size so the far corner is the pointer, and the status becomes status-or-positive. Other events change nothing. Status is never cleared |
| Camshift.SelectionStatus.constructor | examples/camshift.rs:42-45 | The record starts as `InitialSelection` |
| Camshift.SelectionStatus.OnMouse | examples/camshift.rs:18-39 | The field-by-field update leaves the record `AfterMouse` describes |
| Camshift.InitialSession | examples/camshift.rs:54-60 | Not tracking, with the default track window |
| Camshift.AfterHandOff | examples/camshift.rs:71-94 | Tracking iff it was tracking or a selection was complete. The status is cleared, and the track window becomes the completed selection |
| Camshift.Next | examples/camshift.rs:62-94 | A frame is a hand-off. An event leaves tracking and the track window alone. Coordinates stay in range |
| Camshift.Run | examples/camshift.rs:62-108 | Any run keeps the corner coordinates in range, so no release overflows |
| Camshift.TrackingNeverResets | examples/camshift.rs:54-92 | Once tracking has started, it stays on for any later sequence of events and frames |
| Camshift.EventsAloneDoNotTrack | examples/camshift.rs:18-39 | Events without a frame never change tracking or the track window |
| Camshift.DragSelects | examples/camshift.rs:23-35 | Down at (10,20) and up at (50,70) give {10, 20, 40, 50} with status set, and the next frame tracks that rectangle |
| Camshift.PendingSelectionTurnsNegative | examples/camshift.rs:23-35 | As written: down, up, down, up, frame makes `roi` receive a rectangle of size -10 x -10, which no image contains |
| Camshift.AfterMouseFixed | examples/camshift.rs:18-39 | Corrected handler: a press clears the status, and a release sets it iff both sides are positive |
| Camshift.CorrectedStepKeepsPositive | examples/camshift.rs:18-39 | With the corrected handler, one step keeps a pending or tracked rectangle positive |
| Camshift.CorrectedTrackWindowPositive | examples/camshift.rs:71-94 | With the corrected handler, every run keeps a pending or tracked rectangle positive |
| Camshift.PressMovesPendingSelection | examples/camshift.rs:23-35 | As written: down, up, down at (600, 800), frame makes `roi` receive `Rect {600, 800, 40, 50}`, outside a 640 x 480 frame. With the corrected handler, the same steps track nothing |
| Camshift.CorrectedFromStart | examples/camshift.rs:41-94 | From `main`'s start, the corrected handler only ever tracks positive rectangles |
| Camshift.Tracker.constructor | examples/camshift.rs:54-60 | Not tracking, the default window, and one fresh empty histogram handle |
| Camshift.Tracker.SelectionHistogram | examples/camshift.rs:76-87 | One new live handle. The two region views and the raw histogram are released again |
| Camshift.Tracker.MaskedHistogram | examples/camshift.rs:78-86 | One new live handle. The mask region is released again |
| Camshift.Tracker.RegionHistogram | examples/camshift.rs:80-87 | One new live handle. The raw histogram is released again |
| Camshift.Tracker.HandOff | examples/camshift.rs:71-94 | The loop state follows `AfterHandOff`. On hand-off, the old histogram's handle is replaced by one fresh handle. Otherwise nothing changes |
| Camshift.Tracker.Track | examples/camshift.rs:97-105 | Exactly the mask's handle is released |
| Camshift.Tracker.Prepare | examples/camshift.rs:62-69 | The frame is mirrored as `YAxis` documents, and three fresh live handles of the frame's size are made |
| Camshift.Tracker.Process | examples/camshift.rs:71-108 | The loop state follows `AfterHandOff`. The four per-pass handles are released, as is the old histogram on hand-off |
| Camshift.Tracker.Finish | examples/camshift.rs:97-108 | The frame's handle and its three derived handles are released, and no other handle is |
| Camshift.Tracker.Frame | examples/camshift.rs:62-108 | A pass leaves the loop state `AfterHandOff` describes and releases the frame. The live set changes only by swapping the histogram |
| Camshift.StartAndProcess | examples/camshift.rs:41-108 | Setup, then a drag inside the frame, then one pass: tracking starts on the dragged rectangle, and the live handles are the histogram's in place of the frame's |

## Left out

- Pixel values computed by native code: `in_range`, `mix_channels`, `normalize`, `and`/`or`/`xor`/`not` and `logic_and` are modelled only for handle ownership, size and type. `flip` is the exception, and its pixels are modelled.
- A region from `roi` shares pixels with its parent in OpenCV. The model gives it a fresh pixel array, so writes through a region are not seen in the parent.
- Mats.Mat.FromBuffer: the native matrix borrows `buf`'s memory rather than copying it, and dropping the `Mat` frees that memory, so the caller must `mem::forget` it (src/core.rs:32-35). The model captures neither the sharing nor the double free, and does not relate the new pixels to `buf`.
- Mats.Mat.FromBuffer: requires `0 <= cvType < 4096` and non-negative dimensions, although the Rust passes any `i32` on. Native matrices are taken to keep type tags in the range `mat_type` can decode, and a pixel array cannot have a negative size.
- Mats.Mat.Zeros: requires `0 <= t < 4096` and non-negative dimensions, although the Rust passes any `i32` on, for the same reasons.
- Mats.Mat.Roi: requires the rectangle to lie inside the matrix. The Rust does not check this, and OpenCV aborts on a region outside the matrix.
- `data`, `total`, `elem_size`, `is_valid`, `count_non_zero`, `show_mat`, `WindowFlags`, `LineTypes`, and the `Drop` of `CVecOfRect`: native queries and calls with no logic on the Rust side.
- `Rect::scale`, `Rect::normalize_to_mat`, `Rect2f::normalize_to_mat` and `RotatedRect`: floating-point code.
- src/video.rs, src/wrapper/functions.rs, src/wrapper/videoio.rs, src/lib.rs and examples/face_detect.rs are not part of this model. The imgproc calls of the example (`cvt_color`, `calc_hist`, `calc_back_project`, `camshift`, `rectangle`) are defined outside the files modelled here. Each appears only as a new handle of the right size where it creates one.
- Video capture and the window display of each frame (`cap.read`, `m.show`): the frame arrives as a parameter.
- Concurrency: the `Arc<Mutex<…>>` around the selection, the `Send`/`Sync` bounds, and the callback running on another thread are modelled as sequential updates.
- MouseCallbacks.Gui: holds wrappers of one user-data type `T` per instance.
- MouseCallbacks.Gui.Trampoline: the user callback is an opaque function-pointer id, and each call is recorded in a log. The revive (`Box::from_raw`) and leak (`mem::forget`) are modelled by their net effect: the heap is unchanged.
- MouseCallbacks.SetMouseCallback: a name holding a NUL byte makes the source panic, so the model requires there is none. `HighGui.CStringNew` states that failure as a value.
- HighGui.EventTypeFromI32: the `transmute` of an integer outside 0..11 is undefined behaviour, so it is a precondition.
- Camshift.AfterMouse: the release subtracts in `i32`, and an overflow panics in a debug build. The model requires the difference to fit (`UpFits`), and runs keep coordinates within ±2^30.
- Camshift.SelectionStatus.OnMouse: takes the decoded `MouseEventType`, not the raw `i32`.
- Camshift.Tracker.Frame: requires a pending selection to lie inside the frame, because `roi` aborts in native code otherwise. The example does not check this (see Findings).
- Camshift.Tracker.Frame: models the loop body. `main`'s `while let` loop over captured frames is modelled by `Camshift.Run` over events and frames, not as an imperative loop.
- TypeTag.DecodeFailsIff: stated only for tags below 2^19. From 2^19 on, the `as u16` cast wraps, so some large tags decode (`TypeTag.DecodeTruncatesChannels`).
- TypeTag.AsOpencvValue: written with arithmetic (`* 8 mod 2^16`, `+`) rather than `bv16` `<<` and `|`.

## Findings

| source | as written | input that shows it | evidently intended | confidence | as-written member | corrected member |
|---|---|---|---|---|---|---|
| src/wrapper/core.rs:20-29 | The channel field of the tag is the `channels` value itself, both ways | `MatType::new(Unsigned8, 1)` encodes to 8, which is `Cv8UC2` in the table at src/core.rs:217-238. A `Cv8UC1` matrix's `mat_type().channels()` is 0 | The tag holds the channel count minus one, as OpenCV's `CV_MAKETYPE` and `CV_MAT_CN` do, so `channels()` is the channel count | medium, not executed | TypeTag.ChannelCountOffByOne | TypeTag.MakeType, TypeTag.TypeOfTag, TypeTag.MakeTypeRoundTrip, TypeTag.MakeTypeMatchesCvType |
| examples/camshift.rs:23-35 | A press never clears `status`, and a release only ever sets it | Left down (10,20), up (50,70), then down (600,800) before the next frame: the frame hands `Rect {600, 800, 40, 50}` to `roi`, outside a 640 x 480 frame. Adding up (50,70) instead of (600,800) after a down at (60,80) gives `Rect {60, 80, -10, -10}` | Only the rectangle the user finished dragging, with positive sides, is handed to `roi` | low, not executed; needs a press between a release and the next frame | Camshift.PressMovesPendingSelection, Camshift.PendingSelectionTurnsNegative | Camshift.AfterMouseFixed, Camshift.CorrectedTrackWindowPositive |
