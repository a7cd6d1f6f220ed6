// The CAMShift example (examples/camshift.rs): a mouse handler that builds a
// selection rectangle from button events, and the frame loop that hands a
// completed selection over to the tracker.

module Camshift {
  import opened Prim
  import opened WrapperTypes
  import opened HighGui
  import opened MatTypes
  import opened Flip
  import opened Mats

  // ---------------------------------------------------------------------
  // The shared selection record and the mouse handler

  /** `SelectionStatus`: the rectangle being selected, and whether it is complete. */
  datatype Selection = Selection(selection: Rect, status: bool)

  /** The record `main` starts with: a default rectangle, no completed selection. */
  function InitialSelection(): (s: Selection)
    ensures s.selection == RectDefault() && !s.status
  {
    Selection(RectDefault(), false)
  }

  /** The subtractions of a button release at (x, y) do not overflow an `i32`. */
  predicate UpFits(s: Selection, x: i32, y: i32) {
    InI32(x - s.selection.x) && InI32(y - s.selection.y)
  }

  /**
   * `on_mouse` as written: a press moves the corner, a release sets the
   * size from the corner to the pointer and marks the selection complete
   * when both sides are positive; nothing ever clears the mark.
   */
  function AfterMouse(s: Selection, e: MouseEventType, x: i32, y: i32): (r: Selection)
    requires e == LButtonUp ==> UpFits(s, x, y)
    ensures e == LButtonDown ==>
              r.selection.x == x && r.selection.y == y &&
              r.selection.width == s.selection.width && r.selection.height == s.selection.height &&
              r.status == s.status
    ensures e == LButtonUp ==>
              r.selection.x == s.selection.x && r.selection.y == s.selection.y &&
              r.selection.x + r.selection.width == x && r.selection.y + r.selection.height == y &&
              (r.status <==> s.status || (r.selection.width > 0 && r.selection.height > 0))
    ensures e != LButtonDown && e != LButtonUp ==> r == s
    ensures s.status ==> r.status
  {
    match e
    case LButtonDown => s.(selection := s.selection.(x := x, y := y))
    case LButtonUp =>
      var sel := s.selection.(width := x - s.selection.x, height := y - s.selection.y);
      Selection(sel, s.status || (sel.width > 0 && sel.height > 0))
    case _ => s
  }

  /** The shared `SelectionStatus`, updated field by field as `on_mouse` does. */
  class SelectionStatus {
    var selection: Rect
    var status: bool

    function State(): Selection
      reads this
    {
      Selection(selection, status)
    }

    constructor ()
      ensures State() == InitialSelection()
    {
      selection := RectDefault();
      status := false;
    }

    /** `on_mouse`, for an event already decoded from its `i32` discriminant. */
    method OnMouse(e: MouseEventType, x: i32, y: i32)
      requires e == LButtonUp ==> UpFits(State(), x, y)
      modifies this
      ensures State() == AfterMouse(old(State()), e, x, y)
    {
      match e {
        case LButtonDown =>
          selection := selection.(x := x);
          selection := selection.(y := y);
        case LButtonUp =>
          selection := selection.(width := x - selection.x);
          selection := selection.(height := y - selection.y);
          if selection.width > 0 && selection.height > 0 {
            status := true;
          }
        case _ =>
      }
    }
  }

  // ---------------------------------------------------------------------
  // The frame loop's hand-off, as a state machine over events and frames

  /** The loop state `main` keeps besides the shared record. */
  datatype Session = Session(shared: Selection, isTracking: bool, trackWindow: Rect)

  function InitialSession(): (s: Session)
    ensures s.shared == InitialSelection() && !s.isTracking && s.trackWindow == RectDefault()
  {
    Session(InitialSelection(), false, RectDefault())
  }

  /**
   * One pass of the loop's locked block: a completed selection becomes the
   * track window, its mark is cleared and tracking starts; otherwise
   * nothing changes.
   */
  function AfterHandOff(s: Session): (r: Session)
    ensures r.isTracking <==> s.isTracking || s.shared.status
    ensures r.shared.selection == s.shared.selection && !r.shared.status
    ensures r.trackWindow == if s.shared.status then s.shared.selection else s.trackWindow
  {
    if s.shared.status then Session(s.shared.(status := false), true, s.shared.selection)
    else s
  }

  /**
   * A corrected handler: a press starts a new selection, clearing any
   * completed one, and a release marks it complete exactly when both sides
   * are positive.
   */
  function AfterMouseFixed(s: Selection, e: MouseEventType, x: i32, y: i32): (r: Selection)
    requires e == LButtonUp ==> UpFits(s, x, y)
    ensures e == LButtonDown ==>
              r.selection.x == x && r.selection.y == y &&
              r.selection.width == s.selection.width && r.selection.height == s.selection.height &&
              !r.status
    ensures e == LButtonUp ==>
              r.selection.x == s.selection.x && r.selection.y == s.selection.y &&
              r.selection.x + r.selection.width == x && r.selection.y + r.selection.height == y &&
              (r.status <==> r.selection.width > 0 && r.selection.height > 0)
    ensures e != LButtonDown && e != LButtonUp ==> r == s
  {
    match e
    case LButtonDown => Selection(s.selection.(x := x, y := y), false)
    case LButtonUp =>
      var sel := s.selection.(width := x - s.selection.x, height := y - s.selection.y);
      Selection(sel, sel.width > 0 && sel.height > 0)
    case _ => s
  }

  /** Which mouse handler a run uses. */
  datatype Handler = AsWritten | Corrected

  /** Something that happens between two observations of the loop state. */
  datatype Step = Mouse(e: MouseEventType, x: i32, y: i32) | NextFrame

  /** Window coordinates stay well inside an `i32`, so no release overflows. */
  const COORD_BOUND: int := 0x4000_0000

  predicate Coord(v: int) {
    -COORD_BOUND <= v < COORD_BOUND
  }

  predicate SelectionOk(s: Selection) {
    Coord(s.selection.x) && Coord(s.selection.y)
  }

  predicate StepOk(st: Step) {
    st.Mouse? ==> Coord(st.x) && Coord(st.y)
  }

  predicate StepsOk(steps: seq<Step>) {
    forall i :: 0 <= i < |steps| ==> StepOk(steps[i])
  }

  /** One event through the chosen handler, or one frame's hand-off. */
  function Next(h: Handler, s: Session, st: Step): (r: Session)
    requires SelectionOk(s.shared) && StepOk(st)
    ensures SelectionOk(r.shared)
    ensures st.NextFrame? ==> r == AfterHandOff(s)
    ensures st.Mouse? ==> r.isTracking == s.isTracking && r.trackWindow == s.trackWindow
  {
    match st
    case NextFrame => AfterHandOff(s)
    case Mouse(e, x, y) =>
      var sel := if h == AsWritten then AfterMouse(s.shared, e, x, y) else AfterMouseFixed(s.shared, e, x, y);
      s.(shared := sel)
  }

  /** The loop state after a sequence of events and frames. */
  function Run(h: Handler, s: Session, steps: seq<Step>): (r: Session)
    requires SelectionOk(s.shared) && StepsOk(steps)
    ensures SelectionOk(r.shared)
    decreases |steps|
  {
    if steps == [] then s
    else Run(h, Next(h, s, steps[0]), steps[1..])
  }

  /** Once tracking has started it never stops, whatever happens next. */
  lemma {:induction false} TrackingNeverResets(h: Handler, s: Session, steps: seq<Step>)
    requires SelectionOk(s.shared) && StepsOk(steps)
    requires s.isTracking
    ensures Run(h, s, steps).isTracking
    decreases |steps|
  {
    if steps != [] {
      TrackingNeverResets(h, Next(h, s, steps[0]), steps[1..]);
    }
  }

  /** Without a frame in between, events never touch the tracker's state. */
  lemma {:induction false} EventsAloneDoNotTrack(h: Handler, s: Session, steps: seq<Step>)
    requires SelectionOk(s.shared) && StepsOk(steps)
    requires forall i :: 0 <= i < |steps| ==> steps[i].Mouse?
    ensures Run(h, s, steps).isTracking == s.isTracking
    ensures Run(h, s, steps).trackWindow == s.trackWindow
    decreases |steps|
  {
    if steps != [] {
      EventsAloneDoNotTrack(h, Next(h, s, steps[0]), steps[1..]);
    }
  }

  /**
   * A press at (10, 20) and a release at (50, 70) select the rectangle
   * at (10, 20) of size 40 x 50 and mark it complete; the next frame
   * starts tracking it.
   */
  lemma DragSelects()
    ensures Run(AsWritten, InitialSession(), [Mouse(LButtonDown, 10, 20), Mouse(LButtonUp, 50, 70)]).shared
            == Selection(Rect(10, 20, 40, 50), true)
    ensures var r := Run(AsWritten, InitialSession(),
                         [Mouse(LButtonDown, 10, 20), Mouse(LButtonUp, 50, 70), NextFrame]);
            r.isTracking && r.trackWindow == Rect(10, 20, 40, 50) && !r.shared.status
  {
    var s0 := InitialSession();
    var s1 := Next(AsWritten, s0, Mouse(LButtonDown, 10, 20));
    var s2 := Next(AsWritten, s1, Mouse(LButtonUp, 50, 70));
    var s3 := Next(AsWritten, s2, NextFrame);
    assert s2.shared == Selection(Rect(10, 20, 40, 50), true);
    var two := [Mouse(LButtonDown, 10, 20), Mouse(LButtonUp, 50, 70)];
    assert two[1..] == [Mouse(LButtonUp, 50, 70)];
    assert Run(AsWritten, s0, two) == s2;
    var three := two + [NextFrame];
    assert three[1..] == [Mouse(LButtonUp, 50, 70), NextFrame];
    assert three[1..][1..] == [NextFrame];
    assert Run(AsWritten, s2, [NextFrame]) == s3;
    assert Run(AsWritten, s1, three[1..]) == s3;
    assert Run(AsWritten, s0, three) == s3;
  }

  /** A selection handed to the tracker has both sides positive. */
  predicate PendingPositive(s: Selection) {
    s.status ==> s.selection.width > 0 && s.selection.height > 0
  }

  /** What `Mat::roi` needs of the track window: once tracking, it is not empty. */
  predicate TrackWindowPositive(s: Session) {
    PendingPositive(s.shared) && (s.isTracking ==> s.trackWindow.width > 0 && s.trackWindow.height > 0)
  }

  /**
   * As written, a second press and release after a completed selection
   * keep the completion mark while the rectangle turns negative, and the
   * next frame hands that rectangle to `roi`, which no image can contain.
   */
  lemma PendingSelectionTurnsNegative()
    ensures var steps := [Mouse(LButtonDown, 10, 20), Mouse(LButtonUp, 50, 70),
                          Mouse(LButtonDown, 60, 80), Mouse(LButtonUp, 50, 70), NextFrame];
            var r := Run(AsWritten, InitialSession(), steps);
            r.isTracking && r.trackWindow == Rect(60, 80, -10, -10) &&
            !TrackWindowPositive(r) &&
            forall rows, cols :: !RectInside(r.trackWindow, rows, cols)
  {
    var s0 := InitialSession();
    var s1 := Next(AsWritten, s0, Mouse(LButtonDown, 10, 20));
    var s2 := Next(AsWritten, s1, Mouse(LButtonUp, 50, 70));
    var s3 := Next(AsWritten, s2, Mouse(LButtonDown, 60, 80));
    var s4 := Next(AsWritten, s3, Mouse(LButtonUp, 50, 70));
    var s5 := Next(AsWritten, s4, NextFrame);
    assert s4.shared == Selection(Rect(60, 80, -10, -10), true);
    var steps := [Mouse(LButtonDown, 10, 20), Mouse(LButtonUp, 50, 70),
                  Mouse(LButtonDown, 60, 80), Mouse(LButtonUp, 50, 70), NextFrame];
    assert steps[1..][1..][1..][1..] == [NextFrame];
    assert Run(AsWritten, s4, [NextFrame]) == s5;
    assert Run(AsWritten, s3, steps[1..][1..][1..]) == s5;
    assert Run(AsWritten, s2, steps[1..][1..]) == s5;
    assert Run(AsWritten, s1, steps[1..]) == s5;
  }

  /**
   * As written, a single press after a completed selection already moves
   * the corner of the rectangle still marked complete: the next frame
   * tracks a rectangle at the new corner with the old size, which in a
   * 640 x 480 frame lies outside the image. With the corrected handler
   * the press withdraws the selection and nothing is tracked.
   */
  lemma PressMovesPendingSelection()
    ensures var steps := [Mouse(LButtonDown, 10, 20), Mouse(LButtonUp, 50, 70),
                          Mouse(LButtonDown, 600, 800), NextFrame];
            var r := Run(AsWritten, InitialSession(), steps);
            r.isTracking && r.trackWindow == Rect(600, 800, 40, 50) &&
            !RectInside(r.trackWindow, 480, 640) &&
            !Run(Corrected, InitialSession(), steps).isTracking
  {
    var steps := [Mouse(LButtonDown, 10, 20), Mouse(LButtonUp, 50, 70),
                  Mouse(LButtonDown, 600, 800), NextFrame];
    assert steps[1..][1..][1..] == [NextFrame];
    var s0 := InitialSession();
    var a3 := Next(AsWritten, Next(AsWritten, Next(AsWritten, s0, steps[0]), steps[1]), steps[2]);
    assert a3.shared == Selection(Rect(600, 800, 40, 50), true);
    assert Run(AsWritten, a3, [NextFrame]) == AfterHandOff(a3);
    var c3 := Next(Corrected, Next(Corrected, Next(Corrected, s0, steps[0]), steps[1]), steps[2]);
    assert !c3.shared.status && !c3.isTracking;
    assert Run(Corrected, c3, [NextFrame]) == AfterHandOff(c3);
  }

  /** The corrected handler keeps a completed selection positive, step by step. */
  lemma CorrectedStepKeepsPositive(s: Session, st: Step)
    requires SelectionOk(s.shared) && StepOk(st) && TrackWindowPositive(s)
    ensures TrackWindowPositive(Next(Corrected, s, st))
  {
  }

  /** With the corrected handler, every window tracking starts on is positive. */
  lemma {:induction false} CorrectedTrackWindowPositive(s: Session, steps: seq<Step>)
    requires SelectionOk(s.shared) && StepsOk(steps) && TrackWindowPositive(s)
    ensures TrackWindowPositive(Run(Corrected, s, steps))
    decreases |steps|
  {
    if steps != [] {
      CorrectedStepKeepsPositive(s, steps[0]);
      CorrectedTrackWindowPositive(Next(Corrected, s, steps[0]), steps[1..]);
    }
  }

  /** The run of `main`, from its initial state, with the corrected handler. */
  lemma CorrectedFromStart(steps: seq<Step>)
    requires StepsOk(steps)
    ensures var r := Run(Corrected, InitialSession(), steps);
            r.isTracking ==> r.trackWindow.width > 0 && r.trackWindow.height > 0
  {
    CorrectedTrackWindowPositive(InitialSession(), steps);
  }

  // ---------------------------------------------------------------------
  // The frame loop's handle traffic

  /**
   * The state `main`'s loop carries from frame to frame: the histogram
   * matrix it owns, whether it tracks, and the window it tracks.
   */
  class Tracker {
    const store: NativeStore
    var isTracking: bool
    var trackWindow: Rect
    var hist: Mat

    ghost predicate Valid()
      reads this, store, hist, hist.inner
    {
      hist.store == store && hist.Valid()
    }

    /** The loop state together with the shared record, as the state machine sees it. */
    function SessionOf(current: SelectionStatus): Session
      reads this, current
    {
      Session(current.State(), isTracking, trackWindow)
    }

    /** `is_tracking = false`, `hist = Mat::new()`, `track_window = Rect::default()`. */
    constructor (store: NativeStore)
      requires store.Valid()
      modifies store
      ensures Valid() && this.store == store && fresh(hist) && fresh(hist.inner)
      ensures !isTracking && trackWindow == RectDefault()
      ensures store.live == old(store.live) + {hist.inner}
    {
      var h := Mat.New(store);
      this.store := store;
      isTracking := false;
      trackWindow := RectDefault();
      hist := h;
    }

    /**
     * The histogram of the region `selection` of `hue`, counted where `mask`
     * is set and normalized: a new matrix. The region views and the raw
     * histogram made on the way are released again.
     */
    static method SelectionHistogram(hue: Mat, mask: Mat, selection: Rect) returns (h: Mat)
      requires hue.Valid() && mask.Valid() && mask.store == hue.store
      requires RectInside(selection, hue.Rows(), hue.Cols())
      requires RectInside(selection, mask.Rows(), mask.Cols())
      modifies hue.store
      ensures fresh(h) && fresh(h.inner) && h.store == hue.store && h.Valid()
      ensures hue.Valid() && mask.Valid()
      ensures hue.store.live == old(hue.store.live) + {h.inner}
      ensures hue.store.released >= old(hue.store.released)
    {
      var roi := hue.Roi(selection);
      h := MaskedHistogram(roi, mask, selection);
      roi.Drop();
    }

    /**
     * The histogram of `roi`, counted where the region `selection` of `mask`
     * is set: a new matrix; the mask region is released again.
     */
    static method MaskedHistogram(roi: Mat, mask: Mat, selection: Rect) returns (h: Mat)
      requires roi.Valid() && mask.Valid() && mask.store == roi.store
      requires RectInside(selection, mask.Rows(), mask.Cols())
      modifies roi.store
      ensures fresh(h) && fresh(h.inner) && h.store == roi.store && h.Valid()
      ensures roi.Valid() && mask.Valid()
      ensures roi.store.live == old(roi.store.live) + {h.inner}
      ensures roi.store.released >= old(roi.store.released)
    {
      var maskroi := mask.Roi(selection);
      h := RegionHistogram(roi);
      maskroi.Drop();
    }

    /**
     * The normalized histogram of `roi`: a new matrix; the raw histogram it
     * is made from is released.
     */
    static method RegionHistogram(roi: Mat) returns (h: Mat)
      requires roi.Valid()
      modifies roi.store
      ensures fresh(h) && fresh(h.inner) && h.store == roi.store && h.Valid()
      ensures roi.store.live == old(roi.store.live) + {h.inner}
      ensures roi.store.released >= old(roi.store.released)
    {
      // calc_hist (not part of this model) yields a new matrix
      var rawHist := roi.Produce();
      h := rawHist.Normalize(0.0, 255.0, NormMinMax);
      rawHist.Drop();
    }

    /**
     * The locked block of the loop: a completed selection has the histogram
     * of its hue region replace the old one, whose handle is released,
     * becomes the track window, and starts tracking; otherwise nothing
     * changes.
     */
    method HandOff(current: SelectionStatus, hue: Mat, mask: Mat)
      requires Valid() && hue.Valid() && mask.Valid() && hue.store == store && mask.store == store
      requires hist.inner != hue.inner && hist.inner != mask.inner
      requires current.status ==> RectInside(current.selection, hue.Rows(), hue.Cols())
      requires current.status ==> RectInside(current.selection, mask.Rows(), mask.Cols())
      modifies this, store, current
      ensures Valid() && hue.Valid() && mask.Valid()
      ensures hist.inner != hue.inner && hist.inner != mask.inner
      ensures SessionOf(current) == AfterHandOff(old(SessionOf(current)))
      ensures old(current.status) ==>
                (fresh(hist) && fresh(hist.inner) &&
                 store.live == old(store.live) - {old(hist.inner)} + {hist.inner} &&
                 old(hist.inner) in store.released)
      ensures !old(current.status) ==> hist == old(hist) && store.live == old(store.live)
    {
      if current.status {
        var selection := current.selection;
        var newHist := SelectionHistogram(hue, mask, selection);
        hist.Drop();
        hist := newHist;
        trackWindow := selection;
        current.status := false;
        isTracking := true;
      }
    }

    /**
     * The tracking branch: a back projection of the hue plane (a new
     * matrix) is masked in place, which consumes `mask`, and is released.
     */
    method Track(hue: Mat, mask: Mat)
      requires Valid() && hue.Valid() && mask.Valid() && hue.store == store && mask.store == store
      requires mask.inner != hue.inner && mask.inner != hist.inner
      requires mask.Rows() == hue.Rows() && mask.Cols() == hue.Cols()
      ensures Valid() && hue.Valid()
      modifies store
      ensures store.live == old(store.live) - {mask.inner}
      ensures mask.inner in store.released
    {
      // calc_back_project (not part of this model) yields a new matrix of the hue's size
      var backProject := hue.Produce();
      backProject.LogicAnd(mask);
      backProject.Drop();
    }

    /**
     * The start of a pass: the frame is mirrored in place, converted (a new
     * matrix), and its hue plane and in-range mask are split off (two more).
     */
    static method Prepare(m: Mat) returns (hsv: Mat, hue: Mat, mask: Mat)
      requires m.Valid()
      modifies m.store, m.inner.data
      ensures m.Valid() && m.Image() == Flipped(old(m.Image()), YAxis)
      ensures fresh(hsv) && fresh(hsv.inner) && hsv.store == m.store && hsv.Valid()
      ensures fresh(hue) && fresh(hue.inner) && hue.store == m.store && hue.Valid()
      ensures fresh(mask) && fresh(mask.inner) && mask.store == m.store && mask.Valid()
      ensures hue.inner != mask.inner && hue.inner != hsv.inner && mask.inner != hsv.inner
      ensures hue.Rows() == mask.Rows() == m.Rows() && hue.Cols() == mask.Cols() == m.Cols()
      ensures m.store.live == old(m.store.live) + {hsv.inner, hue.inner, mask.inner}
      ensures m.store.released == old(m.store.released)
    {
      m.Flip(YAxis);
      // cvt_color (not part of this model) yields a new matrix of the frame's size
      hsv := m.Produce();
      hue := hsv.MixChannels(1, 1, 1);
      mask := hsv.InRange(ScalarNew(0, 30, 10, 0), ScalarNew(180, 256, 256, 0));
    }

    /**
     * One pass of the loop for a captured frame `m`, which it owns: flip,
     * convert, split off the hue and the mask, hand a completed selection
     * over, track, and release every matrix made on the way, and the frame.
     */
    method Frame(current: SelectionStatus, m: Mat)
      requires Valid() && m.Valid() && m.store == store && m.inner != hist.inner
      requires current.status ==> RectInside(current.selection, m.Rows(), m.Cols())
      modifies this, store, m.inner.data, current
      ensures Valid()
      ensures SessionOf(current) == AfterHandOff(old(SessionOf(current)))
      ensures old(current.status) ==>
                fresh(hist) && store.live == old(store.live) - {m.inner, old(hist.inner)} + {hist.inner}
      ensures !old(current.status) ==> hist == old(hist) && store.live == old(store.live) - {m.inner}
      ensures m.inner in store.released
    {
      var hsv, hue, mask := Prepare(m);
      Process(current, m, hsv, hue, mask);
    }

    /** The rest of a pass, once the hue plane and the mask exist. */
    method Process(current: SelectionStatus, m: Mat, hsv: Mat, hue: Mat, mask: Mat)
      requires Valid() && m.Valid() && hsv.Valid() && hue.Valid() && mask.Valid()
      requires m.store == store && hsv.store == store && hue.store == store && mask.store == store
      requires hist.inner !in {m.inner, hsv.inner, hue.inner, mask.inner}
      requires m.inner !in {hsv.inner, hue.inner, mask.inner}
      requires hue.inner != mask.inner && hue.inner != hsv.inner && mask.inner != hsv.inner
      requires hue.Rows() == mask.Rows() && hue.Cols() == mask.Cols()
      requires current.status ==> RectInside(current.selection, hue.Rows(), hue.Cols())
      modifies this, store, current
      ensures Valid()
      ensures SessionOf(current) == AfterHandOff(old(SessionOf(current)))
      ensures old(current.status) ==>
                (fresh(hist) &&
                 store.live == old(store.live) - {m.inner, hsv.inner, hue.inner, mask.inner, old(hist.inner)} + {hist.inner})
      ensures !old(current.status) ==>
                (hist == old(hist) && store.live == old(store.live) - {m.inner, hsv.inner, hue.inner, mask.inner})
      ensures m.inner in store.released
    {
      HandOff(current, hue, mask);
      Finish(m, hsv, hue, mask);
    }

    /**
     * The end of a pass: the mask goes to the tracking branch, or is released
     * unused; then the hue plane, the converted frame and the frame itself
     * are released.
     */
    method Finish(m: Mat, hsv: Mat, hue: Mat, mask: Mat)
      requires Valid() && m.Valid() && hsv.Valid() && hue.Valid() && mask.Valid()
      requires m.store == store && hsv.store == store && hue.store == store && mask.store == store
      requires hist.inner !in {m.inner, hsv.inner, hue.inner, mask.inner}
      requires m.inner !in {hsv.inner, hue.inner, mask.inner}
      requires hue.inner != mask.inner && hue.inner != hsv.inner && mask.inner != hsv.inner
      requires hue.Rows() == mask.Rows() && hue.Cols() == mask.Cols()
      modifies store
      ensures Valid()
      ensures store.live == old(store.live) - {m.inner, hsv.inner, hue.inner, mask.inner}
      ensures m.inner in store.released
    {
      if isTracking {
        Track(hue, mask);
      } else {
        mask.Drop();
      }
      hue.Drop();
      hsv.Drop();
      m.Drop();
    }
  }

  /**
   * `main` from its start: the record and the tracker are set up, events
   * and frames arrive, and the handles the loop keeps are one histogram.
   */
  method StartAndProcess(store: NativeStore, m: Mat, x0: i32, y0: i32, x1: i32, y1: i32)
    returns (current: SelectionStatus, t: Tracker)
    requires store.Valid() && m.Valid() && m.store == store
    requires 0 <= x0 < x1 <= m.Cols() && 0 <= y0 < y1 <= m.Rows()
    modifies store, m.inner.data
    ensures fresh(current) && fresh(t) && t.Valid()
    ensures t.isTracking && t.trackWindow == Rect(x0, y0, x1 - x0, y1 - y0) && !current.status
    ensures store.live == old(store.live) - {m.inner} + {t.hist.inner}
  {
    current := new SelectionStatus();
    t := new Tracker(store);
    current.OnMouse(LButtonDown, x0, y0);
    current.OnMouse(LButtonUp, x1, y1);
    t.Frame(current, m);
  }
}
