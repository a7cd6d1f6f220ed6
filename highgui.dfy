// The value-level parts of src/highgui.rs: the `wait_key` argument and
// result mapping, mouse event kinds and flags, and window-name conversion.

module HighGui {
  import opened Prim

  /** The duration `wait_key` should wait for a key press. */
  datatype Delay = Forever | Msec(msec: i32)

  /** `Delay::default()`. */
  function DelayDefault(): (d: Delay)
    ensures d.Forever?
  {
    Forever
  }

  /** As documented: `wait_key` waits without limit for `Forever` and for a delay of at most 0 ms. */
  predicate WaitsIndefinitely(d: Delay) {
    d.Forever? || d.msec <= 0
  }

  /** The millisecond count `wait_key` hands to the native call (which waits without limit for 0 or less). */
  function DelayMsec(delay: Delay): (ms: i32)
    ensures delay.Forever? ==> ms == 0
    ensures delay.Msec? ==> ms == delay.msec
    ensures ms <= 0 <==> WaitsIndefinitely(delay)
  {
    match delay
    case Forever => 0
    case Msec(msec) => msec
  }

  /** The key `wait_key` reports for a native result: the code if it is non-negative, else none. */
  function KeyFromResult(result: i32): (r: Option<i32>)
    ensures r.Some? <==> result >= 0
    ensures r.Some? ==> r.value == result
  {
    if result >= 0 then Some(result) else None
  }

  /**
   * `wait_key`, with the blocking native call as a parameter: the key code
   * the native layer returns for a given millisecond argument.
   */
  function WaitKey(delay: Delay, nativeWaitKey: i32 -> i32): (r: Option<i32>)
    ensures r.Some? <==> nativeWaitKey(DelayMsec(delay)) >= 0
    ensures r.Some? ==> r.value == nativeWaitKey(DelayMsec(delay))
  {
    KeyFromResult(nativeWaitKey(DelayMsec(delay)))
  }

  /** Waiting with the default delay asks the native layer to wait without limit. */
  lemma DefaultWaitsIndefinitely(nativeWaitKey: i32 -> i32)
    ensures WaitsIndefinitely(DelayDefault())
    ensures WaitKey(DelayDefault(), nativeWaitKey) == KeyFromResult(nativeWaitKey(0))
  {
  }

  // ---------------------------------------------------------------------
  // Mouse events

  /** The mouse event kinds, with their `repr(i32)` discriminants 0..11. */
  datatype MouseEventType =
    | MouseMove | LButtonDown | RButtonDown | MButtonDown
    | LButtonUp | RButtonUp | MButtonUp
    | LButtonDblClick | RButtonDblClick | MButtonDblClick
    | MouseWheel | MouseHWheel

  function EventTypeValue(e: MouseEventType): (n: nat)
    ensures n < 12
  {
    match e
    case MouseMove => 0
    case LButtonDown => 1
    case RButtonDown => 2
    case MButtonDown => 3
    case LButtonUp => 4
    case RButtonUp => 5
    case MButtonUp => 6
    case LButtonDblClick => 7
    case RButtonDblClick => 8
    case MButtonDblClick => 9
    case MouseWheel => 10
    case MouseHWheel => 11
  }

  /** The `transmute` of an event integer; defined only for the twelve discriminants. */
  function EventTypeFromI32(n: i32): (e: MouseEventType)
    requires 0 <= n < 12
    ensures EventTypeValue(e) == n
  {
    if n == 0 then MouseMove
    else if n == 1 then LButtonDown
    else if n == 2 then RButtonDown
    else if n == 3 then MButtonDown
    else if n == 4 then LButtonUp
    else if n == 5 then RButtonUp
    else if n == 6 then MButtonUp
    else if n == 7 then LButtonDblClick
    else if n == 8 then RButtonDblClick
    else if n == 9 then MButtonDblClick
    else if n == 10 then MouseWheel
    else MouseHWheel
  }

  /** Every event kind is recovered from its discriminant. */
  lemma EventTypeRoundTrip(e: MouseEventType)
    ensures EventTypeFromI32(EventTypeValue(e)) == e
  {
  }

  /** The six flags that `MouseEventFlags` defines. */
  datatype MouseEventFlag = LButton | RButton | MButton | CtrlKey | ShiftKey | AltKey

  function FlagBit(f: MouseEventFlag): (b: bv32)
    ensures b != 0
  {
    match f
    case LButton => 1
    case RButton => 2
    case MButton => 4
    case CtrlKey => 8
    case ShiftKey => 16
    case AltKey => 32
  }

  /** The union of the six defined bits. */
  const ALL_FLAGS: bv32 := 63

  /** A set of mouse event flags, held as its bits. */
  datatype MouseEventFlags = MouseEventFlags(bits: bv32) {
    predicate Contains(f: MouseEventFlag) {
      bits & FlagBit(f) == FlagBit(f)
    }
  }

  /** The bits of a C `int`, in two's complement. */
  function I32Bits(x: i32): bv32 {
    (if x < 0 then x + 0x1_0000_0000 else x) as bv32
  }

  /** `MouseEventFlags::from_bits_truncate`: every undefined bit is dropped. */
  function FromBitsTruncate(bits: bv32): (r: MouseEventFlags)
    ensures r.bits & !ALL_FLAGS == 0
    ensures forall f :: r.Contains(f) <==> bits & FlagBit(f) != 0
  {
    MouseEventFlags(bits & ALL_FLAGS)
  }

  /** The six flags together are exactly the bits `ALL_FLAGS` keeps. */
  lemma AllFlagsIsTheSixBits()
    ensures ALL_FLAGS == FlagBit(LButton) | FlagBit(RButton) | FlagBit(MButton)
                       | FlagBit(CtrlKey) | FlagBit(ShiftKey) | FlagBit(AltKey)
  {
  }

  /** Decoding is idempotent: decoded flags decode to themselves. */
  lemma TruncateIdempotent(bits: bv32)
    ensures FromBitsTruncate(FromBitsTruncate(bits).bits) == FromBitsTruncate(bits)
  {
  }

  /** Two words decode to the same flags exactly when they agree on the six defined bits. */
  lemma DecodedFlagsDetermineBits(a: bv32, b: bv32)
    ensures FromBitsTruncate(a) == FromBitsTruncate(b)
            <==> forall f :: (a & FlagBit(f) != 0) <==> (b & FlagBit(f) != 0)
  {
    if forall f :: (a & FlagBit(f) != 0) <==> (b & FlagBit(f) != 0) {
      assert FlagBit(LButton) == 1 && FlagBit(RButton) == 2 && FlagBit(MButton) == 4;
      assert FlagBit(CtrlKey) == 8 && FlagBit(ShiftKey) == 16 && FlagBit(AltKey) == 32;
      SameLowBits(a, b);
    }
  }

  lemma SameLowBits(a: bv32, b: bv32)
    requires (a & 1 != 0) == (b & 1 != 0) && (a & 2 != 0) == (b & 2 != 0)
    requires (a & 4 != 0) == (b & 4 != 0) && (a & 8 != 0) == (b & 8 != 0)
    requires (a & 16 != 0) == (b & 16 != 0) && (a & 32 != 0) == (b & 32 != 0)
    ensures a & ALL_FLAGS == b & ALL_FLAGS
  {
  }

  // ---------------------------------------------------------------------
  // Window names

  /**
   * `CString::new(name)`: fails exactly when the name holds a NUL byte.
   * Every function of the module `unwrap`s it, so such a name panics.
   */
  function CStringNew(name: string): (r: Option<string>)
    ensures r.Some? <==> '\0' !in name
    ensures r.Some? ==> r.value == name
  {
    if '\0' in name then None else Some(name)
  }
}
