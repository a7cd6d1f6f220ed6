// The element type of a Mat: a per-channel depth and a channel count
// (src/core.rs), and the fixed CvType constants of the same file.

module MatTypes {
  import opened Prim

  /** Channel depths of mats, with their OpenCV discriminants. */
  datatype MatDepth =
    | Unsigned8 | Signed8 | Unsigned16 | Signed16
    | Signed32 | Float32 | Float64 | UserDefined

  /** The discriminant of a depth (`depth as u16`). */
  function DepthValue(d: MatDepth): (n: nat)
    ensures n < 8
  {
    match d
    case Unsigned8 => 0
    case Signed8 => 1
    case Unsigned16 => 2
    case Signed16 => 3
    case Signed32 => 4
    case Float32 => 5
    case Float64 => 6
    case UserDefined => 7
  }

  /** The derived `FromPrimitive::from_i32`: the depth whose discriminant is `n`, if any. */
  function DepthFromPrimitive(n: int): (r: Option<MatDepth>)
    ensures r.Some? <==> 0 <= n < 8
    ensures r.Some? ==> DepthValue(r.value) == n
  {
    if n == 0 then Some(Unsigned8)
    else if n == 1 then Some(Signed8)
    else if n == 2 then Some(Unsigned16)
    else if n == 3 then Some(Signed16)
    else if n == 4 then Some(Signed32)
    else if n == 5 then Some(Float32)
    else if n == 6 then Some(Float64)
    else if n == 7 then Some(UserDefined)
    else None
  }

  /** Every depth is found again from its own discriminant. */
  lemma DepthRoundTrip(d: MatDepth)
    ensures DepthFromPrimitive(DepthValue(d)) == Some(d)
  {
  }

  /**
   * A mat type. Note that `channels` is stored exactly as given: by the
   * CvType table of src/core.rs a single-channel type encodes with a
   * channel field of 0, so for OpenCV's types this field holds the channel
   * count minus one.
   */
  datatype MatType = MatType(depth: MatDepth, channels: u16) {
    /** Returns the depth per channel. */
    function Depth(): (d: MatDepth)
      ensures d == depth
    {
      depth
    }

    /** Returns the channel count. */
    function Channels(): (c: u16)
      ensures c == channels
    {
      channels
    }
  }

  /** `MatType::MAX_CHANNELS`: the first channel count that is refused. */
  const MAX_CHANNELS: u16 := 512

  /** The invariant of every mat type built by `New`. */
  predicate Valid(t: MatType) {
    t.channels < MAX_CHANNELS
  }

  /** `MatType::new`: accepts a channel count below 512, otherwise reports it unchanged. */
  function New(depth: MatDepth, channels: u16): (r: Result<MatType>)
    ensures r.Ok? <==> channels < MAX_CHANNELS
    ensures r.Ok? ==> Valid(r.value) && r.value.Depth() == depth && r.value.Channels() == channels
    ensures r.Err? ==> r.error == UnsupportedChannelCount(channels, MAX_CHANNELS)
  {
    if channels < MAX_CHANNELS then Ok(MatType(depth, channels))
    else Err(UnsupportedChannelCount(channels, MAX_CHANNELS))
  }

  /** The boundary of `New`: 511 channels are accepted, 512 are refused. */
  lemma NewBoundary(d: MatDepth)
    ensures New(d, 511) == Ok(MatType(d, 511))
    ensures New(d, 512) == Err(UnsupportedChannelCount(512, 512))
  {
  }

  /** The values given to `New` are exactly those `Depth` and `Channels` return. */
  lemma AccessorsReturnArguments(d: MatDepth, c: u16)
    requires c < MAX_CHANNELS
    ensures New(d, c).Ok?
    ensures New(d, c).value.Depth() == d && New(d, c).value.Channels() == c
  {
  }

  /** The three named constants of `CvType` (8-bit, one to three channels). */
  datatype CvType = Cv8UC1 | Cv8UC2 | Cv8UC3

  /** The discriminant of a `CvType`. */
  function CvTypeValue(t: CvType): (n: i32)
    ensures n % 8 == DepthValue(Unsigned8)
  {
    match t
    case Cv8UC1 => 0
    case Cv8UC2 => 8
    case Cv8UC3 => 16
  }

  /** The channel count a `CvType` names ("C1", "C2", "C3"). */
  function CvTypeChannelCount(t: CvType): (cn: nat)
    ensures 1 <= cn <= 3
  {
    match t
    case Cv8UC1 => 1
    case Cv8UC2 => 2
    case Cv8UC3 => 3
  }

  /** The `NormTypes` of src/core.rs, passed to the native layer as `t as i32`. */
  datatype NormTypes =
    | NormInf | NormL1 | NormL2 | NormL2Sqr
    | NormHamming | NormHamming2 | NormRelative | NormMinMax

  /** The discriminants `NormTypes` declares. */
  predicate IsNormValue(n: int) {
    n == 1 || n == 2 || n == 4 || n == 5 || n == 6 || n == 7 || n == 8 || n == 32
  }

  /** The discriminant of a norm type (`t as i32`). */
  function NormValue(t: NormTypes): (n: i32)
    ensures IsNormValue(n)
  {
    match t
    case NormInf => 1
    case NormL1 => 2
    case NormL2 => 4
    case NormL2Sqr => 5
    case NormHamming => 6
    case NormHamming2 => 7
    case NormRelative => 8
    case NormMinMax => 32
  }

  /** The derived `FromPrimitive::from_i32` of `NormTypes`. */
  function NormFromPrimitive(n: int): (r: Option<NormTypes>)
    ensures r.Some? <==> IsNormValue(n)
    ensures r.Some? ==> NormValue(r.value) == n
  {
    if n == 1 then Some(NormInf)
    else if n == 2 then Some(NormL1)
    else if n == 4 then Some(NormL2)
    else if n == 5 then Some(NormL2Sqr)
    else if n == 6 then Some(NormHamming)
    else if n == 7 then Some(NormHamming2)
    else if n == 8 then Some(NormRelative)
    else if n == 32 then Some(NormMinMax)
    else None
  }

  /** Every norm type is found again from its own discriminant. */
  lemma NormRoundTrip(t: NormTypes)
    ensures NormFromPrimitive(NormValue(t)) == Some(t)
  {
  }

  /** Distinct norm types reach native code as distinct codes. */
  lemma NormValueInjective(a: NormTypes, b: NormTypes)
    ensures NormValue(a) == NormValue(b) <==> a == b
  {
    NormRoundTrip(a);
    NormRoundTrip(b);
  }

  /** The codes of src/core.rs, one per norm type. */
  lemma NormValues()
    ensures NormValue(NormInf) == 1 && NormValue(NormL1) == 2
    ensures NormValue(NormL2) == 4 && NormValue(NormL2Sqr) == 5
    ensures NormValue(NormHamming) == 6 && NormValue(NormHamming2) == 7
    ensures NormValue(NormRelative) == 8 && NormValue(NormMinMax) == 32
  {
  }
}
