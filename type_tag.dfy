// The bit-packed integer form of a mat type used across the native
// boundary (src/wrapper/core.rs): `channels << 3 | depth`.

module TypeTag {
  import opened Prim
  import opened MatTypes

  /** `CHANNEL_SHIFT`; `DEPTH_MASK` is `(1 << CHANNEL_SHIFT) - 1`, i.e. 7. */
  const CHANNEL_SHIFT: nat := 3
  const DEPTH_SCALE: nat := 8
  const DEPTH_MASK: nat := 7

  /**
   * The `u16` shift `x << CHANNEL_SHIFT`: bits that leave the 16-bit word are
   * dropped, and the three low bits of the result are clear.
   */
  function Shl16(x: u16): (r: u16)
    ensures r % DEPTH_SCALE == 0
    ensures x < 0x2000 ==> r == x * DEPTH_SCALE
    ensures r / DEPTH_SCALE == x % 0x2000
  {
    ModOfMultiple(x);
    (x * 8) % 0x1_0000
  }

  /**
   * `as_opencv_value`: `(channels << 3 | depth as u16) as c_int`, computed in
   * `u16`. The shifted value has its three low bits clear and the depth is
   * below 8, so the `|` is an addition.
   */
  function AsOpencvValue(t: MatType): (r: i32)
    ensures 0 <= r < 0x1_0000
    ensures r % DEPTH_SCALE == DepthValue(t.depth)
    ensures Valid(t) ==> r < MAX_CHANNELS * DEPTH_SCALE && r / DEPTH_SCALE == t.channels
  {
    Shl16(t.channels) + DepthValue(t.depth)
  }

  /** `(8c) mod 2^16` is still a multiple of 8, namely `8 (c mod 2^13)`. */
  lemma ModOfMultiple(c: int)
    ensures ((c * 8) % 0x1_0000) % 8 == 0
    ensures ((c * 8) % 0x1_0000) / 8 == c % 0x2000
  {
    var q := (c * 8) / 0x1_0000;
    assert c * 8 == q * 0x1_0000 + (c * 8) % 0x1_0000;
    assert (c * 8) % 0x1_0000 == 8 * (c - q * 0x2000);
  }

  /**
   * `from_opencv_value`: the depth is `value & 7` (for a two's-complement
   * `i32` this is the Euclidean remainder mod 8), the channel count is the
   * arithmetic `value >> 3` cast `as u16` (floor division by 8, then the low
   * 16 bits); `MatType::new` then re-validates the channel count.
   */
  function FromOpencvValue(value: i32): (r: Result<MatType>)
    ensures r.Ok? ==> Valid(r.value)
    ensures r.Ok? <==> (value / DEPTH_SCALE) % 0x1_0000 < MAX_CHANNELS
    ensures r.Ok? ==> DepthValue(r.value.depth) == value % DEPTH_SCALE
    ensures r.Ok? ==> r.value.channels == (value / DEPTH_SCALE) % 0x1_0000
    ensures r.Err? ==> r.error == UnsupportedChannelCount((value / DEPTH_SCALE) % 0x1_0000, MAX_CHANNELS)
  {
    // the `unwrap` of the source: every remainder mod 8 names a depth
    var depth := DepthFromPrimitive(value % DEPTH_SCALE).value;
    var channels: u16 := (value / DEPTH_SCALE) % 0x1_0000;
    New(depth, channels)
  }

  /** Decoding an encoded valid mat type gives it back. */
  lemma RoundTrip(t: MatType)
    requires Valid(t)
    ensures FromOpencvValue(AsOpencvValue(t)) == Ok(t)
  {
    var v := AsOpencvValue(t);
    DepthRoundTrip(t.depth);
    assert (v / 8) % 0x1_0000 == t.channels;
  }

  /** Every tag in [0, 4096) decodes, and encoding the result gives the tag back. */
  lemma DecodeEncode(value: i32)
    requires 0 <= value < MAX_CHANNELS * DEPTH_SCALE
    ensures FromOpencvValue(value).Ok?
    ensures AsOpencvValue(FromOpencvValue(value).value) == value
  {
    var t := FromOpencvValue(value).value;
    var v := AsOpencvValue(t);
    assert v / 8 == value / 8 && v % 8 == value % 8;
    assert v == 8 * (v / 8) + v % 8;
    assert value == 8 * (value / 8) + value % 8;
  }

  /**
   * For a tag below 2^19 (where the `u16` cast is exact), decoding fails
   * exactly when the tag is 4096 or more, and the error carries `value >> 3`.
   */
  lemma DecodeFailsIff(value: i32)
    requires 0 <= value < 0x8_0000
    ensures FromOpencvValue(value).Err? <==> value >= MAX_CHANNELS * DEPTH_SCALE
    ensures FromOpencvValue(value).Err? ==>
              FromOpencvValue(value).error == UnsupportedChannelCount(value / 8, MAX_CHANNELS)
  {
  }

  /**
   * Above 2^19 the `as u16` cast drops high bits: 2^19 reads as zero
   * channels and is accepted, so the tag is not rejected for being large.
   */
  lemma DecodeTruncatesChannels()
    ensures FromOpencvValue(0x8_0000) == Ok(MatType(Unsigned8, 0))
  {
  }

  /**
   * The CvType constants are the encodings of 8-bit mat types whose channel
   * field is the named channel count minus one (0, 1, 2 for C1, C2, C3).
   */
  lemma CvTypeIsEncoding(ct: CvType)
    ensures var t := MatType(Unsigned8, CvTypeChannelCount(ct) - 1);
            Valid(t) && AsOpencvValue(t) == CvTypeValue(ct)
  {
  }

  /**
   * As written, the channel field is the channel count itself, while the
   * CvType table counts from one: a one-channel 8-bit type encodes as
   * `Cv8UC2`, and a `Cv8UC1` matrix reports zero channels.
   */
  lemma ChannelCountOffByOne()
    ensures AsOpencvValue(MatType(Unsigned8, 1)) == CvTypeValue(Cv8UC2)
    ensures FromOpencvValue(CvTypeValue(Cv8UC1)) == Ok(MatType(Unsigned8, 0))
  {
  }

  // ---------------------------------------------------------------------
  // The encoding OpenCV defines: the channel field holds the count minus one.

  /** OpenCV's largest channel count (`CV_CN_MAX`). */
  const CN_MAX: nat := 512

  /** A mat type whose `channels` is a channel count OpenCV can represent. */
  predicate HasCount(t: MatType) {
    1 <= t.channels <= CN_MAX
  }

  /** `CV_MAKETYPE(depth, cn)`: `(cn - 1) << 3 | depth`. */
  function MakeType(t: MatType): (r: i32)
    requires HasCount(t)
    ensures 0 <= r < CN_MAX * DEPTH_SCALE
    ensures r % DEPTH_SCALE == DepthValue(t.depth) && r / DEPTH_SCALE + 1 == t.channels
  {
    (t.channels - 1) * DEPTH_SCALE + DepthValue(t.depth)
  }

  /** `CV_MAT_DEPTH` and `CV_MAT_CN`: the depth and the count read back from a type tag. */
  function TypeOfTag(value: i32): (t: MatType)
    ensures HasCount(t)
    ensures DepthValue(t.depth) == value % DEPTH_SCALE
    ensures t.channels == (value / DEPTH_SCALE) % CN_MAX + 1
  {
    var depth := DepthFromPrimitive(value % DEPTH_SCALE).value;
    MatType(depth, (value / DEPTH_SCALE) % CN_MAX + 1)
  }

  /** Reading back a made type gives it back. */
  lemma MakeTypeRoundTrip(t: MatType)
    requires HasCount(t)
    ensures TypeOfTag(MakeType(t)) == t
  {
    var v := MakeType(t);
    DepthRoundTrip(t.depth);
    assert DepthFromPrimitive(v % DEPTH_SCALE) == Some(t.depth);
  }

  /** Every tag in [0, 4096) is made from the type read back from it. */
  lemma TagRoundTrip(value: i32)
    requires 0 <= value < CN_MAX * DEPTH_SCALE
    ensures MakeType(TypeOfTag(value)) == value
  {
    var v := MakeType(TypeOfTag(value));
    assert v / 8 == value / 8 && v % 8 == value % 8;
    assert v == 8 * (v / 8) + v % 8;
    assert value == 8 * (value / 8) + value % 8;
  }

  /** With the count stored minus one, the CvType constants name 1, 2 and 3 channels. */
  lemma MakeTypeMatchesCvType(ct: CvType)
    ensures MakeType(MatType(Unsigned8, CvTypeChannelCount(ct))) == CvTypeValue(ct)
    ensures TypeOfTag(CvTypeValue(ct)) == MatType(Unsigned8, CvTypeChannelCount(ct))
  {
  }
}
