/**
 * The media units the camera decoder hands to a stream output, and the
 * `StreamFormat` tag each of them is classified into (src/rtsp/gst.rs).
 */
module Formats {
  import opened Wrappers

  newtype byte = b: int | 0 <= b < 0x100
  newtype u16 = n: int | 0 <= n < 0x1_0000

  type Bytes = seq<byte>

  /** `VideoType` of a key or delta frame. */
  datatype VideoType = H264 | H265

  /** `StreamFormat`: a video codec, or an audio codec with its parameter. */
  datatype StreamFormat = H264 | H265 | Aac | Adpcm(blockSize: u16)
  {
    predicate IsVideo() { H264? || H265? }
    predicate IsAudio() { Aac? || Adpcm? }
  }

  /**
   * `BcMedia`: the units the decoder emits. The two informational variants
   * carry payloads that the stream output never looks at, so they are
   * modelled without them.
   */
  datatype BcMedia =
    | InfoV1
    | InfoV2
    | Iframe(videoType: VideoType, data: Bytes)
    | Pframe(videoType: VideoType, data: Bytes)
    | Aac(data: Bytes)
    | Adpcm(data: Bytes)
  {
    /** A unit that carries a payload the stream output forwards. */
    predicate IsMedia() { !InfoV1? && !InfoV2? }
    predicate IsVideo() { Iframe? || Pframe? }
    predicate IsAudio() { Aac? || Adpcm? }
  }

  /** The video `StreamFormat` of a frame's codec. */
  function VideoFormat(t: VideoType): StreamFormat
  {
    match t
    case H264 => StreamFormat.H264
    case H265 => StreamFormat.H265
  }

  /** Rust's `n as u16` on a length: keep the low sixteen bits. */
  function TruncateU16(n: nat): u16
  {
    (n % 0x1_0000) as u16
  }

  /**
   * The format a unit announces: the codec of a frame, `Aac`, or `Adpcm`
   * with the payload length cut to sixteen bits as block size. Informational
   * units announce nothing.
   */
  function Classify(m: BcMedia): (f: Option<StreamFormat>)
    ensures f.Some? <==> m.IsMedia()
    ensures f.Some? ==> (f.value.IsVideo() <==> m.IsVideo())
    ensures f.Some? ==> (f.value.IsAudio() <==> m.IsAudio())
  {
    match m
    case Iframe(t, _) => Some(VideoFormat(t))
    case Pframe(t, _) => Some(VideoFormat(t))
    case Aac(_) => Some(StreamFormat.Aac)
    case Adpcm(d) => Some(StreamFormat.Adpcm(TruncateU16(|d|)))
    case _ => None
  }

  /** Two frames announce the same format exactly when their codecs agree. */
  lemma VideoFormatsAgree(t1: VideoType, t2: VideoType)
    ensures VideoFormat(t1) == VideoFormat(t2) <==> t1 == t2
  {
  }

  /**
   * Two ADPCM units announce the same format exactly when their payload
   * lengths agree modulo 2^16; below 2^16 that is equal lengths.
   */
  lemma AdpcmFormatsAgree(d1: Bytes, d2: Bytes)
    ensures Classify(BcMedia.Adpcm(d1)) == Classify(BcMedia.Adpcm(d2)) <==> |d1| % 0x1_0000 == |d2| % 0x1_0000
    ensures |d1| < 0x1_0000 && |d2| < 0x1_0000 ==>
              (Classify(BcMedia.Adpcm(d1)) == Classify(BcMedia.Adpcm(d2)) <==> |d1| == |d2|)
  {
  }

  /** A payload of 2^16 bytes more announces the same block size. */
  lemma AdpcmLengthWraps(d1: Bytes, d2: Bytes)
    requires |d2| == |d1| + 0x1_0000
    ensures Classify(BcMedia.Adpcm(d2)) == Classify(BcMedia.Adpcm(d1))
  {
  }
}
