/**
 * The format latch of a stream output (`set_format`, src/rtsp/gst.rs): two
 * independent slots, one for the video format and one for the audio format.
 * A format is latched into the slot of its class, and the pipeline
 * description is rebuilt, only when it differs from what the slot holds.
 * This module states the latch on values; the `GstOutputs` class follows it
 * step by step.
 */
module Latch {
  import opened Wrappers
  import opened Formats

  /** The `video_format` and `audio_format` fields. */
  datatype Slots = Slots(video: Option<StreamFormat>, audio: Option<StreamFormat>)
  {
    /** The video slot holds only video formats, the audio slot only audio formats. */
    predicate Valid()
    {
      (video.Some? ==> video.value.IsVideo()) && (audio.Some? ==> audio.value.IsAudio())
    }

    /** How many slots hold a format. */
    function Filled(): nat
    {
      (if video.Some? then 1 else 0) + (if audio.Some? then 1 else 0)
    }
  }

  /** The slots of a freshly built stream output: nothing known yet. */
  const NoFormats := Slots(None, None)

  /** The slot of the given class: the video slot when `video` holds, else the audio slot. */
  function SlotOf(s: Slots, video: bool): Option<StreamFormat>
  {
    if video then s.video else s.audio
  }

  /** Latching `format` rebuilds the description: it differs from what its slot holds. */
  predicate Changes(s: Slots, format: Option<StreamFormat>)
  {
    format.Some? && SlotOf(s, format.value.IsVideo()) != format
  }

  /**
   * `set_format`: a video format goes to the video slot, an audio format to
   * the audio slot, each only when it differs from the slot's value; no
   * format leaves both slots alone.
   */
  function SetFormat(s: Slots, format: Option<StreamFormat>): (r: Slots)
    ensures format.None? ==> r == s
    ensures format.Some? ==> SlotOf(r, format.value.IsVideo()) == format
    ensures format.Some? ==> SlotOf(r, !format.value.IsVideo()) == SlotOf(s, !format.value.IsVideo())
    ensures r != s <==> Changes(s, format)
    ensures s.Valid() ==> r.Valid()
  {
    match format
    case Some(H264) | Some(H265) =>
      if format != s.video then s.(video := format) else s
    case Some(Aac) | Some(Adpcm(_)) =>
      if format != s.audio then s.(audio := format) else s
    case None => s
  }

  /** Latching the same format twice in a row changes nothing the second time. */
  lemma SetFormatIdempotent(s: Slots, format: Option<StreamFormat>)
    ensures !Changes(SetFormat(s, format), format)
    ensures SetFormat(SetFormat(s, format), format) == SetFormat(s, format)
  {
  }

  /** A video format and an audio format latch independently of their order. */
  lemma SetFormatCommutes(s: Slots, v: StreamFormat, a: StreamFormat)
    requires v.IsVideo() && a.IsAudio()
    ensures SetFormat(SetFormat(s, Some(v)), Some(a)) == SetFormat(SetFormat(s, Some(a)), Some(v))
    ensures Changes(SetFormat(s, Some(v)), Some(a)) == Changes(s, Some(a))
    ensures Changes(SetFormat(s, Some(a)), Some(v)) == Changes(s, Some(v))
  {
  }

  /** The slots after latching each format of `fs` in turn. */
  function Feed(s: Slots, fs: seq<StreamFormat>): Slots
  {
    if fs == [] then s else SetFormat(Feed(s, fs[..|fs| - 1]), Some(fs[|fs| - 1]))
  }

  /** How many of the latches along `fs` rebuild the description. */
  function Rebuilds(s: Slots, fs: seq<StreamFormat>): nat
  {
    if fs == [] then 0
    else
      var before := Feed(s, fs[..|fs| - 1]);
      Rebuilds(s, fs[..|fs| - 1]) + (if Changes(before, Some(fs[|fs| - 1])) then 1 else 0)
  }

  /** Feeding keeps the slots well formed. */
  lemma {:induction false} FeedValid(s: Slots, fs: seq<StreamFormat>)
    requires s.Valid()
    ensures Feed(s, fs).Valid()
    decreases |fs|
  {
    if fs != [] {
      FeedValid(s, fs[..|fs| - 1]);
    }
  }

  /** Feeding one more format extends the fold by one latch. */
  lemma FeedSnoc(s: Slots, fs: seq<StreamFormat>, f: StreamFormat)
    ensures Feed(s, fs + [f]) == SetFormat(Feed(s, fs), Some(f))
    ensures Rebuilds(s, fs + [f]) == Rebuilds(s, fs) + (if Changes(Feed(s, fs), Some(f)) then 1 else 0)
  {
    assert (fs + [f])[..|fs|] == fs;
  }

  /** The announcements a latch has seen: one more for each format that was given. */
  function Announce(fed: seq<StreamFormat>, format: Option<StreamFormat>): (r: seq<StreamFormat>)
    ensures |r| == |fed| + (if format.Some? then 1 else 0)
  {
    if format.Some? then fed + [format.value] else fed
  }

  /**
   * The slots are those of empty slots fed with every announced format, and
   * the description was installed once at construction and once per rebuild.
   */
  ghost predicate Accounts(s: Slots, fed: seq<StreamFormat>, installs: nat)
  {
    s == Feed(NoFormats, fed) && installs == 1 + Rebuilds(NoFormats, fed)
  }

  /** One more `set_format` keeps the account: an install is added exactly when the slots change. */
  lemma AccountsStep(s: Slots, fed: seq<StreamFormat>, installs: nat, format: Option<StreamFormat>)
    requires Accounts(s, fed, installs)
    ensures Accounts(SetFormat(s, format), Announce(fed, format), installs + (if Changes(s, format) then 1 else 0))
  {
    if format.Some? {
      FeedSnoc(NoFormats, fed, format.value);
    }
  }

  /**
   * After a stream of formats, each slot holds the latest format of its
   * class, or what it held before when the stream has none of that class.
   */
  lemma {:induction false} FeedHoldsLatest(s: Slots, fs: seq<StreamFormat>, video: bool)
    ensures (forall i :: 0 <= i < |fs| ==> fs[i].IsVideo() != video) ==>
              SlotOf(Feed(s, fs), video) == SlotOf(s, video)
    ensures forall i :: 0 <= i < |fs| && fs[i].IsVideo() == video
                        && (forall j :: i < j < |fs| ==> fs[j].IsVideo() != video) ==>
              SlotOf(Feed(s, fs), video) == Some(fs[i])
    ensures SlotOf(Feed(s, fs), video) == SlotOf(s, video)
            || exists i :: 0 <= i < |fs| && fs[i].IsVideo() == video && SlotOf(Feed(s, fs), video) == Some(fs[i])
    decreases |fs|
  {
    if fs != [] {
      var n := |fs| - 1;
      var p := fs[..n];
      FeedHoldsLatest(s, p, video);
      assert forall i :: 0 <= i < n ==> p[i] == fs[i];
      if fs[n].IsVideo() == video {
        assert SlotOf(Feed(s, fs), video) == Some(fs[n]);
      } else {
        assert SlotOf(Feed(s, fs), video) == SlotOf(Feed(s, p), video);
        forall i | 0 <= i < |fs| && fs[i].IsVideo() == video && (forall j :: i < j < |fs| ==> fs[j].IsVideo() != video)
          ensures SlotOf(Feed(s, fs), video) == Some(fs[i])
        {
          assert i < n;
          assert forall j :: i < j < n ==> p[j].IsVideo() != video;
        }
        if SlotOf(Feed(s, p), video) != SlotOf(s, video) {
          var i :| 0 <= i < n && p[i].IsVideo() == video && SlotOf(Feed(s, p), video) == Some(p[i]);
          assert fs[i] == p[i];
        }
      }
    }
  }

  /** Within each class, every format of the stream is the same: the codecs never change. */
  predicate Steady(fs: seq<StreamFormat>)
  {
    forall i, j :: 0 <= i < |fs| && 0 <= j < |fs| && fs[i].IsVideo() == fs[j].IsVideo() ==> fs[i] == fs[j]
  }

  /**
   * On a stream whose codecs never change, starting from empty slots, the
   * description is rebuilt once per slot that gets filled: at most twice.
   */
  lemma {:induction false} SteadyRebuilds(fs: seq<StreamFormat>)
    requires Steady(fs)
    ensures Rebuilds(NoFormats, fs) == Feed(NoFormats, fs).Filled()
    ensures Rebuilds(NoFormats, fs) <= 2
    decreases |fs|
  {
    if fs != [] {
      var n := |fs| - 1;
      var p := fs[..n];
      var f := fs[n];
      assert Steady(p) by {
        forall i, j | 0 <= i < |p| && 0 <= j < |p| && p[i].IsVideo() == p[j].IsVideo()
          ensures p[i] == p[j]
        {
          assert p[i] == fs[i] && p[j] == fs[j];
        }
      }
      SteadyRebuilds(p);
      var before := Feed(NoFormats, p);
      FeedHoldsLatest(NoFormats, p, f.IsVideo());
      if SlotOf(before, f.IsVideo()).Some? {
        var i :| 0 <= i < n && p[i].IsVideo() == f.IsVideo() && SlotOf(before, f.IsVideo()) == Some(p[i]);
        assert fs[i] == p[i];
        assert !Changes(before, Some(f));
      }
    }
  }

  /** The ADPCM formats a stream of ADPCM payloads of the given lengths announces. */
  function AdpcmFormats(lengths: seq<nat>): (fs: seq<StreamFormat>)
    ensures |fs| == |lengths|
    ensures forall i :: 0 <= i < |lengths| ==> fs[i] == StreamFormat.Adpcm(TruncateU16(lengths[i]))
  {
    if lengths == [] then []
    else AdpcmFormats(lengths[..|lengths| - 1]) + [StreamFormat.Adpcm(TruncateU16(lengths[|lengths| - 1]))]
  }

  /**
   * A stream of ADPCM units announces, unit by unit, the formats
   * `AdpcmFormats` gives for their payload lengths.
   */
  lemma AdpcmUnitsAnnounce(payloads: seq<Bytes>, lengths: seq<nat>)
    requires |lengths| == |payloads|
    requires forall i :: 0 <= i < |payloads| ==> lengths[i] == |payloads[i]|
    ensures forall i :: 0 <= i < |payloads| ==> Classify(BcMedia.Adpcm(payloads[i])) == Some(AdpcmFormats(lengths)[i])
  {
  }

  /** How many neighbouring lengths differ once cut to sixteen bits. */
  function LengthChanges(lengths: seq<nat>): nat
  {
    if |lengths| < 2 then 0
    else
      var n := |lengths| - 1;
      LengthChanges(lengths[..n]) + (if lengths[n] % 0x1_0000 != lengths[n - 1] % 0x1_0000 then 1 else 0)
  }

  /**
   * A stream of ADPCM payloads, starting with no audio format, rebuilds
   * the description once for the first payload and once more each time
   * the payload length changes modulo 65536; the video slot is untouched.
   */
  lemma {:induction false} AdpcmRebuilds(s: Slots, lengths: seq<nat>)
    requires s.audio.None? && |lengths| > 0
    ensures Rebuilds(s, AdpcmFormats(lengths)) == 1 + LengthChanges(lengths)
    ensures Feed(s, AdpcmFormats(lengths)) == s.(audio := Some(StreamFormat.Adpcm(TruncateU16(lengths[|lengths| - 1]))))
    decreases |lengths|
  {
    var n := |lengths| - 1;
    var fs := AdpcmFormats(lengths);
    var f := StreamFormat.Adpcm(TruncateU16(lengths[n]));
    assert fs == AdpcmFormats(lengths[..n]) + [f];
    FeedSnoc(s, AdpcmFormats(lengths[..n]), f);
    if n > 0 {
      AdpcmRebuilds(s, lengths[..n]);
      assert lengths[..n][n - 1] == lengths[n - 1];
      AdpcmFormatsAgreeOnLength(lengths[n], lengths[n - 1]);
    }
  }

  /** Two ADPCM block sizes agree exactly when the lengths agree modulo 65536. */
  lemma AdpcmFormatsAgreeOnLength(m: nat, n: nat)
    ensures StreamFormat.Adpcm(TruncateU16(m)) == StreamFormat.Adpcm(TruncateU16(n)) <==> m % 0x1_0000 == n % 0x1_0000
  {
  }

  /** Lengths 160, 160, 320, 320, 160 rebuild the description three times. */
  lemma AdpcmExample()
    ensures Rebuilds(NoFormats, AdpcmFormats([160, 160, 320, 320, 160])) == 3
  {
    var lengths: seq<nat> := [160, 160, 320, 320, 160];
    AdpcmRebuilds(NoFormats, lengths);
    var l2: seq<nat>, l3: seq<nat>, l4: seq<nat> := [160, 160], [160, 160, 320], [160, 160, 320, 320];
    assert l2[..1] == [160] && l3[..2] == l2 && l4[..3] == l3 && lengths[..4] == l4;
    assert LengthChanges(l2) == 0;
    assert LengthChanges(l3) == 1;
    assert LengthChanges(l4) == 1;
  }

  /** A length that wraps to the previous one modulo 65536 rebuilds nothing. */
  lemma AdpcmWrapExample()
    ensures Rebuilds(NoFormats, AdpcmFormats([160, 65696])) == 1
  {
    var lengths: seq<nat> := [160, 65696];
    AdpcmRebuilds(NoFormats, lengths);
    assert lengths[..1] == [160];
  }
}
