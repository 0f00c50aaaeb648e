/**
 * `GstOutputs::apply_format`: the launch description installed into the
 * media factory, as a pure function of the two format slots
 * (src/rtsp/gst.rs:201-280).
 */
module Launch {
  import opened Wrappers
  import opened Formats

  // ---------------------------------------------------------------------
  // Strings: joining, containment, decimal rendering
  // ---------------------------------------------------------------------

  /** `parts.join(sep)`: the parts with `sep` between neighbours. */
  function Join(parts: seq<string>, sep: string): string
  {
    if |parts| == 0 then ""
    else if |parts| == 1 then parts[0]
    else parts[0] + sep + Join(parts[1..], sep)
  }

  /** `t` occurs in `s` starting at index `i`. */
  predicate OccursAt(s: string, t: string, i: int)
  {
    0 <= i && i + |t| <= |s| && s[i..i + |t|] == t
  }

  /** `t` is a substring of `s`. */
  ghost predicate Contains(s: string, t: string)
  {
    exists i :: OccursAt(s, t, i)
  }

  predicate EndsWith(s: string, t: string)
  {
    |t| <= |s| && s[|s| - |t|..] == t
  }

  predicate IsDigit(c: char)
  {
    '0' <= c <= '9'
  }

  predicate AllDigits(s: string)
  {
    forall k :: 0 <= k < |s| ==> IsDigit(s[k])
  }

  function DigitChar(d: nat): (c: char)
    requires d < 10
    ensures IsDigit(c)
  {
    ('0' as int + d) as char
  }

  /** `format!("{}", n)`: decimal digits, most significant first, no leading zero. */
  function Decimal(n: nat): (s: string)
    ensures |s| >= 1 && AllDigits(s)
    ensures |s| > 1 ==> s[0] != '0'
    decreases n
  {
    if n < 10 then [DigitChar(n)] else Decimal(n / 10) + [DigitChar(n % 10)]
  }

  /** The value of a string of decimal digits. */
  function DecimalValue(s: string): nat
    requires AllDigits(s)
  {
    if s == [] then 0
    else DecimalValue(s[..|s| - 1]) * 10 + (s[|s| - 1] as int - '0' as int)
  }

  /** Decimal rendering loses nothing: reading the digits back gives `n`. */
  lemma {:induction false} DecimalRoundTrip(n: nat)
    ensures DecimalValue(Decimal(n)) == n
    decreases n
  {
    var s := Decimal(n);
    if n >= 10 {
      DecimalRoundTrip(n / 10);
      assert s[..|s| - 1] == Decimal(n / 10);
    }
  }

  lemma DecimalInjective(m: nat, n: nat)
    requires Decimal(m) == Decimal(n)
    ensures m == n
  {
    DecimalRoundTrip(m);
    DecimalRoundTrip(n);
  }

  // ---------------------------------------------------------------------
  // Lemmas about Join and Contains
  // ---------------------------------------------------------------------

  lemma ContainsMiddle(a: string, t: string, b: string)
    ensures Contains(a + t + b, t)
  {
    assert (a + t + b)[|a|..|a| + |t|] == t;
    assert OccursAt(a + t + b, t, |a|);
  }

  lemma ContainsTransitive(s: string, t: string, u: string)
    requires Contains(s, t) && Contains(t, u)
    ensures Contains(s, u)
  {
    var i :| OccursAt(s, t, i);
    var j :| OccursAt(t, u, j);
    assert t == s[i..i + |t|];
    forall k | 0 <= k < |u|
      ensures s[i + j..i + j + |u|][k] == u[k]
    {
      assert u[k] == t[j + k] == s[i + j + k];
    }
    assert OccursAt(s, u, i + j);
  }

  /** Joining splits at any inner index into the two halves joined by `sep`. */
  lemma {:induction false} JoinSplit(parts: seq<string>, sep: string, k: nat)
    requires 0 < k < |parts|
    ensures Join(parts, sep) == Join(parts[..k], sep) + sep + Join(parts[k..], sep)
    decreases k
  {
    if k > 1 {
      JoinSplit(parts[1..], sep, k - 1);
      assert parts[1..][..k - 1] == parts[1..k];
      assert parts[1..][k - 1..] == parts[k..];
      assert parts[..k][1..] == parts[1..k];
    }
  }

  /** A join is what precedes part `i`, then the join from part `i` on. */
  lemma JoinDropLeft(parts: seq<string>, sep: string, i: nat)
    requires i < |parts|
    ensures Join(parts, sep) == (if i == 0 then "" else Join(parts[..i], sep) + sep) + Join(parts[i..], sep)
  {
    if i > 0 {
      JoinSplit(parts, sep, i);
    } else {
      assert parts == parts[i..];
    }
  }

  /** A join from part `i` on is the run up to `j`, then what follows part `j - 1`. */
  lemma JoinDropRight(parts: seq<string>, sep: string, i: nat, j: nat)
    requires i < j <= |parts|
    ensures Join(parts[i..], sep) == Join(parts[i..j], sep) + (if j == |parts| then "" else sep + Join(parts[j..], sep))
  {
    if j < |parts| {
      JoinSplit(parts[i..], sep, j - i);
      assert parts[i..][..j - i] == parts[i..j];
      assert parts[i..][j - i..] == parts[j..];
    } else {
      assert parts[i..] == parts[i..j];
    }
  }

  /** Every run of neighbouring parts, joined, occurs in the whole join. */
  lemma JoinContainsRun(parts: seq<string>, sep: string, i: nat, j: nat)
    requires i < j <= |parts|
    ensures Contains(Join(parts, sep), Join(parts[i..j], sep))
  {
    var left: string := if i == 0 then "" else Join(parts[..i], sep) + sep;
    var right: string := if j == |parts| then "" else sep + Join(parts[j..], sep);
    JoinDropLeft(parts, sep, i);
    JoinDropRight(parts, sep, i, j);
    var run := Join(parts[i..j], sep);
    assert Join(parts, sep) == left + (run + right);
    assert left + (run + right) == left + run + right;
    ContainsMiddle(left, run, right);
  }

  lemma JoinContainsPart(parts: seq<string>, sep: string, k: nat)
    requires k < |parts|
    ensures Contains(Join(parts, sep), parts[k])
  {
    JoinContainsRun(parts, sep, k, k + 1);
  }

  /** A join whose last part is `last`, joined to its predecessor `prev`, ends with `prev + sep + last`. */
  lemma JoinEndsWithLastTwo(parts: seq<string>, sep: string)
    requires |parts| >= 2
    ensures EndsWith(Join(parts, sep), parts[|parts| - 2] + sep + parts[|parts| - 1])
  {
    var n := |parts|;
    if n > 2 {
      JoinSplit(parts, sep, n - 2);
      assert parts[n - 2..] == [parts[n - 2], parts[n - 1]];
    }
  }

  /** Joining a concatenation of part lists keeps the middle list's join as a substring. */
  lemma JoinContainsSegment(pre: seq<string>, mid: seq<string>, post: seq<string>, sep: string)
    requires |mid| > 0
    ensures Contains(Join(pre + mid + post, sep), Join(mid, sep))
  {
    var parts := pre + mid + post;
    assert parts[|pre|..|pre| + |mid|] == mid;
    JoinContainsRun(parts, sep, |pre|, |pre| + |mid|);
  }

  /** A run of one part joins to that part. */
  lemma JoinRunOne(parts: seq<string>, i: nat)
    requires i < |parts|
    ensures Join(parts[i..i + 1], " ") == parts[i]
  {
  }

  /** A longer run joins to its first part, a space, and the join of the rest. */
  lemma JoinRunCons(parts: seq<string>, i: nat, j: nat)
    requires i + 1 < j <= |parts|
    ensures Join(parts[i..j], " ") == parts[i] + " " + Join(parts[i + 1..j], " ")
  {
    assert parts[i..j][1..] == parts[i + 1..j];
  }

  /** Three neighbouring parts, joined by spaces, occur in the whole join. */
  lemma JoinContainsThree(parts: seq<string>, i: nat)
    requires i + 3 <= |parts|
    ensures Contains(Join(parts, " "), parts[i] + " " + parts[i + 1] + " " + parts[i + 2])
  {
    var a, b, c := parts[i], parts[i + 1], parts[i + 2];
    JoinRunCons(parts, i, i + 3);
    JoinRunCons(parts, i + 1, i + 3);
    JoinRunOne(parts, i + 2);
    assert Join(parts[i..i + 3], " ") == a + " " + (b + " " + c);
    assert a + " " + (b + " " + c) == a + " " + b + " " + c;
    JoinContainsRun(parts, " ", i, i + 3);
  }

  /** Two neighbouring parts, joined by a space, occur in the whole join. */
  lemma JoinContainsTwo(parts: seq<string>, i: nat)
    requires i + 2 <= |parts|
    ensures Contains(Join(parts, " "), parts[i] + " " + parts[i + 1])
  {
    JoinRunCons(parts, i, i + 2);
    JoinRunOne(parts, i + 1);
    JoinContainsRun(parts, " ", i, i + 2);
  }

  /** A join ends with the join of any non-empty tail of its parts. */
  lemma JoinEndsWithTail(parts: seq<string>, sep: string, k: nat)
    requires k < |parts|
    ensures EndsWith(Join(parts, sep), Join(parts[k..], sep))
  {
    var head: string := if k == 0 then "" else Join(parts[..k], sep) + sep;
    var tail := Join(parts[k..], sep);
    JoinDropLeft(parts, sep, k);
    assert (head + tail)[|head + tail| - |tail|..] == tail;
  }

  /** The last three parts joined by spaces. */
  lemma JoinLastThree(parts: seq<string>)
    requires |parts| >= 3
    ensures Join(parts[|parts| - 3..], " ") == parts[|parts| - 3] + " " + parts[|parts| - 2] + " " + parts[|parts| - 1]
  {
    var n := |parts|;
    assert parts[n - 3..] == parts[n - 3..n];
    JoinRunCons(parts, n - 3, n);
    JoinRunCons(parts, n - 2, n);
    JoinRunOne(parts, n - 1);
  }

  /** A join of at least three parts ends with its last three parts joined by spaces. */
  lemma JoinEndsWithLastThree(parts: seq<string>)
    requires |parts| >= 3
    ensures EndsWith(Join(parts, " "), parts[|parts| - 3] + " " + parts[|parts| - 2] + " " + parts[|parts| - 1])
  {
    JoinEndsWithTail(parts, " ", |parts| - 3);
    JoinLastThree(parts);
  }

  lemma ContainsPrefix(t: string, b: string)
    ensures Contains(t + b, t)
  {
    ContainsMiddle("", t, b);
    assert "" + t + b == t + b;
  }

  lemma ContainsSuffix(a: string, t: string)
    ensures Contains(a + t, t)
  {
    ContainsMiddle(a, t, "");
    assert a + t + "" == a + t;
  }

  // ---------------------------------------------------------------------
  // The fragments apply_format chooses
  // ---------------------------------------------------------------------

  // Element and payloader names the pipeline callback and the RTSP server
  // look up; each is written once and shared by the fragments below.
  const VidSrcName := "name=vidsrc"
  const AudSrcName := "name=audsrc"
  const SelectorName := "name=vid_inputselect"
  const VideoPayName := "name=pay0"
  const AudioPayName := "name=pay1"

  /** The properties both appsrc elements share: live, blocking, at most 50MB queued. */
  const AppSrcProps := " is-live=true block=true emit-signals=false max-bytes=52428800 do-timestamp=true format=GST_FORMAT_TIME"
  const VidSrcElement := "appsrc " + VidSrcName + AppSrcProps
  const AudSrcElement := "appsrc " + AudSrcName + AppSrcProps
  const SelectorElement := "input-selector " + SelectorName

  /** The input-selector pad a branch feeds: `vid_inputselect.sink_<index>`. */
  function SelectorPad(index: nat): string
  {
    "vid_inputselect.sink_" + Decimal(index)
  }

  const TeeQueue := "vid_src_tee. ! queue silent=true  max-size-bytes=10485760  min-threshold-bytes=1024 !"
  const CamLink := TeeQueue + " " + SelectorPad(0)
  const TestLink := "! " + SelectorPad(1)
  const FreezeLink := " ! " + SelectorPad(2)

  /** The element behind the input selector: the video payloader, or a sink that discards. */
  function VideoSelect(video: Option<StreamFormat>): string
  {
    match video
    case Some(H264) => "! " + ("rtph264pay " + VideoPayName)
    case Some(H265) => "! " + ("rtph265pay " + VideoPayName)
    case _ => "! fakesink"
  }

  /** The parser after the camera appsrc. */
  function AppSrcParse(video: Option<StreamFormat>): string
  {
    match video
    case Some(H264) => "! queue silent=true max-size-bytes=10485760  min-threshold-bytes=1024 ! " + "h264parse"
    case Some(H265) => "! queue silent=true  max-size-bytes=10485760  min-threshold-bytes=1024 ! " + "h265parse"
    case _ => ""
  }

  /** The test-pattern branch, encoded to the camera's codec. */
  function AltSource(video: Option<StreamFormat>): string
  {
    match video
    case Some(H264) => "videotestsrc ! queue silent=true  max-size-bytes=10485760  min-threshold-bytes=1024 ! x264enc ! video/x-h264,width=896,height=512,framerate=25/1 ! h264parse"
    case Some(H265) => "videotestsrc ! queue silent=true  max-size-bytes=10485760  min-threshold-bytes=1024 ! x265enc ! video/x-h265,width=896,height=512,framerate=25/1 ! h265parse"
    case _ => ""
  }

  /** The freeze-frame branch: decode, hold the last picture, re-encode. */
  function FreezeSource(video: Option<StreamFormat>): string
  {
    match video
    case Some(H264) => "avdec_h264 ! imagefreeze allow-replace=true is-live=true ! x264enc ! video/x-h264,width=896,height=512,framerate=25/1 ! h264parse"
    case Some(H265) => "decodebin ! imagefreeze allow-replace=true is-live=true ! x265enc ! video/x-h265,width=896,height=512,framerate=25/1 ! h265parse"
    case _ => ""
  }

  /** ADPCM caps set on the audio appsrc: DVI layout, mono, 8kHz, the given block size. */
  function AdpcmCaps(blockSize: u16): string
  {
    "caps=audio/x-adpcm,layout=dvi," + ("block_align=" + Decimal(blockSize as nat)) + ",channels=1,rate=8000"
  }

  /** Distinct block sizes give distinct ADPCM caps. */
  lemma AdpcmCapsInjective(a: u16, b: u16)
    requires AdpcmCaps(a) == AdpcmCaps(b)
    ensures a == b
  {
    var head := "caps=audio/x-adpcm,layout=dvi," + "block_align=";
    var tail := ",channels=1,rate=8000";
    assert AdpcmCaps(a) == head + Decimal(a as nat) + tail;
    assert AdpcmCaps(b) == head + Decimal(b as nat) + tail;
    var da := AdpcmCaps(a)[|head|..|AdpcmCaps(a)| - |tail|];
    var db := AdpcmCaps(b)[|head|..|AdpcmCaps(b)| - |tail|];
    assert da == Decimal(a as nat);
    assert db == Decimal(b as nat);
    DecimalInjective(a as nat, b as nat);
  }

  /** The audio payloader all audio chains end in. */
  const AudioPay := "rtpL16pay " + AudioPayName
  const AdpcmDecode := " ! queue silent=true max-size-bytes=10485760 min-threshold-bytes=1024 ! adpcmdec  ! audioconvert ! "
  const AdpcmChain := AdpcmDecode + AudioPay
  const AacParse := "! queue silent=true max-size-bytes=10485760 min-threshold-bytes=1024 ! " + "aacparse"
  /** The tail of the AAC chain; the source names the payloader `pay1` twice. */
  const AacTail := " ! decodebin ! audioconvert ! " + (AudioPay + " " + AudioPayName)
  const AacChain := AacParse + AacTail

  /** What follows the audio appsrc: ADPCM caps and decoder, the AAC chain, or a discarding sink. */
  function AudioBranch(audio: Option<StreamFormat>): string
  {
    match audio
    case Some(Adpcm(blockSize)) => AdpcmCaps(blockSize) + AdpcmChain
    case Some(Aac) => AacChain
    case _ => "! fakesink"
  }

  /** Video out pipe: the selector and what it feeds. */
  function VideoOutPipe(video: Option<StreamFormat>): seq<string>
  {
    ["(", SelectorElement, VideoSelect(video), ")"]
  }

  /** Camera source: the video appsrc, its parser, and a tee whose first leg feeds pad 0. */
  function CameraPipe(video: Option<StreamFormat>): seq<string>
  {
    ["(", VidSrcElement, AppSrcParse(video), "! tee name=vid_src_tee", "(", CamLink, ")", ")"]
  }

  /** Test source: the test pattern feeding pad 1. */
  function TestPipe(video: Option<StreamFormat>): seq<string>
  {
    ["(", AltSource(video), TestLink, ")"]
  }

  /** Image freeze: a second tee leg, frozen and re-encoded, feeding pad 2. */
  function FreezePipe(video: Option<StreamFormat>): seq<string>
  {
    ["(", TeeQueue, FreezeSource(video), FreezeLink, ")"]
  }

  /** Audio pipe: the audio appsrc and its chain. */
  function AudioPipe(audio: Option<StreamFormat>): seq<string>
  {
    [AudSrcElement, AudioBranch(audio)]
  }

  /** The pieces `apply_format` joins with single spaces, in order. */
  function LaunchParts(video: Option<StreamFormat>, audio: Option<StreamFormat>): seq<string>
  {
    ["( "] + VideoOutPipe(video) + CameraPipe(video) + TestPipe(video) + FreezePipe(video) + AudioPipe(audio) + [")"]
  }

  /** The launch description `apply_format` hands to `set_launch`. */
  function Describe(video: Option<StreamFormat>, audio: Option<StreamFormat>): string
  {
    Join(LaunchParts(video, audio), " ")
  }

  // ---------------------------------------------------------------------
  // What every description contains
  // ---------------------------------------------------------------------

  /** The description is the head, the five sub-pipelines and the closing parenthesis, in order. */
  lemma LaunchPartsLayout(video: Option<StreamFormat>, audio: Option<StreamFormat>)
    ensures LaunchParts(video, audio) ==
      ["( "] + VideoOutPipe(video) + (CameraPipe(video) + TestPipe(video) + FreezePipe(video) + AudioPipe(audio) + [")"])
    ensures LaunchParts(video, audio) ==
      (["( "] + VideoOutPipe(video)) + CameraPipe(video) + (TestPipe(video) + FreezePipe(video) + AudioPipe(audio) + [")"])
    ensures LaunchParts(video, audio) ==
      (["( "] + VideoOutPipe(video) + CameraPipe(video)) + TestPipe(video) + (FreezePipe(video) + AudioPipe(audio) + [")"])
    ensures LaunchParts(video, audio) ==
      (["( "] + VideoOutPipe(video) + CameraPipe(video) + TestPipe(video)) + FreezePipe(video) + (AudioPipe(audio) + [")"])
    ensures LaunchParts(video, audio) ==
      (["( "] + VideoOutPipe(video) + CameraPipe(video) + TestPipe(video) + FreezePipe(video)) + AudioPipe(audio) + [")"]
  {
    SevenParts(["( "], VideoOutPipe(video), CameraPipe(video), TestPipe(video), FreezePipe(video), AudioPipe(audio), [")"]);
  }

  /** Regrouping a concatenation of seven runs of parts around each inner run. */
  lemma SevenParts(a: seq<string>, b: seq<string>, c: seq<string>, d: seq<string>, e: seq<string>, f: seq<string>, g: seq<string>)
    ensures a + b + c + d + e + f + g == a + b + (c + d + e + f + g)
    ensures a + b + c + d + e + f + g == (a + b) + c + (d + e + f + g)
    ensures a + b + c + d + e + f + g == (a + b + c) + d + (e + f + g)
    ensures a + b + c + d + e + f + g == (a + b + c + d) + e + (f + g)
    ensures a + b + c + d + e + f + g == (a + b + c + d + e) + f + g
  {
  }

  lemma DescribeContainsVideoOut(video: Option<StreamFormat>, audio: Option<StreamFormat>)
    ensures Contains(Describe(video, audio), Join(VideoOutPipe(video), " "))
  {
    LaunchPartsLayout(video, audio);
    JoinContainsSegment(["( "], VideoOutPipe(video),
      CameraPipe(video) + TestPipe(video) + FreezePipe(video) + AudioPipe(audio) + [")"], " ");
  }

  lemma DescribeContainsCamera(video: Option<StreamFormat>, audio: Option<StreamFormat>)
    ensures Contains(Describe(video, audio), Join(CameraPipe(video), " "))
  {
    LaunchPartsLayout(video, audio);
    JoinContainsSegment(["( "] + VideoOutPipe(video), CameraPipe(video),
      TestPipe(video) + FreezePipe(video) + AudioPipe(audio) + [")"], " ");
  }

  lemma DescribeContainsTest(video: Option<StreamFormat>, audio: Option<StreamFormat>)
    ensures Contains(Describe(video, audio), Join(TestPipe(video), " "))
  {
    LaunchPartsLayout(video, audio);
    JoinContainsSegment(["( "] + VideoOutPipe(video) + CameraPipe(video), TestPipe(video),
      FreezePipe(video) + AudioPipe(audio) + [")"], " ");
  }

  lemma DescribeContainsFreeze(video: Option<StreamFormat>, audio: Option<StreamFormat>)
    ensures Contains(Describe(video, audio), Join(FreezePipe(video), " "))
  {
    LaunchPartsLayout(video, audio);
    JoinContainsSegment(["( "] + VideoOutPipe(video) + CameraPipe(video) + TestPipe(video), FreezePipe(video),
      AudioPipe(audio) + [")"], " ");
  }

  lemma DescribeContainsAudio(video: Option<StreamFormat>, audio: Option<StreamFormat>)
    ensures Contains(Describe(video, audio), Join(AudioPipe(audio), " "))
  {
    LaunchPartsLayout(video, audio);
    JoinContainsSegment(["( "] + VideoOutPipe(video) + CameraPipe(video) + TestPipe(video) + FreezePipe(video),
      AudioPipe(audio), [")"], " ");
  }

  /** Each part of a sub-pipeline that appears in `s` appears in `s`. */
  lemma PipePartWhole(s: string, pipe: seq<string>, k: nat)
    requires Contains(s, Join(pipe, " ")) && k < |pipe|
    ensures Contains(s, pipe[k])
  {
    JoinContainsPart(pipe, " ", k);
    ContainsTransitive(s, Join(pipe, " "), pipe[k]);
  }

  /** A substring of a part of a sub-pipeline that appears in `s` appears in `s`. */
  lemma PipePartIn(s: string, pipe: seq<string>, k: nat, u: string)
    requires Contains(s, Join(pipe, " "))
    requires k < |pipe| && Contains(pipe[k], u)
    ensures Contains(s, u)
  {
    JoinContainsPart(pipe, " ", k);
    ContainsTransitive(Join(pipe, " "), pipe[k], u);
    ContainsTransitive(s, Join(pipe, " "), u);
  }

  /**
   * Whatever the formats, the description names the video appsrc, the audio
   * appsrc and the input selector (the handles recovered once the pipeline
   * is built), and the selector pads 0, 1 and 2 that the camera, test and
   * freeze branches feed.
   */
  lemma DescribeDeclaresHandles(video: Option<StreamFormat>, audio: Option<StreamFormat>)
    ensures Contains(Describe(video, audio), VidSrcName)
    ensures Contains(Describe(video, audio), AudSrcName)
    ensures Contains(Describe(video, audio), SelectorName)
    ensures Contains(Describe(video, audio), SelectorPad(0))
    ensures Contains(Describe(video, audio), SelectorPad(1))
    ensures Contains(Describe(video, audio), SelectorPad(2))
  {
    DescribeNamesVidSrc(video, audio);
    DescribeNamesAudSrc(video, audio);
    DescribeNamesSelector(video, audio);
    DescribeFeedsPads(video, audio);
  }

  lemma DescribeNamesVidSrc(video: Option<StreamFormat>, audio: Option<StreamFormat>)
    ensures Contains(Describe(video, audio), VidSrcName)
  {
    DescribeContainsCamera(video, audio);
    ContainsMiddle("appsrc ", VidSrcName, AppSrcProps);
    PipePartIn(Describe(video, audio), CameraPipe(video), 1, VidSrcName);
  }

  lemma DescribeNamesAudSrc(video: Option<StreamFormat>, audio: Option<StreamFormat>)
    ensures Contains(Describe(video, audio), AudSrcName)
  {
    DescribeContainsAudio(video, audio);
    ContainsMiddle("appsrc ", AudSrcName, AppSrcProps);
    PipePartIn(Describe(video, audio), AudioPipe(audio), 0, AudSrcName);
  }

  lemma DescribeNamesSelector(video: Option<StreamFormat>, audio: Option<StreamFormat>)
    ensures Contains(Describe(video, audio), SelectorName)
  {
    DescribeContainsVideoOut(video, audio);
    ContainsSuffix("input-selector ", SelectorName);
    PipePartIn(Describe(video, audio), VideoOutPipe(video), 1, SelectorName);
  }

  lemma DescribeFeedsPads(video: Option<StreamFormat>, audio: Option<StreamFormat>)
    ensures Contains(Describe(video, audio), SelectorPad(0))
    ensures Contains(Describe(video, audio), SelectorPad(1))
    ensures Contains(Describe(video, audio), SelectorPad(2))
  {
    DescribeFeedsPad0(video, audio);
    DescribeFeedsPad1(video, audio);
    DescribeFeedsPad2(video, audio);
  }

  lemma DescribeFeedsPad0(video: Option<StreamFormat>, audio: Option<StreamFormat>)
    ensures Contains(Describe(video, audio), SelectorPad(0))
  {
    DescribeContainsCamera(video, audio);
    CameraPipeParts(Describe(video, audio), video);
  }

  /** A string holding the camera sub-pipeline holds its parser and its link to pad 0. */
  lemma CameraPipeParts(s: string, video: Option<StreamFormat>)
    requires Contains(s, Join(CameraPipe(video), " "))
    ensures Contains(s, AppSrcParse(video))
    ensures Contains(s, SelectorPad(0))
  {
    PipePartWhole(s, CameraPipe(video), 2);
    ContainsSuffix(TeeQueue + " ", SelectorPad(0));
    PipePartIn(s, CameraPipe(video), 5, SelectorPad(0));
  }

  lemma DescribeFeedsPad1(video: Option<StreamFormat>, audio: Option<StreamFormat>)
    ensures Contains(Describe(video, audio), SelectorPad(1))
  {
    DescribeContainsTest(video, audio);
    ContainsSuffix("! ", SelectorPad(1));
    PipePartIn(Describe(video, audio), TestPipe(video), 2, SelectorPad(1));
  }

  lemma DescribeFeedsPad2(video: Option<StreamFormat>, audio: Option<StreamFormat>)
    ensures Contains(Describe(video, audio), SelectorPad(2))
  {
    DescribeContainsFreeze(video, audio);
    ContainsSuffix(" ! ", SelectorPad(2));
    PipePartIn(Describe(video, audio), FreezePipe(video), 3, SelectorPad(2));
  }

  /** The fragment chosen by the video format appears in the description. */
  lemma DescribeContainsVideoSelect(video: Option<StreamFormat>, audio: Option<StreamFormat>)
    ensures Contains(Describe(video, audio), VideoSelect(video))
  {
    DescribeContainsVideoOut(video, audio);
    PipePartWhole(Describe(video, audio), VideoOutPipe(video), 2);
  }

  /** The parser chosen by the video format appears in the description. */
  lemma DescribeContainsParse(video: Option<StreamFormat>, audio: Option<StreamFormat>)
    ensures Contains(Describe(video, audio), AppSrcParse(video))
  {
    DescribeContainsCamera(video, audio);
    CameraPipeParts(Describe(video, audio), video);
  }

  /** The chain chosen by the audio format appears in the description. */
  lemma DescribeContainsAudioBranch(video: Option<StreamFormat>, audio: Option<StreamFormat>)
    ensures Contains(Describe(video, audio), AudioBranch(audio))
  {
    DescribeContainsAudio(video, audio);
    PipePartWhole(Describe(video, audio), AudioPipe(audio), 1);
  }

  /** A fragment of `d` that ends with `t` brings `t` into `d`. */
  lemma SuffixIn(d: string, frag: string, a: string, t: string)
    requires Contains(d, frag) && frag == a + t
    ensures Contains(d, t)
  {
    ContainsSuffix(a, t);
    ContainsTransitive(d, frag, t);
  }

  lemma DescribeH264Payloader(video: Option<StreamFormat>, audio: Option<StreamFormat>)
    requires video.Some? && video.value.H264?
    ensures Contains(Describe(video, audio), "rtph264pay " + VideoPayName)
  {
    DescribeContainsVideoSelect(video, audio);
    SuffixIn(Describe(video, audio), VideoSelect(video), "! ", "rtph264pay " + VideoPayName);
  }

  lemma DescribeH264Parser(video: Option<StreamFormat>, audio: Option<StreamFormat>)
    requires video.Some? && video.value.H264?
    ensures Contains(Describe(video, audio), "h264parse")
  {
    DescribeContainsParse(video, audio);
    SuffixIn(Describe(video, audio), AppSrcParse(video),
      "! queue silent=true max-size-bytes=10485760  min-threshold-bytes=1024 ! ", "h264parse");
  }

  /** With H264 video the selector feeds the H264 payloader `pay0` and the camera branch parses H264. */
  lemma DescribeH264(video: Option<StreamFormat>, audio: Option<StreamFormat>)
    requires video.Some? && video.value.H264?
    ensures Contains(Describe(video, audio), "rtph264pay " + VideoPayName)
    ensures Contains(Describe(video, audio), "h264parse")
  {
    DescribeH264Payloader(video, audio);
    DescribeH264Parser(video, audio);
  }

  lemma DescribeH265Payloader(video: Option<StreamFormat>, audio: Option<StreamFormat>)
    requires video.Some? && video.value.H265?
    ensures Contains(Describe(video, audio), "rtph265pay " + VideoPayName)
  {
    DescribeContainsVideoSelect(video, audio);
    SuffixIn(Describe(video, audio), VideoSelect(video), "! ", "rtph265pay " + VideoPayName);
  }

  lemma DescribeH265Parser(video: Option<StreamFormat>, audio: Option<StreamFormat>)
    requires video.Some? && video.value.H265?
    ensures Contains(Describe(video, audio), "h265parse")
  {
    DescribeContainsParse(video, audio);
    SuffixIn(Describe(video, audio), AppSrcParse(video),
      "! queue silent=true  max-size-bytes=10485760  min-threshold-bytes=1024 ! ", "h265parse");
  }

  /** With H265 video the selector feeds the H265 payloader `pay0` and the camera branch parses H265. */
  lemma DescribeH265(video: Option<StreamFormat>, audio: Option<StreamFormat>)
    requires video.Some? && video.value.H265?
    ensures Contains(Describe(video, audio), "rtph265pay " + VideoPayName)
    ensures Contains(Describe(video, audio), "h265parse")
  {
    DescribeH265Payloader(video, audio);
    DescribeH265Parser(video, audio);
  }

  /** The selector element is followed by the fragment the video format chooses. */
  lemma DescribeContainsSelectorRun(video: Option<StreamFormat>, audio: Option<StreamFormat>)
    ensures Contains(Describe(video, audio), SelectorElement + " " + VideoSelect(video))
  {
    DescribeContainsVideoOut(video, audio);
    JoinContainsTwo(VideoOutPipe(video), 1);
    ContainsTransitive(Describe(video, audio), Join(VideoOutPipe(video), " "), SelectorElement + " " + VideoSelect(video));
  }

  /** The test branch is the source the video format chooses, then the link to pad 1. */
  lemma DescribeContainsTestRun(video: Option<StreamFormat>, audio: Option<StreamFormat>)
    ensures Contains(Describe(video, audio), "(" + " " + AltSource(video) + " " + TestLink)
  {
    DescribeContainsTest(video, audio);
    JoinContainsThree(TestPipe(video), 0);
    ContainsTransitive(Describe(video, audio), Join(TestPipe(video), " "), "(" + " " + AltSource(video) + " " + TestLink);
  }

  /** The freeze branch is a tee leg, the freezer the video format chooses, then the link to pad 2. */
  lemma DescribeContainsFreezeRun(video: Option<StreamFormat>, audio: Option<StreamFormat>)
    ensures Contains(Describe(video, audio), TeeQueue + " " + FreezeSource(video) + " " + FreezeLink)
  {
    DescribeContainsFreeze(video, audio);
    JoinContainsThree(FreezePipe(video), 1);
    ContainsTransitive(Describe(video, audio), Join(FreezePipe(video), " "), TeeQueue + " " + FreezeSource(video) + " " + FreezeLink);
  }

  /** The description ends with the audio appsrc, its chain and the closing parenthesis. */
  lemma DescribeEndsWithAudio(video: Option<StreamFormat>, audio: Option<StreamFormat>)
    ensures EndsWith(Describe(video, audio), AudSrcElement + " " + AudioBranch(audio) + " " + ")")
  {
    JoinEndsWithLastThree(LaunchParts(video, audio));
  }

  /**
   * Before any video format is known the selector feeds a discarding sink,
   * and the test and freeze branches hold nothing but their links to the
   * selector.
   */
  lemma DescribeWithoutVideo(video: Option<StreamFormat>, audio: Option<StreamFormat>)
    requires video.None?
    ensures Contains(Describe(video, audio), SelectorElement + " " + "! fakesink")
    ensures Contains(Describe(video, audio), "(" + " " + "" + " " + TestLink)
    ensures Contains(Describe(video, audio), TeeQueue + " " + "" + " " + FreezeLink)
  {
    DescribeContainsSelectorRun(video, audio);
    DescribeContainsTestRun(video, audio);
    DescribeContainsFreezeRun(video, audio);
  }

  /** ADPCM audio sets caps carrying the block size in decimal and ends in the `pay1` payloader. */
  lemma DescribeAdpcm(video: Option<StreamFormat>, audio: Option<StreamFormat>)
    requires audio.Some? && audio.value.Adpcm?
    ensures Contains(Describe(video, audio), "block_align=" + Decimal(audio.value.blockSize as nat))
    ensures Contains(Describe(video, audio), AudioPay)
  {
    DescribeContainsAudioBranch(video, audio);
    var n := audio.value.blockSize;
    var d := Describe(video, audio);
    ContainsPrefix(AdpcmCaps(n), AdpcmChain);
    ContainsTransitive(d, AudioBranch(audio), AdpcmCaps(n));
    ContainsMiddle("caps=audio/x-adpcm,layout=dvi,", "block_align=" + Decimal(n as nat), ",channels=1,rate=8000");
    ContainsTransitive(d, AdpcmCaps(n), "block_align=" + Decimal(n as nat));
    ContainsSuffix(AdpcmCaps(n), AdpcmChain);
    ContainsTransitive(d, AudioBranch(audio), AdpcmChain);
    SuffixIn(d, AdpcmChain, AdpcmDecode, AudioPay);
  }

  /** AAC audio brings the AAC parser and names the payloader `pay1` twice. */
  lemma DescribeAac(video: Option<StreamFormat>, audio: Option<StreamFormat>)
    requires audio.Some? && audio.value.Aac?
    ensures Contains(Describe(video, audio), "aacparse")
    ensures Contains(Describe(video, audio), AudioPay + " " + AudioPayName)
  {
    DescribeContainsAudioBranch(video, audio);
    var d := Describe(video, audio);
    ContainsPrefix(AacParse, AacTail);
    ContainsTransitive(d, AacChain, AacParse);
    SuffixIn(d, AacParse, "! queue silent=true max-size-bytes=10485760 min-threshold-bytes=1024 ! ", "aacparse");
    ContainsSuffix(AacParse, AacTail);
    ContainsTransitive(d, AacChain, AacTail);
    SuffixIn(d, AacTail, " ! decodebin ! audioconvert ! ", AudioPay + " " + AudioPayName);
  }

  /** With no audio format the audio appsrc feeds a discarding sink that closes the description. */
  lemma DescribeWithoutAudio(video: Option<StreamFormat>, audio: Option<StreamFormat>)
    requires audio.None?
    ensures EndsWith(Describe(video, audio), AudSrcElement + " " + "! fakesink" + " " + ")")
  {
    DescribeEndsWithAudio(video, audio);
  }
}
