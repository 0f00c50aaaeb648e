/**
 * The per-stream output (`GstOutputs`, src/rtsp/gst.rs): it receives the
 * camera's media units, latches their formats, rebuilds the launch
 * description when a format changes, writes payloads to the video or audio
 * app source, keeps the last key frame, and asks the streaming-state oracle
 * at key frames whether to go on.
 */
module Outputs {
  import opened Wrappers
  import opened Formats
  import opened Launch
  import opened Latch
  import opened Gst

  /** The four video sources the input selector chooses between. */
  datatype InputSources = Cam | TestSrc | Still | Black

  /** The selector pad each source is fed through (`set_input_source`). */
  function InputIndex(source: InputSources): (index: nat)
    ensures index < 4
  {
    match source
    case Cam => 0
    case TestSrc => 1
    case Still => 2
    case Black => 3
  }

  /** The source fed through a selector pad, if any. */
  function SourceAt(index: nat): Option<InputSources>
  {
    if index == 0 then Some(Cam)
    else if index == 1 then Some(TestSrc)
    else if index == 2 then Some(Still)
    else if index == 3 then Some(Black)
    else None
  }

  /** Every source is recovered from its pad. */
  lemma SourceAtInputIndex(source: InputSources)
    ensures SourceAt(InputIndex(source)) == Some(source)
  {
  }

  /** Pads 0 to 3 are the pads of the four sources, and no others are. */
  lemma InputIndexSourceAt(index: nat)
    ensures SourceAt(index).Some? <==> index < 4
    ensures SourceAt(index).Some? ==> InputIndex(SourceAt(index).value) == index
  {
  }

  /** Distinct sources use distinct pads. */
  lemma InputIndexInjective(s1: InputSources, s2: InputSources)
    ensures InputIndex(s1) == InputIndex(s2) <==> s1 == s2
  {
    SourceAtInputIndex(s1);
    SourceAtInputIndex(s2);
  }

  /**
   * The camera, test and still sources select pads that every launch
   * description feeds; the black source selects pad 3, which no branch of
   * the description feeds.
   */
  lemma SourcePadDeclared(source: InputSources, video: Option<StreamFormat>, audio: Option<StreamFormat>)
    requires source != Black
    ensures Contains(Describe(video, audio), SelectorPad(InputIndex(source)))
  {
    DescribeDeclaresHandles(video, audio);
  }

  /** What can go wrong on a stream output. */
  datatype Error =
    | SelectFailed                          // the input selector refused
    | WriteFailed                           // an app source refused a replayed frame
    | NoIframeData                          // nothing to replay yet
    | CannotSelectCamera                    // `stream_recv` could not force the camera input
    | CannotWrite(unit: string, sink: string) // `stream_recv` could not write a payload

  /** How the error of a failed payload write names the unit. */
  function UnitLabel(media: BcMedia): string
  {
    match media
    case Iframe(_, _) => "IFrame"
    case Pframe(_, _) => "PFrame"
    case Aac(_) => "AAC"
    case Adpcm(_) => "ADPCM"
    case _ => ""
  }

  /** The app source a media unit's payload goes to. */
  function SinkLabel(media: BcMedia): string
  {
    if media.IsVideo() then "vidsrc" else "audsrc"
  }

  class GstOutputs {
    const vidsrc: MaybeAppSrc
    const audsrc: MaybeAppSrc
    const vidInputSelect: MaybeInputSelect
    const factory: MediaFactory
    var videoFormat: Option<StreamFormat>
    var audioFormat: Option<StreamFormat>
    var state: Option<States>
    var lastIframe: Option<Bytes>
    /** Every format handed to `set_format`, in order. */
    ghost var announced: seq<StreamFormat>
    /** Every key frame payload kept, in order. */
    ghost var iframes: seq<Bytes>

    /** The slots are the latch fed with every announced format, one install per rebuild. */
    ghost predicate Latched()
      reads this`videoFormat, this`audioFormat, this`announced, factory`launches
    {
      Accounts(Slots(videoFormat, audioFormat), announced, |factory.launches|)
    }

    /**
     * The factory got one description at construction and one per latch
     * change, the last of them describing the current slots.
     */
    ghost predicate Installed()
      reads this`videoFormat, this`audioFormat, this`announced, factory`launch, factory`launches
    {
      && |factory.launches| > 0
      && (forall video, audio {:trigger Describe(video, audio)} ::
            video == videoFormat && audio == audioFormat ==> factory.launch == Describe(video, audio))
      && factory.launches[|factory.launches| - 1] == factory.launch
    }

    /** The kept key frame is the latest one written. */
    ghost predicate Kept()
      reads this`lastIframe, this`iframes
    {
      lastIframe == (if iframes == [] then None else Some(iframes[|iframes| - 1]))
    }

    ghost predicate Valid()
      reads this, factory`launch, factory`launches
    {
      vidsrc != audsrc && Latched() && Installed() && Kept()
    }

    /** `from_appsrcs`: no formats known yet, and the description for that installed. */
    constructor FromAppsrcs(vidsrc: MaybeAppSrc, audsrc: MaybeAppSrc, vidInputSelect: MaybeInputSelect)
      requires vidsrc != audsrc
      ensures Valid()
      ensures this.vidsrc == vidsrc && this.audsrc == audsrc && this.vidInputSelect == vidInputSelect
      ensures fresh(factory) && factory.launches == [factory.launch]
      ensures factory.roles == [] && !factory.shared
      ensures videoFormat.None? && audioFormat.None? && state.None? && lastIframe.None?
      ensures announced == [] && iframes == []
    {
      this.vidsrc := vidsrc;
      this.audsrc := audsrc;
      this.vidInputSelect := vidInputSelect;
      videoFormat := None;
      audioFormat := None;
      factory := new MediaFactory();
      lastIframe := None;
      state := None;
      announced := [];
      iframes := [];
      new;
      ApplyFormat();
    }

    /** `apply_format`: install the description of the current slots. */
    method ApplyFormat()
      modifies factory`launch, factory`launches
      ensures forall video, audio {:trigger Describe(video, audio)} ::
                video == videoFormat && audio == audioFormat ==> factory.launch == Describe(video, audio)
      ensures factory.launches == old(factory.launches) + [factory.launch]
    {
      factory.SetLaunch(Describe(videoFormat, audioFormat));
    }

    /** `set_state`: the oracle is kept here and handed to the video app source. */
    method SetState(state: States)
      requires Valid()
      modifies this`state, vidsrc`state
      ensures Valid()
      ensures this.state == Some(state) && vidsrc.state == Some(state)
    {
      vidsrc.state := Some(state);
      this.state := Some(state);
    }

    /** `set_input_source`: select the pad of `source`; the selector's failure is passed on. */
    method SetInputSource(source: InputSources) returns (r: Result<(), Error>)
      requires Valid()
      modifies vidInputSelect`active
      ensures Valid()
      ensures r.Ok? <==> vidInputSelect.ready
      ensures r.Err? ==> r.error == SelectFailed
      ensures vidInputSelect.active == if r.Ok? then Some(InputIndex(source)) else old(vidInputSelect.active)
    {
      var ok: bool;
      match source {
        case Cam => ok := vidInputSelect.SetInput(0);
        case TestSrc => ok := vidInputSelect.SetInput(1);
        case Still => ok := vidInputSelect.SetInput(2);
        case Black => ok := vidInputSelect.SetInput(3);
      }
      r := if ok then Ok(()) else Err(SelectFailed);
      StaysValid(this);
    }

    /** `has_last_iframe`: some key frame has been kept. */
    function HasLastIframe(): (b: bool)
      reads this, factory`launch, factory`launches
      requires Valid()
      ensures b <==> iframes != []
    {
      lastIframe.Some?
    }

    /** `write_last_iframe`: write the latest kept key frame to the video app source again. */
    method WriteLastIframe() returns (r: Result<(), Error>)
      requires Valid()
      modifies vidsrc`written
      ensures Valid()
      ensures iframes == [] ==> r == Err(NoIframeData)
      ensures iframes != [] ==> (r.Ok? <==> vidsrc.accepting) && (r.Err? ==> r.error == WriteFailed)
      ensures vidsrc.written == if r.Ok? then old(vidsrc.written) + [iframes[|iframes| - 1]] else old(vidsrc.written)
    {
      if lastIframe.None? {
        return Err(NoIframeData);
      }
      var ok := vidsrc.WriteAll(lastIframe.value);
      r := if ok then Ok(()) else Err(WriteFailed);
      StaysValid(this);
    }

    /**
     * `set_format`: latch the format in the slot of its class when it
     * differs from the slot, and then install the new description.
     */
    method SetFormat(format: Option<StreamFormat>)
      requires Valid()
      modifies this`videoFormat, this`audioFormat, this`announced, factory`launch, factory`launches
      ensures Valid()
      ensures Slots(videoFormat, audioFormat) == Latch.SetFormat(old(Slots(videoFormat, audioFormat)), format)
      ensures factory.launches == if Changes(old(Slots(videoFormat, audioFormat)), format)
                                  then old(factory.launches) + [factory.launch] else old(factory.launches)
      ensures announced == Announce(old(announced), format)
    {
      AccountsStep(Slots(videoFormat, audioFormat), announced, |factory.launches|, format);
      match format {
        case Some(H264) | Some(H265) =>
          if format != videoFormat {
            videoFormat := format;
            ApplyFormat();
          }
        case Some(Aac) | Some(Adpcm(_)) =>
          if format != audioFormat {
            audioFormat := format;
            ApplyFormat();
          }
        case None =>
      }
      announced := Announce(announced, format);
    }

    /** `stream_recv` keeps a key frame once its payload is written. */
    method KeepIframe(data: Bytes)
      requires Valid()
      modifies this`lastIframe, this`iframes
      ensures Valid()
      ensures lastIframe == Some(data) && iframes == old(iframes) + [data]
    {
      lastIframe := Some(data);
      iframes := iframes + [data];
    }

    /**
     * One branch of `stream_recv`: latch the unit's format, then write its
     * payload to the app source of the format's class.
     */
    method Forward(format: StreamFormat, data: Bytes) returns (ok: bool)
      requires Valid()
      modifies this`videoFormat, this`audioFormat, this`announced, factory`launch, factory`launches
      modifies vidsrc`written, audsrc`written
      ensures Valid()
      ensures Slots(videoFormat, audioFormat) == Latch.SetFormat(old(Slots(videoFormat, audioFormat)), Some(format))
      ensures announced == Announce(old(announced), Some(format))
      ensures factory.launches == if Changes(old(Slots(videoFormat, audioFormat)), Some(format))
                                  then old(factory.launches) + [factory.launch] else old(factory.launches)
      ensures ok == if format.IsVideo() then vidsrc.accepting else audsrc.accepting
      ensures vidsrc.written == if format.IsVideo() && ok then old(vidsrc.written) + [data] else old(vidsrc.written)
      ensures audsrc.written == if !format.IsVideo() && ok then old(audsrc.written) + [data] else old(audsrc.written)
    {
      SetFormat(Some(format));
      if format.IsVideo() {
        ok := vidsrc.WriteAll(data);
      } else {
        ok := audsrc.WriteAll(data);
      }
    }

    /**
     * The body of `stream_recv` once the camera input is selected: latch the
     * unit's format, write its payload to the app source of its class, keep
     * a key frame once it is written, and at a key frame ask the oracle
     * whether to go on.
     */
    method Receive(media: BcMedia) returns (r: Result<bool, Error>)
      requires Valid()
      modifies this`videoFormat, this`audioFormat, this`announced, this`lastIframe, this`iframes
      modifies factory`launch, factory`launches, vidsrc`written, audsrc`written
      ensures Valid()
      // the format latch
      ensures Slots(videoFormat, audioFormat) == Latch.SetFormat(old(Slots(videoFormat, audioFormat)), Classify(media))
      ensures announced == Announce(old(announced), Classify(media))
      ensures factory.launches == if Changes(old(Slots(videoFormat, audioFormat)), Classify(media))
                                  then old(factory.launches) + [factory.launch] else old(factory.launches)
      // payloads go to the app source of their class
      ensures vidsrc.written == if media.IsVideo() && vidsrc.accepting
                                then old(vidsrc.written) + [media.data] else old(vidsrc.written)
      ensures audsrc.written == if media.IsAudio() && audsrc.accepting
                                then old(audsrc.written) + [media.data] else old(audsrc.written)
      // a key frame is kept only once it is written
      ensures iframes == if media.Iframe? && vidsrc.accepting then old(iframes) + [media.data] else old(iframes)
      // the outcome
      ensures r.Err? <==> (media.IsVideo() && !vidsrc.accepting) || (media.IsAudio() && !audsrc.accepting)
      ensures r.Err? ==> r.error == CannotWrite(UnitLabel(media), SinkLabel(media))
      ensures r.Ok? ==> r.value == (!media.Iframe? || state.None? || state.value.answer)
    {
      var shouldContinue := true;
      if media.IsMedia() {
        var ok := Forward(Classify(media).value, media.data);
        if !ok {
          return Err(CannotWrite(UnitLabel(media), SinkLabel(media)));
        }
        if media.Iframe? {
          KeepIframe(media.data);
          if state.Some? {
            shouldContinue := state.value.ShouldStream();
          }
        }
      }
      r := Ok(shouldContinue);
    }

    /**
     * `stream_recv`: force the camera input first; when that fails nothing
     * else happens, otherwise the unit is received as `Receive` states.
     */
    method StreamRecv(media: BcMedia) returns (r: Result<bool, Error>)
      requires Valid()
      modifies this`videoFormat, this`audioFormat, this`announced, this`lastIframe, this`iframes
      modifies factory`launch, factory`launches, vidsrc`written, audsrc`written, vidInputSelect`active
      ensures Valid()
      // the camera input comes first; when it cannot be selected nothing else happens
      ensures !vidInputSelect.ready ==>
                r == Err(CannotSelectCamera) && Slots(videoFormat, audioFormat) == old(Slots(videoFormat, audioFormat))
                && announced == old(announced) && factory.launches == old(factory.launches)
                && vidInputSelect.active == old(vidInputSelect.active)
      ensures vidInputSelect.ready ==> vidInputSelect.active == Some(InputIndex(Cam))
      // the format latch
      ensures vidInputSelect.ready ==>
                Slots(videoFormat, audioFormat) == Latch.SetFormat(old(Slots(videoFormat, audioFormat)), Classify(media))
                && announced == Announce(old(announced), Classify(media))
                && factory.launches == (if Changes(old(Slots(videoFormat, audioFormat)), Classify(media))
                                        then old(factory.launches) + [factory.launch] else old(factory.launches))
      // payloads go to the app source of their class
      ensures vidsrc.written == if vidInputSelect.ready && media.IsVideo() && vidsrc.accepting
                                then old(vidsrc.written) + [media.data] else old(vidsrc.written)
      ensures audsrc.written == if vidInputSelect.ready && media.IsAudio() && audsrc.accepting
                                then old(audsrc.written) + [media.data] else old(audsrc.written)
      // a key frame is kept only once it is written
      ensures iframes == if vidInputSelect.ready && media.Iframe? && vidsrc.accepting
                         then old(iframes) + [media.data] else old(iframes)
      // the outcome
      ensures r.Err? <==> !vidInputSelect.ready || (media.IsVideo() && !vidsrc.accepting)
                          || (media.IsAudio() && !audsrc.accepting)
      ensures r.Err? && vidInputSelect.ready ==> r.error == CannotWrite(UnitLabel(media), SinkLabel(media))
      ensures r.Ok? ==> r.value == (!media.Iframe? || state.None? || state.value.answer)
    {
      var selected := SetInputSource(Cam);
      if selected.Err? {
        return Err(CannotSelectCamera);
      }
      r := Receive(media);
    }
  }

  /** A stream output stays well formed while neither it nor its factory's launch state changes. */
  twostate lemma StaysValid(outputs: GstOutputs)
    requires old(outputs.Valid()) && unchanged(outputs)
    requires unchanged(outputs.factory`launch, outputs.factory`launches)
    ensures outputs.Valid()
  {
  }

  /** Over a stream whose codecs never change, the factory gets at most three descriptions. */
  lemma SteadyInstalls(outputs: GstOutputs)
    requires outputs.Valid() && Steady(outputs.announced)
    ensures |outputs.factory.launches| <= 3
  {
    SteadyRebuilds(outputs.announced);
  }
}
