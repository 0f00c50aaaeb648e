# neolink RTSP stream output — a Dafny model

This project models the part of neolink's RTSP server (`src/rtsp/gst.rs`)
that turns the camera's media units into a GStreamer RTSP stream:

- `GstOutputs`, the per-stream output. It receives `BcMedia` units in
  `stream_recv`. It latches the video and audio `StreamFormat` of each unit
  into two independent slots (`set_format`). When a slot changes, it
  rebuilds the pipeline launch description and installs it into the media
  factory (`apply_format`). It writes each payload to the video or audio app
  source. It keeps the last key frame so it can be replayed
  (`has_last_iframe`, `write_last_iframe`). At every key frame it asks the
  streaming-state oracle (`set_state`) whether the camera should keep
  sending. It also switches the video input selector between the camera,
  test-pattern, freeze-frame and black branches (`set_input_source`).
- `RtspServer::add_permitted_roles`, which gives a media factory one role
  structure per permitted user. That structure grants access and
  construct. Unless `anonymous` is permitted itself, it also adds an
  access-only structure for `anonymous`.
- `RtspServer::add_stream`, which builds a stream output, gives its factory
  the roles, shares it, and mounts it at every path.

Modules:

- `Wrappers`: Option and Result.
- `Formats`: bytes, `u16`, `StreamFormat`, `BcMedia`, and the format each unit announces.
- `Launch`: the launch description as a pure function of the two slots, plus facts about what it contains.
- `Latch`: the two-slot format latch on values, and counting of rebuilds.
- `Gst`: the GStreamer objects the output talks to, reduced to the state it can observe.
- `Outputs`: the `GstOutputs` class.
- `Access`: the role-structure law.
- `Server`: `RtspServer`.

The `GstOutputs` class keeps two ghost histories:

- every format handed to `set_format`;
- every key frame kept.

The media factory keeps a ghost list of every description installed. The
class invariant `Valid` ties these together in three ways:

- The slots equal the value-level latch `Latch.Feed` run over the announced formats.
- The number of installs is one, for construction, plus the number of latch changes `Latch.Rebuilds`.
- The installed description is `Launch.Describe` of the current slots.

What the environment decides is a field set from outside the model:

- whether an app source accepts a write (`accepting`);
- whether the input selector has its live element (`ready`);
- what the oracle answers (`answer`).

## Model

| member | source | states |
|---|---|---|
| Formats.Classify | src/rtsp/gst.rs:87-129 | a unit announces a format exactly when it is a frame or audio; a video format exactly for key and delta frames, an audio format exactly for AAC and ADPCM units |
| Formats.AdpcmFormatsAgree | src/rtsp/gst.rs:120-121 | two ADPCM units announce the same block size exactly when their lengths agree modulo 65536, and below 65536 exactly when the lengths are equal |
| Formats.AdpcmLengthWraps | src/rtsp/gst.rs:121 | `len as u16` wraps: a payload 65536 bytes longer announces the same block size |
| Formats.TruncateU16 | src/rtsp/gst.rs:121 | Rust's `as u16` on a length: the low sixteen bits |
| Formats.VideoFormatsAgree | src/rtsp/gst.rs:89-92 | two frames announce the same video format exactly when their codecs agree |
| Outputs.InputIndex | src/rtsp/gst.rs:160-167 | every input source maps to a selector pad below 4 |
| Outputs.SourceAtInputIndex | src/rtsp/gst.rs:160-167 | Cam, TestSrc, Still and Black map to pads 0, 1, 2 and 3, and each is recovered from its pad |
| Outputs.InputIndexSourceAt | src/rtsp/gst.rs:160-167 | pads 0 to 3 are exactly the pads of the four sources |
| Outputs.InputIndexInjective | src/rtsp/gst.rs:160-167 | distinct sources select distinct pads |
| Outputs.SourcePadDeclared | src/rtsp/gst.rs:160-167 | every source except Black selects a pad that every launch description feeds |
| Outputs.GstOutputs.FromAppsrcs | src/rtsp/gst.rs:136-153 | a new output has no formats, no state and no key frame; its fresh factory received exactly one description, the one for empty slots |
| Outputs.GstOutputs.ApplyFormat | src/rtsp/gst.rs:201-280 | the factory's description becomes `Describe` of the current slots, appended to the install history |
| Outputs.GstOutputs.SetState | src/rtsp/gst.rs:155-158 | the output and its video app source both hold the given oracle afterwards |
| Outputs.GstOutputs.SetInputSource | src/rtsp/gst.rs:160-167 | selects the source's pad when the selector is ready, otherwise fails and leaves the active pad as it was |
| Outputs.GstOutputs.HasLastIframe | src/rtsp/gst.rs:169-171 | true exactly when some key frame has been kept |
| Outputs.GstOutputs.WriteLastIframe | src/rtsp/gst.rs:173-181 | without a key frame it fails with no data; otherwise it writes the latest kept key frame once more and fails only when the app source refuses |
| Outputs.GstOutputs.SetFormat | src/rtsp/gst.rs:183-199 | the slots follow `Latch.SetFormat`; one description is installed exactly when the latch changes; the invariant tying slots, history and description is kept |
| Outputs.GstOutputs.StreamRecv | src/rtsp/gst.rs:79-132 | the camera pad is forced first, and when that fails nothing else happens (slots, histories, descriptions, written payloads and the active pad stay as they were); otherwise the format is latched, the payload goes to the app source of its class, a key frame is kept only once it is written, the error names the unit and the sink, and the answer is "stop" only at a key frame whose oracle says so |
| Outputs.SteadyInstalls | src/rtsp/gst.rs:183-199 | over a stream whose codecs never change, the factory receives at most three descriptions, the one at construction included |
| Latch.SetFormat | src/rtsp/gst.rs:183-199 | a format goes to the slot of its class and leaves the other slot alone; no format changes nothing; the slots change exactly when the format differs from its slot; well-formed slots stay well formed |
| Latch.SetFormatIdempotent | src/rtsp/gst.rs:186 | latching the same format twice changes nothing the second time |
| Latch.SetFormatCommutes | src/rtsp/gst.rs:183-199 | the video and audio slots are independent: a video and an audio format latch to the same slots in either order, and neither changes whether the other rebuilds |
| Latch.Feed | src/rtsp/gst.rs:183-199 | the slots after `set_format` is called with each format of a stream in turn |
| Latch.Rebuilds | src/rtsp/gst.rs:183-199 | how many of those calls rebuild the description |
| Latch.FeedValid | src/rtsp/gst.rs:183-199 | feeding formats keeps video formats in the video slot and audio formats in the audio slot |
| Latch.FeedSnoc | src/rtsp/gst.rs:183-199 | one more format extends the fold and the rebuild count by one latch step |
| Latch.AccountsStep | src/rtsp/gst.rs:183-199 | one `set_format` keeps "slots = fed latch, installs = 1 + rebuilds", with one install added exactly when the slots change |
| Latch.FeedHoldsLatest | src/rtsp/gst.rs:183-199 | after a stream of formats each slot holds the latest format of its class, or its old value when the stream has none of that class |
| Latch.SteadyRebuilds | src/rtsp/gst.rs:183-199 | when codecs never change, rebuilds equal the number of slots filled, so at most two |
| Latch.AdpcmFormats | src/rtsp/gst.rs:120-121 | the i-th ADPCM payload announces `Adpcm(len % 65536)` |
| Latch.AdpcmUnitsAnnounce | src/rtsp/gst.rs:120-121 | a stream of ADPCM units announces, unit by unit, `AdpcmFormats` of their payload lengths |
| Latch.AdpcmRebuilds | src/rtsp/gst.rs:120-121 | ADPCM payloads rebuild once for the first payload and once per length change modulo 65536, and end with the audio slot on the last block size |
| Latch.AdpcmFormatsAgreeOnLength | src/rtsp/gst.rs:121 | two ADPCM formats agree exactly when the lengths agree modulo 65536 |
| Latch.AdpcmExample | src/rtsp/gst.rs:120-121 | lengths 160, 160, 320, 320, 160 rebuild three times, not five |
| Latch.AdpcmWrapExample | src/rtsp/gst.rs:121 | lengths 160 and 65696 rebuild only once |
| Launch.Decimal | src/rtsp/gst.rs:239 | `{}` renders a block size as decimal digits with no leading zero |
| Launch.DecimalRoundTrip | src/rtsp/gst.rs:239 | reading the rendered digits back gives the block size |
| Launch.DecimalInjective | src/rtsp/gst.rs:239 | distinct block sizes render as distinct digit strings |
| Launch.AdpcmCaps | src/rtsp/gst.rs:239 | the caps of the ADPCM audio app source: DVI layout, `block_align` set to the block size in decimal, mono, 8000 Hz |
| Launch.AdpcmCapsInjective | src/rtsp/gst.rs:239 | distinct ADPCM block sizes give distinct caps |
| Launch.VideoSelect | src/rtsp/gst.rs:202-206 | what the input selector feeds: the H264 or H265 payloader named `pay0`, or `fakesink` when no video format is known |
| Launch.AppSrcParse | src/rtsp/gst.rs:208-216 | the queue and parser after the camera app source, or nothing when no video format is known |
| Launch.AltSource | src/rtsp/gst.rs:218-226 | the test-pattern source encoded to the camera's codec, or nothing when no video format is known |
| Launch.FreezeSource | src/rtsp/gst.rs:228-236 | the freeze-frame chain (decode, freeze, re-encode), or nothing when no video format is known |
| Launch.AudioBranch | src/rtsp/gst.rs:238-242 | what follows the audio app source: ADPCM caps and decoder, the AAC chain, or `fakesink` when no audio format is known |
| Launch.LaunchParts | src/rtsp/gst.rs:244-276 | the pieces of the description in the order `apply_format` lists them |
| Launch.Describe | src/rtsp/gst.rs:201-277 | the whole launch description: the pieces joined with single spaces |
| Launch.DescribeDeclaresHandles | src/rtsp/gst.rs:244-277 | every description names `vidsrc`, `audsrc` and `vid_inputselect` and feeds selector pads 0, 1 and 2 |
| Launch.DescribeContainsVideoSelect | src/rtsp/gst.rs:202-206 | the element chosen by the video slot appears in the description |
| Launch.DescribeContainsParse | src/rtsp/gst.rs:208-216 | the parser chosen by the video slot appears in the description |
| Launch.DescribeContainsAudioBranch | src/rtsp/gst.rs:238-242 | the chain chosen by the audio slot appears in the description |
| Launch.DescribeH264 | src/rtsp/gst.rs:202-216 | with H264 video, the description has the H264 payloader `pay0` and the H264 parser |
| Launch.DescribeH265 | src/rtsp/gst.rs:202-216 | with H265 video, the description has the H265 payloader `pay0` and the H265 parser |
| Launch.DescribeContainsSelectorRun | src/rtsp/gst.rs:247-250 | the input selector is directly followed by the element the video slot chooses |
| Launch.DescribeContainsTestRun | src/rtsp/gst.rs:262-265 | the test branch is the slot's test source followed by the link to pad 1 |
| Launch.DescribeContainsFreezeRun | src/rtsp/gst.rs:267-271 | the freeze branch is a tee leg, the slot's freezer and the link to pad 2 |
| Launch.DescribeEndsWithAudio | src/rtsp/gst.rs:273-277 | the description ends with the audio app source, its chain and the closing parenthesis |
| Launch.DescribeWithoutVideo | src/rtsp/gst.rs:202-236 | with no video format the selector feeds `fakesink`, and the test and freeze branches are empty apart from their links |
| Launch.DescribeAdpcm | src/rtsp/gst.rs:239 | ADPCM audio puts `block_align=<block size in decimal>` in the caps and ends in the L16 payloader |
| Launch.DescribeAac | src/rtsp/gst.rs:240 | AAC audio brings `aacparse` and names the payloader `pay1` twice |
| Launch.DescribeWithoutAudio | src/rtsp/gst.rs:241 | with no audio format the description ends with the audio app source feeding `fakesink` |
| Access.PermittedRules | src/rtsp/gst.rs:371-379 | one access-and-construct structure per permitted role |
| Access.RoleRules | src/rtsp/gst.rs:366-400 | those structures, plus the access-only `anonymous` structure unless `anonymous` is permitted |
| Access.AccessLaw | src/rtsp/gst.rs:366-400 | a role may access the media exactly when it is permitted or is `anonymous` |
| Access.ConstructLaw | src/rtsp/gst.rs:366-400 | a role may construct (watch) the media exactly when it is permitted |
| Access.PermittedRulesAdd | src/rtsp/gst.rs:371-379 | permitting one more role adds exactly its full structure |
| Access.PermittedRulesCount | src/rtsp/gst.rs:371-379 | the full structures number as many as the permitted roles |
| Access.RoleRulesCount | src/rtsp/gst.rs:366-400 | one structure per permitted role, plus one for `anonymous` unless it is permitted |
| Access.AliceBobExample | src/rtsp/gst.rs:366-400 | permitting alice and bob gives three structures: theirs and the `anonymous` access-only one |
| Access.AnonymousExample | src/rtsp/gst.rs:394-399 | permitting `anonymous` gives its single full structure and no access-only one |
| Server.RulesInSnoc | src/rtsp/gst.rs:371-379 | appending a structure to the factory's list adds it to the set of structures held |
| Server.Mounted | src/rtsp/gst.rs:359-361 | after mounting, the given paths map to the factory, other paths keep their factories, and no other path appears |
| Server.FloorCompletes | src/rtsp/gst.rs:366-400 | the structures for the permitted roles, followed by the `anonymous` one when it is needed, are exactly the role rules, with the `anonymous` one last |
| Server.RtspServer.AddPermittedRoles | src/rtsp/gst.rs:366-400 | the factory keeps its earlier roles and gains exactly the role rules, one structure each, with the `anonymous` access-only structure last when it is added |
| Server.RtspServer.AddStream | src/rtsp/gst.rs:297-364 | returns a fresh, well-formed output with fresh app sources and selector, nothing written, no key frame and no oracle; its factory holds one description and exactly the role rules, and is shared; that same factory is mounted at every path |
| Server.RtspServer.MountAt | src/rtsp/gst.rs:359-361 | the mount loop leaves the mount points as `Mounted` of the paths |

## Left out

- `RtspServer::new`, `run`, `set_credentials`, `set_tls` and the `Default` implementation: they only configure the GStreamer server (initialisation, authentication tokens, TLS certificates, the listening socket) and have no logic of their own to model.
- The `connect_media_configure` callback of `add_stream`: it runs inside GStreamer when the pipeline is built and hands the live elements to the app sources and the selector. The model covers its effect with the `accepting` and `ready` fields that the environment sets.
- `MaybeAppSrc`, `MaybeInputSelect` and `States` (`maybe_app_src.rs`, `maybe_inputselect.rs`, `state.rs`) are not part of this model. Only the state a stream output can observe is kept: a write either hands over the whole payload or fails and delivers nothing, selection succeeds exactly when `ready` holds, and the oracle answers its `answer` field.
- Logging (`debug!`) and the GStreamer parsing of the launch description are left out. The model states the description's text, not what GStreamer builds from it.
- The payloads of `InfoV1` and `InfoV2` are left out: `stream_recv` ignores those units.
- Outputs.GstOutputs.StreamRecv: the Rust error values carry formatted messages. The model keeps only which unit and which sink failed (`CannotWrite`), and `CannotSelectCamera` instead of the selector's own error text.
- Server.RtspServer.AddStream: the source returns `Result<GstOutputs>`, but no path of it returns an error (the mount points are obtained with `expect`), so the model returns the output directly.
- `Outputs.GstOutputs.Forward`, `Receive` and `KeepIframe` and `Server.RtspServer.MountAt` are parts of the Rust bodies of `stream_recv` and `add_stream`, split out as separate methods. They have no counterparts of their own in the source.
- `set_state` clones the `States` handle; the model shares one `States` object between the output and its video app source, as the clone refers to the same state.
- Gst.MaybeInputSelect.SetInput: a selection succeeds whenever the selector is ready, without regard to whether the chosen pad exists. Selecting Black (pad 3) therefore succeeds in the model; no lemma states that `sink_3` is absent from every description.
- Where the source and its documentation disagree, the model follows the code:
  - `stream_recv` returns an error when the input selector cannot be switched to the camera (the `?` on `set_input_source`). It does not tolerate that failure silently.
  - "At most two rebuilds" on a stream whose codecs never change holds for rebuilds after construction (`Latch.SteadyRebuilds`). Counting the description installed by `from_appsrcs`, the factory receives at most three (`Outputs.SteadyInstalls`).
  - `InputSources::Black` selects pad 3, but no launch description feeds `vid_inputselect.sink_3`. `Outputs.SourcePadDeclared` therefore excludes Black.
  - The AAC chain names its payloader `name=pay1` twice, and `Launch.DescribeAac` states it as written.
