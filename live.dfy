/**
 * The live voice conversation: its session status, the resource slots that
 * `cleanup` releases, the two transcript buffers and the transcript, the
 * playback cursor and the set of playing sources.
 */
module LiveConversation {
  import opened Wrappers
  import opened Types
  import opened Text
  import opened AudioCodec

  datatype Status = Idle | Connecting | Active | Error

  /** The `state` of an audio context that has been created. */
  datatype ContextState = Running | Closed

  /** A transcription carried by a server message; its `text` may be missing. */
  datatype Transcription = Transcription(text: Option<string>)

  /**
   * The inline audio of a server message: absent (or empty), the binary
   * string `atob` makes of it, or text `atob` rejects.
   */
  datatype AudioPayload = NoAudio | Audio(binary: seq<CodeUnit>) | Malformed

  datatype ServerMessage = ServerMessage(
    outputTranscription: Option<Transcription>,
    inputTranscription: Option<Transcription>,
    turnComplete: bool,
    audio: AudioPayload)

  /** How the asynchronous part of `startSession` ends. */
  datatype StartOutcome =
    | MicrophoneDenied  // `getUserMedia` rejects
    | ConnectFailed     // the microphone is granted, then creating the session throws
    | Connected         // the microphone is granted and the session is being opened

  /** An audio buffer source node, told apart from others by the order of creation. */
  type SourceId = nat

  /** One call that gives a resource back. */
  datatype Release =
    | StopSource(source: SourceId)
    | DisconnectProcessor
    | DisconnectStreamSource
    | StopTracks
    | CloseInputContext
    | CloseOutputContext
    | CloseSession

  /** One `source.start(start)` of a buffer lasting `duration` seconds. */
  datatype Scheduled = Scheduled(source: SourceId, start: real, duration: real)

  const PlaybackSampleRate: nat := 24000

  /** The error line shown under the status: empty, or one of two fixed messages. */
  datatype ErrorMessage = NoMessage | PermissionMessage | SessionMessage {
    function Text(): string {
      match this
      case NoMessage => ""
      case PermissionMessage => "Failed to get microphone permissions."
      case SessionMessage => "An error occurred during the session."
    }
  }

  function Max(a: real, b: real): (m: real)
    ensures m >= a && m >= b && (m == a || m == b)
  {
    if a >= b then a else b
  }

  /** What `+=` appends for a transcription: JavaScript turns a missing text into "undefined". */
  function FragmentText(t: Transcription): (s: string)
    ensures t.text.Some? ==> s == t.text.value
    ensures t.text.None? ==> s == "undefined"
  {
    match t.text
    case Some(s) => s
    case None => "undefined"
  }

  /** A transcript buffer after a message: its fragment, if the message has one, is appended. */
  function Accumulate(buffer: string, t: Option<Transcription>): (r: string)
    ensures buffer <= r
    ensures t.None? ==> r == buffer
    ensures t.Some? ==> r == buffer + FragmentText(t.value)
  {
    if t.Some? then buffer + FragmentText(t.value) else buffer
  }

  /** What one message's transcription appends to its buffer. */
  function Piece(t: Option<Transcription>): string {
    if t.Some? then FragmentText(t.value) else ""
  }

  /** Everything a run of transcriptions appends, in arrival order. */
  function Fragments(ts: seq<Option<Transcription>>): string {
    if ts == [] then "" else Piece(ts[0]) + Fragments(ts[1..])
  }

  /** A buffer after each transcription of a run has been accumulated into it, one after the other. */
  function AccumulateEach(buffer: string, ts: seq<Option<Transcription>>): string
    decreases |ts|
  {
    if ts == [] then buffer else AccumulateEach(Accumulate(buffer, ts[0]), ts[1..])
  }

  /** Accumulating a run of transcriptions appends all their fragments, in order, and nothing else. */
  lemma {:induction false} AccumulateAll(buffer: string, ts: seq<Option<Transcription>>)
    ensures AccumulateEach(buffer, ts) == buffer + Fragments(ts)
    decreases |ts|
  {
    if ts != [] {
      var piece, rest := Piece(ts[0]), Fragments(ts[1..]);
      assert (buffer + piece) + rest == buffer + (piece + rest);
      assert Accumulate(buffer, ts[0]) == buffer + piece;
      assert AccumulateEach(buffer, ts) == AccumulateEach(buffer + piece, ts[1..]);
      AccumulateAll(buffer + piece, ts[1..]);
    }
  }

  function InputsOf(msgs: seq<ServerMessage>): (ts: seq<Option<Transcription>>)
    ensures |ts| == |msgs| && forall k :: 0 <= k < |msgs| ==> ts[k] == msgs[k].inputTranscription
  {
    seq(|msgs|, k requires 0 <= k < |msgs| => msgs[k].inputTranscription)
  }

  function OutputsOf(msgs: seq<ServerMessage>): (ts: seq<Option<Transcription>>)
    ensures |ts| == |msgs| && forall k :: 0 <= k < |msgs| ==> ts[k] == msgs[k].outputTranscription
  {
    seq(|msgs|, k requires 0 <= k < |msgs| => msgs[k].outputTranscription)
  }

  /**
   * The entries a completed turn adds: the trimmed user text, then the
   * trimmed model text, each only when not empty.
   */
  function TurnEntries(input: string, output: string): (r: seq<TranscriptionEntry>)
    ensures |r| == (if Trim(input) != [] then 1 else 0) + (if Trim(output) != [] then 1 else 0)
    ensures forall k :: 0 <= k < |r| ==> |r[k].text| > 0
    ensures forall k :: 0 <= k < |r| && r[k].speaker == User ==> k == 0 && r[k].text == Trim(input)
    ensures forall k :: 0 <= k < |r| && r[k].speaker == Model ==> k == |r| - 1 && r[k].text == Trim(output)
  {
    EntriesOf(Trim(input), Trim(output))
  }

  /** The entries for the already trimmed texts of a turn. */
  function EntriesOf(user: string, model: string): (r: seq<TranscriptionEntry>)
    ensures |r| == (if user != [] then 1 else 0) + (if model != [] then 1 else 0)
    ensures forall k :: 0 <= k < |r| ==> |r[k].text| > 0
    ensures forall k :: 0 <= k < |r| && r[k].speaker == User ==> k == 0 && r[k].text == user
    ensures forall k :: 0 <= k < |r| && r[k].speaker == Model ==> k == |r| - 1 && r[k].text == model
  {
    (if user != [] then [TranscriptionEntry(User, user)] else []) +
    (if model != [] then [TranscriptionEntry(Model, model)] else [])
  }

  /** The turn of the example conversation: both speakers, user first. */
  lemma TwoSpeakerTurn()
    ensures TurnEntries("hello", "hi there") ==
            [TranscriptionEntry(User, "hello"), TranscriptionEntry(Model, "hi there")]
  {
    assert !IsWhitespace('h') && !IsWhitespace('o') && !IsWhitespace('e');
    TrimKeepsUnpadded("hello");
    TrimKeepsUnpadded("hi there");
  }

  /** A turn where the user said nothing audible yields the model's line alone. */
  lemma ModelOnlyTurn(output: string)
    requires Trim(output) != []
    ensures TurnEntries("", output) == [TranscriptionEntry(Model, Trim(output))]
  {
    assert Trim("") == [];
  }

  predicate NoDuplicates(s: seq<SourceId>) {
    forall i, j :: 0 <= i < j < |s| ==> s[i] != s[j]
  }

  /** `Set.prototype.delete` on a set kept in insertion order. */
  function Without(s: seq<SourceId>, x: SourceId): (r: seq<SourceId>)
    ensures forall y :: y in r <==> y in s && y != x
    ensures NoDuplicates(s) ==> NoDuplicates(r)
  {
    if s == [] then []
    else if s[0] == x then Without(s[1..], x)
    else
      var rest := Without(s[1..], x);
      assert NoDuplicates(s) ==> s[0] !in s[1..];
      [s[0]] + rest
  }

  /** The `stop()` calls `cleanup` makes on the playing sources, in the set's order. */
  function StopAll(sources: seq<SourceId>): seq<Release> {
    seq(|sources|, k requires 0 <= k < |sources| => StopSource(sources[k]))
  }

  /** An audio context slot holding a context that is not closed. */
  predicate IsOpen(context: Option<ContextState>) {
    context.Some? && context.value != Closed
  }

  function ReleaseIf(held: bool, r: Release): seq<Release> {
    if held then [r] else []
  }

  function End(s: Scheduled): real {
    s.start + s.duration
  }

  /**
   * Buffers started on one output context: each lasts a positive time, each
   * starts no earlier than the previous one ends, and the cursor is at or
   * past the end of the last one.
   */
  ghost predicate BackToBack(s: seq<Scheduled>, cursor: real) {
    (forall k :: 0 <= k < |s| ==> s[k].duration > 0.0) &&
    (forall k :: 0 < k < |s| ==> End(s[k - 1]) <= s[k].start) &&
    (s != [] ==> End(s[|s| - 1]) <= cursor)
  }

  /** No two scheduled buffers overlap, consecutive or not. */
  lemma {:induction false} BackToBackNeverOverlaps(s: seq<Scheduled>, cursor: real, j: nat, k: nat)
    requires BackToBack(s, cursor) && j < k < |s|
    ensures End(s[j]) <= s[k].start
    decreases k - j
  {
    if j + 1 < k {
      BackToBackNeverOverlaps(s, cursor, j, k - 1);
      assert s[k - 1].start <= End(s[k - 1]);
    }
  }

  /** The frames a payload decodes to on the mono 24 kHz playback path, if it decodes. */
  function PlaybackFrames(payload: AudioPayload): (frames: Option<nat>)
    ensures frames.Some? ==> payload.Audio? && frames.value > 0 && 2 * frames.value == |payload.binary|
    ensures payload.Audio? && |payload.binary| % 2 == 0 && |payload.binary| > 0 ==> frames.Some?
  {
    if payload.Audio? && |payload.binary| % 2 == 0 && |payload.binary| >= 2
    then Some(|payload.binary| / 2)
    else None
  }

  /**
   * The transcript state after a message, given the state before it:
   * fragments join their buffers, and a completed turn moves the buffers
   * into the transcript and empties them.
   */
  predicate TranscriptsTaken(transcription0: seq<TranscriptionEntry>, input0: string, output0: string,
                             msg: ServerMessage,
                             transcription: seq<TranscriptionEntry>, input: string, output: string)
  {
    var input1 := Accumulate(input0, msg.inputTranscription);
    var output1 := Accumulate(output0, msg.outputTranscription);
    if msg.turnComplete then
      transcription == transcription0 + TurnEntries(input1, output1) && input == "" && output == ""
    else
      transcription == transcription0 && input == input1 && output == output1
  }

  /**
   * The playback state after a message's audio part, given the state
   * before it: a payload is played only once an output context exists,
   * and otherwise nothing changes.
   */
  predicate AudioHandled(nextStartTime0: real, playing0: seq<SourceId>, scheduled0: seq<Scheduled>,
                         nextSource0: SourceId, audio: AudioPayload, now: real, hasOutput: bool,
                         nextStartTime: real, playing: seq<SourceId>, scheduled: seq<Scheduled>,
                         nextSource: SourceId)
  {
    if audio != NoAudio && hasOutput
    then AudioPlayed(nextStartTime0, playing0, scheduled0, nextSource0, audio, now,
                     nextStartTime, playing, scheduled, nextSource)
    else nextStartTime == nextStartTime0 && playing == playing0 &&
         scheduled == scheduled0 && nextSource == nextSource0
  }

  /**
   * The playback state after an audio payload, given the state before it:
   * the cursor snaps forward to `now`, and a payload that decodes is
   * started at the cursor as a new source, the cursor moving past it.
   */
  predicate AudioPlayed(nextStartTime0: real, playing0: seq<SourceId>, scheduled0: seq<Scheduled>,
                        nextSource0: SourceId, audio: AudioPayload, now: real,
                        nextStartTime: real, playing: seq<SourceId>, scheduled: seq<Scheduled>,
                        nextSource: SourceId)
  {
    var start := Max(nextStartTime0, now);
    match PlaybackFrames(audio)
    case None =>
      nextStartTime == start && playing == playing0 && scheduled == scheduled0 && nextSource == nextSource0
    case Some(frames) =>
      var duration := Duration(frames, PlaybackSampleRate);
      scheduled == scheduled0 + [Scheduled(nextSource0, start, duration)] &&
      nextStartTime == start + duration &&
      playing == playing0 + [nextSource0] && nextSource == nextSource0 + 1
  }

  /**
   * `decode` then `decodeAudioData` on the mono 24 kHz playback path: the
   * number of frames of the buffer made, or `None` where one of them throws.
   */
  method DecodePayload(audio: AudioPayload) returns (frames: Option<nat>)
    ensures frames == PlaybackFrames(audio)
  {
    if !audio.Audio? {
      return None;
    }
    var bytes := Decode(audio.binary);
    var decoded := DecodeAudioData(bytes[..], PlaybackSampleRate, 1);
    if decoded.Failure? {
      return None;
    }
    frames := Some(decoded.value.data.Length1);
  }

  class Conversation {
    var status: Status
    var errorMessage: ErrorMessage
    var transcription: seq<TranscriptionEntry>
    var inputTranscript: string
    var outputTranscript: string
    /** The playback cursor, in seconds of the output context's clock. */
    var nextStartTime: real
    /** The playing sources, in the order they were added. */
    var playing: seq<SourceId>
    /** The identity the next created source gets. */
    var nextSource: SourceId
    var session: bool
    var mediaStream: bool
    var inputContext: Option<ContextState>
    var outputContext: Option<ContextState>
    var processor: bool
    var streamSource: bool
    /** The buffers started on the current output context, in order. */
    var scheduled: seq<Scheduled>
    /** Every release call made so far, in order. */
    var released: seq<Release>

    /** Nothing is held: every slot is empty and no audio context is left running. */
    predicate NothingHeld()
      reads this`processor, this`streamSource, this`mediaStream, this`inputContext,
            this`outputContext, this`session
    {
      !session && !mediaStream && !processor && !streamSource &&
      !IsOpen(inputContext) && !IsOpen(outputContext)
    }

    /** What `cleanup` leaves: nothing held and no source playing. */
    predicate Quiescent()
      reads this`playing, this`processor, this`streamSource, this`mediaStream, this`inputContext,
            this`outputContext, this`session
    {
      NothingHeld() && playing == []
    }

    /** Every resource of a running session is held. */
    predicate AllHeld()
      reads this`processor, this`streamSource, this`mediaStream, this`inputContext,
            this`outputContext, this`session
    {
      session && mediaStream && processor && streamSource &&
      inputContext == Some(Running) && outputContext == Some(Running)
    }

    /** The playing sources are distinct sources already created. */
    ghost predicate SourcesValid()
      reads this`playing, this`nextSource
    {
      NoDuplicates(playing) && forall id :: id in playing ==> id < nextSource
    }

    /** The resources held match the status. */
    ghost predicate StatusValid()
      reads this`status, this`processor, this`streamSource, this`mediaStream,
            this`inputContext, this`outputContext, this`session
    {
      ((status == Idle || status == Error) ==> NothingHeld()) &&
      (status == Connecting ==>
         session && mediaStream && !processor && !streamSource &&
         !IsOpen(inputContext) && !IsOpen(outputContext)) &&
      (status == Active ==> AllHeld())
    }

    ghost predicate Valid()
      reads this`playing, this`nextSource, this`scheduled, this`nextStartTime, this`status,
            this`processor, this`streamSource, this`mediaStream, this`inputContext,
            this`outputContext, this`session
    {
      SourcesValid() && BackToBack(scheduled, nextStartTime) && StatusValid()
    }

    /** The release calls `cleanup` makes for the resource slots, in its order. */
    function SlotReleases(): seq<Release>
      reads this`processor, this`streamSource, this`mediaStream, this`inputContext,
            this`outputContext, this`session
    {
      ReleaseIf(processor, DisconnectProcessor) +
      ReleaseIf(streamSource, DisconnectStreamSource) +
      ReleaseIf(mediaStream, StopTracks) +
      ReleaseIf(IsOpen(inputContext), CloseInputContext) +
      ReleaseIf(IsOpen(outputContext), CloseOutputContext) +
      ReleaseIf(session, CloseSession)
    }

    constructor ()
      ensures Valid() && status == Idle && errorMessage == NoMessage && transcription == []
      ensures inputTranscript == "" && outputTranscript == "" && nextStartTime == 0.0
      ensures Quiescent() && inputContext == None && outputContext == None
      ensures scheduled == [] && released == [] && nextSource == 0
    {
      status := Idle;
      errorMessage := NoMessage;
      transcription := [];
      inputTranscript := "";
      outputTranscript := "";
      nextStartTime := 0.0;
      playing := [];
      nextSource := 0;
      session := false;
      mediaStream := false;
      inputContext := None;
      outputContext := None;
      processor := false;
      streamSource := false;
      scheduled := [];
      released := [];
    }

    /**
     * `cleanup`: stops every playing source and empties the set, disconnects
     * the nodes, stops the microphone tracks, closes each audio context not
     * already closed and closes the session, emptying every slot but the two
     * context slots.
     */
    method Cleanup()
      modifies this`playing, this`released, this`processor, this`streamSource, this`mediaStream,
               this`inputContext, this`outputContext, this`session
      ensures released == old(released) + StopAll(old(playing)) + old(SlotReleases())
      ensures Quiescent()
      ensures inputContext.Some? == old(inputContext).Some? && outputContext.Some? == old(outputContext).Some?
      ensures old(Quiescent()) ==>
                released == old(released) &&
                inputContext == old(inputContext) && outputContext == old(outputContext)
    {
      StopPlayingSources();
      ReleaseSlots();
    }

    /** The first step of `cleanup`: every playing source is stopped, in order, and the set emptied. */
    method StopPlayingSources()
      modifies this`playing, this`released
      ensures released == old(released) + StopAll(old(playing)) && playing == []
      ensures old(playing) == [] ==> released == old(released)
    {
      var sources, log := playing, released;
      for i := 0 to |sources|
        invariant log == released + StopAll(sources[..i])
      {
        assert sources[..i + 1] == sources[..i] + [sources[i]];
        log := log + [StopSource(sources[i])];
      }
      assert sources[..|sources|] == sources;
      released := log;
      playing := [];
    }

    /** The rest of `cleanup`: each held resource is given back and its slot emptied. */
    method ReleaseSlots()
      modifies this`processor, this`streamSource, this`mediaStream, this`inputContext,
               this`outputContext, this`session, this`released
      ensures released == old(released) + old(SlotReleases())
      ensures NothingHeld()
      ensures old(NothingHeld()) ==>
                released == old(released) &&
                inputContext == old(inputContext) && outputContext == old(outputContext)
      ensures inputContext.Some? == old(inputContext).Some? && outputContext.Some? == old(outputContext).Some?
    {
      // Each step gives the resource back only when its slot holds one.
      var log := ReleaseIf(processor, DisconnectProcessor);
      processor := false;
      log := log + ReleaseIf(streamSource, DisconnectStreamSource);
      streamSource := false;
      log := log + ReleaseIf(mediaStream, StopTracks);
      mediaStream := false;
      log := log + ReleaseIf(IsOpen(inputContext), CloseInputContext);
      inputContext := if IsOpen(inputContext) then Some(Closed) else inputContext;
      log := log + ReleaseIf(IsOpen(outputContext), CloseOutputContext);
      outputContext := if IsOpen(outputContext) then Some(Closed) else outputContext;
      log := log + ReleaseIf(session, CloseSession);
      session := false;
      assert old(NothingHeld()) ==> log == [];
      released := released + log;
    }

    /**
     * `startSession`, from the moment the button is pressed until the
     * microphone request and the call that opens the session have finished.
     */
    method StartSession(outcome: StartOutcome)
      requires Valid() && (status == Idle || status == Error)
      modifies this`playing, this`released, this`processor, this`streamSource, this`mediaStream,
               this`inputContext, this`outputContext, this`session
      modifies this`status, this`errorMessage, this`transcription, this`inputTranscript, this`outputTranscript
      ensures Valid()
      ensures transcription == [] && inputTranscript == "" && outputTranscript == ""
      ensures outcome == Connected ==>
                status == Connecting && errorMessage == NoMessage &&
                released == old(released) && playing == old(playing)
      ensures outcome != Connected ==>
                status == Error && errorMessage == PermissionMessage && Quiescent() &&
                released == old(released) + StopAll(old(playing)) +
                            ReleaseIf(outcome == ConnectFailed, StopTracks)
      ensures inputContext.Some? == old(inputContext).Some? && outputContext.Some? == old(outputContext).Some?
    {
      BeginAttempt();
      if outcome == Connected {
        Connect();
      } else {
        // The catch block: the microphone was refused, or it was granted and the session failed.
        FailAttempt(outcome == ConnectFailed);
      }
    }

    /** The first lines of `startSession`: the status turns to connecting and the transcript is cleared. */
    method BeginAttempt()
      modifies this`status, this`errorMessage, this`transcription, this`inputTranscript, this`outputTranscript
      ensures status == Connecting && errorMessage == NoMessage && transcription == []
      ensures inputTranscript == "" && outputTranscript == ""
    {
      status := Connecting;
      errorMessage := NoMessage;
      transcription := [];
      inputTranscript := "";
      outputTranscript := "";
    }

    /** The microphone stream is obtained and the session opened. */
    method Connect()
      requires SourcesValid() && BackToBack(scheduled, nextStartTime) && NothingHeld() && status == Connecting
      modifies this`mediaStream, this`session
      ensures Valid() && mediaStream && session
    {
      mediaStream := true;
      session := true;
    }

    /**
     * The catch block of `startSession`: the permission message is shown and
     * everything is released, the microphone tracks among them when the
     * stream had been obtained.
     */
    method FailAttempt(microphone: bool)
      requires SourcesValid() && BackToBack(scheduled, nextStartTime) && NothingHeld()
      modifies this`playing, this`released, this`processor, this`streamSource, this`mediaStream,
               this`inputContext, this`outputContext, this`session, this`status, this`errorMessage
      ensures Valid() && status == Error && errorMessage == PermissionMessage && Quiescent()
      ensures released == old(released) + StopAll(old(playing)) + ReleaseIf(microphone, StopTracks)
      ensures inputContext.Some? == old(inputContext).Some? && outputContext.Some? == old(outputContext).Some?
    {
      mediaStream := microphone;
      assert SlotReleases() == ReleaseIf(microphone, StopTracks);
      errorMessage := PermissionMessage;
      status := Error;
      Cleanup();
    }

    /** The session's `onopen`: creates both contexts, resets the cursor and wires the capture nodes. */
    method OnOpen()
      requires Valid() && status == Connecting
      modifies this`inputContext, this`outputContext, this`nextStartTime, this`scheduled,
               this`streamSource, this`processor, this`status
      ensures Valid() && status == Active && AllHeld()
      ensures nextStartTime == 0.0 && scheduled == []
      ensures playing == old(playing) && nextSource == old(nextSource) && released == old(released)
      ensures transcription == old(transcription) && errorMessage == old(errorMessage)
      ensures inputTranscript == old(inputTranscript) && outputTranscript == old(outputTranscript)
    {
      OpenContexts();
      WireCapture();
      Activate();
    }

    /** Both audio contexts are created running and the playback cursor restarts at 0. */
    method OpenContexts()
      requires SourcesValid()
      modifies this`inputContext, this`outputContext, this`nextStartTime, this`scheduled
      ensures SourcesValid() && BackToBack(scheduled, nextStartTime)
      ensures inputContext == Some(Running) && outputContext == Some(Running)
      ensures nextStartTime == 0.0 && scheduled == []
    {
      inputContext, outputContext := Some(Running), Some(Running);
      nextStartTime, scheduled := 0.0, [];
    }

    /** The microphone stream is wired through the script processor. */
    method WireCapture()
      modifies this`streamSource, this`processor
      ensures streamSource && processor
    {
      streamSource, processor := true, true;
    }

    /** Once every resource is held, the status turns to active. */
    method Activate()
      requires SourcesValid() && BackToBack(scheduled, nextStartTime) && AllHeld()
      modifies this`status
      ensures Valid() && status == Active && AllHeld()
    {
      status := Active;
    }

    /**
     * The session's `onmessage`, run to completion: fragments join their
     * buffers, a completed turn moves the buffers into the transcript, and
     * audio is scheduled at the cursor, snapped forward to `now`, the output
     * context's current time.
     */
    method OnMessage(msg: ServerMessage, now: real)
      requires Valid()
      modifies this`inputTranscript, this`outputTranscript, this`transcription
      modifies this`nextStartTime, this`nextSource, this`playing, this`scheduled
      ensures Valid()
      ensures TranscriptsTaken(old(transcription), old(inputTranscript), old(outputTranscript), msg,
                               transcription, inputTranscript, outputTranscript)
      ensures AudioHandled(old(nextStartTime), old(playing), old(scheduled), old(nextSource), msg.audio, now, outputContext.Some?,
                           nextStartTime, playing, scheduled, nextSource)
      ensures nextStartTime >= old(nextStartTime)
    {
      TakeTranscripts(msg);
      ghost var t1, i1, o1 := transcription, inputTranscript, outputTranscript;
      assert TranscriptsTaken(old(transcription), old(inputTranscript), old(outputTranscript), msg, t1, i1, o1);
      HandleAudio(msg.audio, now);
      assert transcription == t1 && inputTranscript == i1 && outputTranscript == o1;
    }

    /** The transcription half of `onmessage`. */
    method TakeTranscripts(msg: ServerMessage)
      requires Valid()
      modifies this`inputTranscript, this`outputTranscript, this`transcription
      ensures Valid()
      ensures TranscriptsTaken(old(transcription), old(inputTranscript), old(outputTranscript), msg,
                               transcription, inputTranscript, outputTranscript)
    {
      var output := Accumulate(outputTranscript, msg.outputTranscription);
      var input := Accumulate(inputTranscript, msg.inputTranscription);
      if msg.turnComplete {
        var entries := TurnEntries(input, output);
        SetTranscripts(transcription + entries, "", "");
      } else {
        SetTranscripts(transcription, input, output);
      }
    }

    /** The three transcript fields are given new values; nothing else changes. */
    method SetTranscripts(t: seq<TranscriptionEntry>, input: string, output: string)
      requires Valid()
      modifies this`inputTranscript, this`outputTranscript, this`transcription
      ensures Valid()
      ensures transcription == t && inputTranscript == input && outputTranscript == output
    {
      transcription, inputTranscript, outputTranscript := t, input, output;
    }

    /** The audio half of `onmessage`: a payload is played once an output context exists. */
    method HandleAudio(audio: AudioPayload, now: real)
      requires Valid()
      modifies this`nextStartTime, this`nextSource, this`playing, this`scheduled
      ensures Valid()
      ensures AudioHandled(old(nextStartTime), old(playing), old(scheduled), old(nextSource), audio, now, outputContext.Some?,
                           nextStartTime, playing, scheduled, nextSource)
      ensures nextStartTime >= old(nextStartTime)
    {
      if audio != NoAudio && outputContext.Some? {
        PlayAudio(audio, now);
      }
    }

    /**
     * Playing one payload, once an output context exists: the
     * cursor snaps forward to `now`, and a payload that decodes is started
     * at the cursor, which then moves past it.
     */
    method PlayAudio(audio: AudioPayload, now: real)
      requires audio != NoAudio
      requires SourcesValid() && BackToBack(scheduled, nextStartTime)
      modifies this`nextStartTime, this`nextSource, this`playing, this`scheduled
      ensures SourcesValid() && BackToBack(scheduled, nextStartTime)
      ensures AudioPlayed(old(nextStartTime), old(playing), old(scheduled), old(nextSource), audio, now,
                          nextStartTime, playing, scheduled, nextSource)
      ensures nextStartTime >= old(nextStartTime)
    {
      nextStartTime := Max(nextStartTime, now);
      var frames := DecodePayload(audio);
      if frames.Some? {
        StartSource(Duration(frames.value, PlaybackSampleRate));
      }
    }

    /**
     * A decoded buffer lasting `duration` seconds is started at the cursor
     * as a new source, which joins the playing set; the cursor moves past it.
     */
    method StartSource(duration: real)
      requires duration > 0.0
      requires SourcesValid() && BackToBack(scheduled, nextStartTime)
      modifies this`nextStartTime, this`nextSource, this`playing, this`scheduled
      ensures SourcesValid() && BackToBack(scheduled, nextStartTime)
      ensures scheduled == old(scheduled) + [Scheduled(old(nextSource), old(nextStartTime), duration)]
      ensures playing == old(playing) + [old(nextSource)] && nextSource == old(nextSource) + 1
      ensures nextStartTime == old(nextStartTime) + duration
    {
      var source := nextSource;
      assert source !in playing;
      nextSource := nextSource + 1;
      scheduled := scheduled + [Scheduled(source, nextStartTime, duration)];
      nextStartTime := nextStartTime + duration;
      playing := playing + [source];
    }

    /** A source's `onended`: it leaves the playing set. */
    method OnSourceEnded(source: SourceId)
      requires Valid()
      modifies this`playing
      ensures Valid()
      ensures playing == Without(old(playing), source)
    {
      playing := Without(playing, source);
    }

    /** The session's `onclose`. */
    method OnClose()
      requires Valid()
      modifies this`playing, this`released, this`processor, this`streamSource, this`mediaStream,
               this`inputContext, this`outputContext, this`session, this`status
      ensures Valid() && status == Idle && Quiescent()
      ensures released == old(released) + StopAll(old(playing)) + old(SlotReleases())
      ensures inputContext.Some? == old(inputContext).Some? && outputContext.Some? == old(outputContext).Some?
    {
      StopSession();
    }

    /** The session's `onerror`. */
    method OnError()
      requires Valid()
      modifies this`playing, this`released, this`processor, this`streamSource, this`mediaStream,
               this`inputContext, this`outputContext, this`session, this`status, this`errorMessage
      ensures Valid() && status == Error && errorMessage == SessionMessage && Quiescent()
      ensures released == old(released) + StopAll(old(playing)) + old(SlotReleases())
      ensures inputContext.Some? == old(inputContext).Some? && outputContext.Some? == old(outputContext).Some?
    {
      Cleanup();
      ShowError(SessionMessage);
    }

    /** `stopSession`. */
    method StopSession()
      requires Valid()
      modifies this`playing, this`released, this`processor, this`streamSource, this`mediaStream,
               this`inputContext, this`outputContext, this`session, this`status
      ensures Valid() && status == Idle && Quiescent()
      ensures released == old(released) + StopAll(old(playing)) + old(SlotReleases())
      ensures inputContext.Some? == old(inputContext).Some? && outputContext.Some? == old(outputContext).Some?
    {
      Cleanup();
      BecomeIdle();
    }

    /** Once nothing is held, the status turns to error with `message` shown. */
    method ShowError(message: ErrorMessage)
      requires SourcesValid() && BackToBack(scheduled, nextStartTime) && Quiescent()
      modifies this`status, this`errorMessage
      ensures Valid() && Quiescent() && status == Error && errorMessage == message
    {
      errorMessage, status := message, Error;
    }

    /** Once nothing is held, the status returns to idle. */
    method BecomeIdle()
      requires SourcesValid() && BackToBack(scheduled, nextStartTime) && Quiescent()
      modifies this`status
      ensures Valid() && Quiescent() && status == Idle
    {
      status := Idle;
    }

    /** The microphone button: stop while active, ignored while connecting, start otherwise. */
    method PressButton(outcome: StartOutcome)
      requires Valid()
      modifies this`playing, this`released, this`processor, this`streamSource, this`mediaStream,
               this`inputContext, this`outputContext, this`session
      modifies this`status, this`errorMessage, this`transcription, this`inputTranscript, this`outputTranscript
      ensures Valid()
      ensures old(status) == Active ==> status == Idle && Quiescent()
      ensures old(status) == Connecting ==> unchanged(this)
      ensures old(status) == Active ==>
                released == old(released) + StopAll(old(playing)) + old(SlotReleases()) &&
                inputContext.Some? == old(inputContext).Some? && outputContext.Some? == old(outputContext).Some?
      ensures old(status) == Active ==>
                transcription == old(transcription) && inputTranscript == old(inputTranscript) &&
                outputTranscript == old(outputTranscript) && errorMessage == old(errorMessage)
      ensures old(status) == Idle || old(status) == Error ==>
                status == (if outcome == Connected then Connecting else Error) &&
                transcription == [] && inputTranscript == "" && outputTranscript == ""
      ensures (old(status) == Idle || old(status) == Error) && outcome == Connected ==>
                errorMessage == NoMessage && released == old(released) && playing == old(playing)
      ensures (old(status) == Idle || old(status) == Error) && outcome != Connected ==>
                errorMessage == PermissionMessage && Quiescent() &&
                released == old(released) + StopAll(old(playing)) + ReleaseIf(outcome == ConnectFailed, StopTracks)
    {
      if status == Active {
        StopSession();
      } else if status != Connecting {
        StartSession(outcome);
      }
    }

    /** The effect cleanup when the component is removed. */
    method Unmount()
      modifies this`playing, this`released, this`processor, this`streamSource, this`mediaStream,
               this`inputContext, this`outputContext, this`session
      ensures Quiescent() && released == old(released) + StopAll(old(playing)) + old(SlotReleases())
    {
      Cleanup();
    }
  }

  /** `cleanup` stops each playing source once, in the set's order, and nothing else. */
  lemma StopAllStopsEach(sources: seq<SourceId>)
    ensures |StopAll(sources)| == |sources|
    ensures forall k :: 0 <= k < |sources| ==> StopAll(sources)[k] == StopSource(sources[k])
    ensures forall x :: x in StopAll(sources) <==> x.StopSource? && x.source in sources
  {
    var r := StopAll(sources);
    forall x: Release | x.StopSource? && x.source in sources ensures x in r {
      var k :| 0 <= k < |sources| && sources[k] == x.source;
      assert r[k] == x;
    }
  }

  function Count(held: bool): nat {
    if held then 1 else 0
  }

  /** `x` is the call that gives back a resource `c` holds. */
  predicate Releases(c: Conversation, x: Release)
    reads c
  {
    (x == DisconnectProcessor && c.processor) || (x == DisconnectStreamSource && c.streamSource) ||
    (x == StopTracks && c.mediaStream) || (x == CloseInputContext && IsOpen(c.inputContext)) ||
    (x == CloseOutputContext && IsOpen(c.outputContext)) || (x == CloseSession && c.session)
  }

  /**
   * The slot releases of `cleanup`: one call per held resource and none for
   * an empty slot, the processor disconnected first and the session closed
   * last.
   */
  lemma SlotReleasesFollowHeld(c: Conversation)
    ensures var r := c.SlotReleases();
            |r| == Count(c.processor) + Count(c.streamSource) + Count(c.mediaStream) +
                   Count(IsOpen(c.inputContext)) + Count(IsOpen(c.outputContext)) + Count(c.session) &&
            (r == [] <==> c.NothingHeld()) &&
            (forall x :: x in r <==> Releases(c, x))
    ensures c.processor ==> c.SlotReleases()[0] == DisconnectProcessor
    ensures c.session ==> c.SlotReleases()[|c.SlotReleases()| - 1] == CloseSession
  {
    SlotReleaseMembers(c);
  }

  lemma SlotReleaseMembers(c: Conversation)
    ensures forall x :: x in c.SlotReleases() <==> Releases(c, x)
  {
    var p2 := ReleaseIf(c.processor, DisconnectProcessor) + ReleaseIf(c.streamSource, DisconnectStreamSource);
    var p4 := p2 + ReleaseIf(c.mediaStream, StopTracks) + ReleaseIf(IsOpen(c.inputContext), CloseInputContext);
    var r := p4 + ReleaseIf(IsOpen(c.outputContext), CloseOutputContext) + ReleaseIf(c.session, CloseSession);
    assert c.SlotReleases() == r;
    assert forall x :: x in p2 <==>
             (x == DisconnectProcessor && c.processor) || (x == DisconnectStreamSource && c.streamSource);
    assert forall x :: x in p4 <==>
             (x == DisconnectProcessor && c.processor) || (x == DisconnectStreamSource && c.streamSource) ||
             (x == StopTracks && c.mediaStream) || (x == CloseInputContext && IsOpen(c.inputContext));
  }

  /** Releasing an active session gives back every resource it holds. */
  lemma ActiveReleaseIsTotal(c: Conversation)
    requires c.Valid() && c.status == Active
    ensures var r := c.SlotReleases();
            DisconnectProcessor in r && DisconnectStreamSource in r && StopTracks in r &&
            CloseInputContext in r && CloseOutputContext in r && CloseSession in r
  {
  }

  /**
   * Messages that do not end a turn, handled one after the other: each
   * buffer ends up as it was followed by that side's fragments in arrival
   * order, and the transcript is untouched.
   */
  method ReceiveFragments(c: Conversation, msgs: seq<ServerMessage>)
    requires c.Valid() && forall k :: 0 <= k < |msgs| ==> !msgs[k].turnComplete
    modifies c`inputTranscript, c`outputTranscript, c`transcription
    ensures c.Valid()
    ensures c.inputTranscript == old(c.inputTranscript) + Fragments(InputsOf(msgs))
    ensures c.outputTranscript == old(c.outputTranscript) + Fragments(OutputsOf(msgs))
    ensures c.transcription == old(c.transcription)
  {
    var ins, outs := InputsOf(msgs), OutputsOf(msgs);
    for i := 0 to |msgs|
      invariant AccumulateEach(c.inputTranscript, ins[i..]) == AccumulateEach(old(c.inputTranscript), ins)
      invariant AccumulateEach(c.outputTranscript, outs[i..]) == AccumulateEach(old(c.outputTranscript), outs)
      invariant c.transcription == old(c.transcription) && c.Valid()
    {
      c.TakeTranscripts(msgs[i]);
      assert ins[i..][1..] == ins[i + 1..] && outs[i..][1..] == outs[i + 1..];
    }
    AccumulateAll(old(c.inputTranscript), ins);
    AccumulateAll(old(c.outputTranscript), outs);
  }

  /** Stopping twice: the second stop releases nothing and changes nothing. */
  method StopTwice(c: Conversation)
    requires c.Valid() && c.status == Active
    modifies c
    ensures c.Quiescent() && c.status == Idle
    ensures c.released == old(c.released) + StopAll(old(c.playing)) + old(c.SlotReleases())
  {
    c.StopSession();
    var once := c.released;
    c.StopSession();
    assert c.released == once;
  }

  /**
   * Fragments arrive over several messages, the last one together with the
   * end of the turn; the turn yields the user's line, then the model's.
   */
  method HelloScenario() returns (transcript: seq<TranscriptionEntry>)
    ensures transcript == [TranscriptionEntry(User, "hello"), TranscriptionEntry(Model, "hi there")]
  {
    var hel, lo, hi, there := Some(Transcription(Some("hel"))), Some(Transcription(Some("lo"))),
                              Some(Transcription(Some("hi "))), Some(Transcription(Some("there")));
    var c := new Conversation();
    c.TakeTranscripts(ServerMessage(None, hel, false, NoAudio));
    assert Accumulate("", hel) == "hel";
    assert c.inputTranscript == "hel" && c.outputTranscript == "" && c.transcription == [];
    c.TakeTranscripts(ServerMessage(hi, None, false, NoAudio));
    assert Accumulate("", hi) == "hi ";
    assert c.inputTranscript == "hel" && c.outputTranscript == "hi " && c.transcription == [];
    assert Accumulate("hel", lo) == "hello" && Accumulate("hi ", there) == "hi there";
    TwoSpeakerTurn();
    c.TakeTranscripts(ServerMessage(there, lo, true, NoAudio));
    transcript := c.transcription;
  }

  /** A session is started, the connection succeeds and the session opens. */
  method OpenScenario() returns (c: Conversation)
    ensures fresh(c) && c.Valid() && c.status == Active && c.AllHeld()
    ensures c.playing == [] && c.nextSource == 0 && c.nextStartTime == 0.0 && c.scheduled == []
    ensures c.transcription == [] && c.released == []
  {
    c := new Conversation();
    c.StartSession(Connected);
    c.OnOpen();
  }

  /** Two buffers arrive on an open session: they queue back to back as sources 0 and 1. */
  method TwoBuffersScenario() returns (c: Conversation)
    ensures fresh(c) && c.Valid() && c.status == Active && c.playing == [0, 1]
    ensures |c.scheduled| == 2 && c.scheduled[0].start == 0.0 && c.scheduled[1].start == End(c.scheduled[0])
  {
    c := OpenScenario();
    var audio := Audio([0, 0, 0, 0]);
    assert PlaybackFrames(audio) == Some(2);
    var message := ServerMessage(None, None, false, audio);
    c.OnMessage(message, 0.0);
    assert c.playing == [0] && c.nextSource == 1;
    c.OnMessage(message, 0.0);
  }

  /** Two buffers playing, then a stop: both are stopped, in order, and none is left playing. */
  method StopWhilePlayingScenario() returns (stops: seq<Release>, left: seq<SourceId>)
    ensures stops == [StopSource(0), StopSource(1)] && left == []
  {
    var c := TwoBuffersScenario();
    var before := c.released;
    assert StopAll(c.playing) == [StopSource(0), StopSource(1)];
    c.StopSession();
    stops := c.released[|before|..|before| + 2];
    left := c.playing;
  }
}
