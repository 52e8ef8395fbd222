/** The live call of RoleplayScreen.tsx: the status machine, the transcript
    accumulators, the playback schedule of the simulated lead's audio, the
    countdown and the end of the call.

    The live connection's callbacks, the browser's audio callbacks, the
    countdown interval and the user's button are one stream of `Event`s,
    handled one at a time. Audio decoding is abstract: an audio part arrives
    with its decoded bytes, the duration of its decoded buffer and the output
    clock's current time. */
module Roleplay {
  import opened Util
  import opened Types

  // ---------------------------------------------------------------------------
  // The countdown display

  /** JavaScript's `%`, whose result takes the sign of the dividend. */
  function JsRem(a: int, b: int): (r: int)
    requires b > 0
    ensures a >= 0 ==> 0 <= r < b && r == a % b
    ensures a < 0 ==> -b < r <= 0
  {
    if a >= 0 then a % b else -((-a) % b)
  }

  /** `Timer`: `mm:ss`, minutes as `Math.floor(timeLeft / 60)` and seconds as `timeLeft % 60`. */
  function TimerText(timeLeft: int): string {
    PadStart2(IntText(timeLeft / 60)) + ":" + PadStart2(IntText(JsRem(timeLeft, 60)))
  }

  /** The display turns critical in the last minute. */
  predicate IsCritical(timeLeft: int) {
    timeLeft < 60
  }

  /** A number below 100 padded to two digits reads back as itself. */
  lemma PadTwoDigits(n: nat)
    requires n < 100
    ensures |PadStart2(NatText(n))| == 2
    ensures IsDigit(PadStart2(NatText(n))[0]) && IsDigit(PadStart2(NatText(n))[1])
    ensures DigitsValue(PadStart2(NatText(n))) == n
  {
    var p := PadStart2(NatText(n));
    if n < 10 {
      assert p == ['0', DigitChar(n)];
    } else {
      assert NatText(n / 10) == [DigitChar(n / 10)];
      assert p == [DigitChar(n / 10), DigitChar(n % 10)];
    }
    assert p[..1][..0] == [];
    assert DigitsValue(p[..1]) == p[0] as int - '0' as int;
    assert DigitsValue(p) == DigitsValue(p[..1]) * 10 + (p[1] as int - '0' as int);
  }

  /** For up to 99:59 the display is five characters `mm:ss`, and reading the two
      fields back gives the minutes and seconds of `timeLeft`. */
  lemma TimerTextRoundTrip(timeLeft: int)
    requires 0 <= timeLeft < 6000
    ensures |TimerText(timeLeft)| == 5 && TimerText(timeLeft)[2] == ':'
    ensures forall k :: 0 <= k < 5 && k != 2 ==> IsDigit(TimerText(timeLeft)[k])
    ensures DigitsValue(TimerText(timeLeft)[..2]) == timeLeft / 60
    ensures DigitsValue(TimerText(timeLeft)[3..]) == timeLeft % 60
    ensures DigitsValue(TimerText(timeLeft)[..2]) * 60 + DigitsValue(TimerText(timeLeft)[3..]) == timeLeft
  {
    var m := timeLeft / 60;
    var sec := JsRem(timeLeft, 60);
    PadTwoDigits(m);
    PadTwoDigits(sec);
    var a := PadStart2(NatText(m));
    var b := PadStart2(NatText(sec));
    assert TimerText(timeLeft) == a + ":" + b;
    assert (a + ":" + b)[..2] == a;
    assert (a + ":" + b)[3..] == b;
  }

  // ---------------------------------------------------------------------------
  // `String.prototype.trim`

  /** The characters ECMAScript's `trim` removes: WhiteSpace and LineTerminator. */
  predicate IsJsWhitespace(c: char) {
    c == '\t' || c == '\n' || c == '\U{0B}' || c == '\U{0C}' || c == '\r' || c == ' '
    || c == '\U{A0}' || c == '\U{1680}' || ('\U{2000}' <= c <= '\U{200A}')
    || c == '\U{2028}' || c == '\U{2029}' || c == '\U{202F}' || c == '\U{205F}'
    || c == '\U{3000}' || c == '\U{FEFF}'
  }

  /** `s` without its leading whitespace. */
  function TrimStart(s: string): (r: string)
    ensures |r| <= |s| && r == s[|s| - |r|..]
  {
    if s != [] && IsJsWhitespace(s[0]) then TrimStart(s[1..]) else s
  }

  /** `TrimStart` drops only whitespace, and stops at the first other character. */
  lemma {:induction false} TrimStartSpec(s: string)
    ensures forall k :: 0 <= k < |s| - |TrimStart(s)| ==> IsJsWhitespace(s[k])
    ensures TrimStart(s) != [] ==> !IsJsWhitespace(TrimStart(s)[0])
  {
    if s != [] && IsJsWhitespace(s[0]) {
      var t := s[1..];
      TrimStartSpec(t);
      assert TrimStart(s) == TrimStart(t);
      forall k | 0 <= k < |s| - |TrimStart(s)|
        ensures IsJsWhitespace(s[k])
      {
        if k > 0 {
          assert s[k] == t[k - 1];
        }
      }
    }
  }

  /** `s` without its trailing whitespace. */
  function TrimEnd(s: string): (r: string)
    ensures |r| <= |s| && r == s[..|r|]
  {
    if s != [] && IsJsWhitespace(s[|s| - 1]) then TrimEnd(s[..|s| - 1]) else s
  }

  /** `TrimEnd` drops only whitespace, and stops at the last other character. */
  lemma {:induction false} TrimEndSpec(s: string)
    ensures forall k :: |TrimEnd(s)| <= k < |s| ==> IsJsWhitespace(s[k])
    ensures TrimEnd(s) != [] ==> !IsJsWhitespace(TrimEnd(s)[|TrimEnd(s)| - 1])
  {
    if s != [] && IsJsWhitespace(s[|s| - 1]) {
      var t := s[..|s| - 1];
      TrimEndSpec(t);
      assert TrimEnd(s) == TrimEnd(t);
      forall k | |TrimEnd(s)| <= k < |s|
        ensures IsJsWhitespace(s[k])
      {
        if k < |s| - 1 {
          assert s[k] == t[k];
        }
      }
    }
  }

  function Trim(s: string): string {
    TrimEnd(TrimStart(s))
  }

  /** `s` holds `t` at offset `i`. */
  predicate SliceAt(s: string, t: string, i: nat) {
    i + |t| <= |s| && s[i..i + |t|] == t
  }

  /** Neither end of `s` is whitespace. */
  predicate IsTrimmed(s: string) {
    s != [] ==> !IsJsWhitespace(s[0]) && !IsJsWhitespace(s[|s| - 1])
  }

  /** `trim` keeps a contiguous part of its input whose ends are not whitespace, drops
      only whitespace around it, and is empty exactly for an all-whitespace input. */
  lemma TrimSpec(s: string)
    ensures IsTrimmed(Trim(s))
    ensures exists i: nat :: SliceAt(s, Trim(s), i)
    ensures Trim(s) == "" <==> forall k :: 0 <= k < |s| ==> IsJsWhitespace(s[k])
  {
    TrimEnds(s);
    TrimSlice(s);
    TrimEmpty(s);
  }

  /** Neither end of the result is whitespace. */
  lemma TrimEnds(s: string)
    ensures IsTrimmed(Trim(s))
  {
    var a := TrimStart(s);
    var r := TrimEnd(a);
    TrimStartSpec(s);
    TrimEndSpec(a);
    assert r != [] ==> r[0] == a[0];
  }

  /** The result is the slice of the input after the leading whitespace. */
  lemma TrimSlice(s: string)
    ensures SliceAt(s, Trim(s), |s| - |TrimStart(s)|)
  {
    var a := TrimStart(s);
    var r := TrimEnd(a);
    var i := |s| - |a|;
    assert a == s[i..] && r == a[..|r|];
    assert s[i..][..|r|] == s[i..i + |r|];
  }

  /** `trim` gives "" exactly for an all-whitespace input. */
  lemma TrimEmpty(s: string)
    ensures Trim(s) == "" <==> forall k :: 0 <= k < |s| ==> IsJsWhitespace(s[k])
  {
    var a := TrimStart(s);
    var i := |s| - |a|;
    TrimStartSpec(s);
    TrimEndSpec(a);
    assert forall k :: i <= k < |s| ==> s[k] == a[k - i];
    assert a != [] ==> a[0] == s[i];
  }

  /** Trimming twice changes nothing more. */
  lemma TrimIdempotent(s: string)
    ensures Trim(Trim(s)) == Trim(s)
  {
    TrimSpec(s);
    var t := Trim(s);
    if t != [] {
      assert TrimStart(t) == t;
      assert TrimEnd(t) == t;
    }
  }

  // ---------------------------------------------------------------------------
  // The combined AI audio

  /** The chunks laid end to end. */
  function Flatten(chunks: seq<Bytes>): Bytes {
    if chunks == [] then [] else Flatten(chunks[..|chunks| - 1]) + chunks[|chunks| - 1]
  }

  /** The sum of the chunk lengths, `totalLength`. */
  function TotalLength(chunks: seq<Bytes>): nat {
    if chunks == [] then 0 else TotalLength(chunks[..|chunks| - 1]) + |chunks[|chunks| - 1]|
  }

  /** Where chunk `i` begins in the combined buffer. */
  function Offset(chunks: seq<Bytes>, i: nat): nat
    requires i <= |chunks|
  {
    TotalLength(chunks[..i])
  }

  /** The combined buffer is as long as all chunks together, and chunk `i` sits at its
      offset, unchanged: the buffer is the chunks in arrival order. */
  lemma {:induction false} FlattenLayout(chunks: seq<Bytes>, i: nat)
    requires i < |chunks|
    ensures |Flatten(chunks)| == TotalLength(chunks)
    ensures Offset(chunks, i) + |chunks[i]| <= |Flatten(chunks)|
    ensures Flatten(chunks)[Offset(chunks, i)..Offset(chunks, i) + |chunks[i]|] == chunks[i]
  {
    var n := |chunks|;
    var init := chunks[..n - 1];
    FlattenLength(init);
    assert init[..i] == chunks[..i];
    assert Flatten(chunks) == Flatten(init) + chunks[n - 1];
    if i == n - 1 {
      assert init == chunks[..i];
    } else {
      FlattenLayout(init, i);
      assert init[i] == chunks[i];
      SliceOfAppend(Flatten(init), chunks[n - 1], Offset(init, i), Offset(init, i) + |chunks[i]|);
    }
  }

  /** A slice lying within the first part of a concatenation. */
  lemma SliceOfAppend(a: Bytes, b: Bytes, lo: nat, hi: nat)
    requires lo <= hi <= |a|
    ensures (a + b)[lo..hi] == a[lo..hi]
  {
    assert forall k :: lo <= k < hi ==> (a + b)[k] == a[k];
  }

  lemma {:induction false} FlattenLength(chunks: seq<Bytes>)
    ensures |Flatten(chunks)| == TotalLength(chunks)
  {
    if chunks != [] {
      FlattenLength(chunks[..|chunks| - 1]);
    }
  }

  /** A chunk received later only extends the buffer. */
  lemma FlattenAppend(chunks: seq<Bytes>, c: Bytes)
    ensures Flatten(chunks + [c]) == Flatten(chunks) + c
  {
    assert (chunks + [c])[..|chunks|] == chunks;
  }

  /** `pcmToWav` is not part of this model; its result is recorded as its arguments. */
  datatype Wav = Wav(pcm: Bytes, sampleRate: nat, channels: nat)

  const AI_SAMPLE_RATE: nat := 24000
  const AI_CHANNELS: nat := 1

  /** `Uint8Array.prototype.set(chunk, offset)`: copy `chunk` into `buffer` from `offset` on. */
  method CopyInto(buffer: array<byte>, chunk: Bytes, offset: nat)
    requires offset + |chunk| <= buffer.Length
    modifies buffer
    ensures buffer[..] == old(buffer[..offset]) + chunk + old(buffer[offset + |chunk|..])
  {
    for j := 0 to |chunk|
      invariant buffer[..offset] == old(buffer[..offset])
      invariant buffer[offset..offset + j] == chunk[..j]
      invariant buffer[offset + |chunk|..] == old(buffer[offset + |chunk|..])
    {
      buffer[offset + j] := chunk[j];
      assert buffer[offset..offset + j + 1] == buffer[offset..offset + j] + [chunk[j]];
    }
    assert buffer[..] == buffer[..offset] + buffer[offset..offset + |chunk|] + buffer[offset + |chunk|..];
  }

  /** The reduce for `totalLength` and the copy loop that builds `combinedAiPcm`. */
  method CombineChunks(chunks: seq<Bytes>) returns (combined: array<byte>)
    ensures combined.Length == TotalLength(chunks)
    ensures combined[..] == Flatten(chunks)
  {
    var totalLength := 0;
    for i := 0 to |chunks|
      invariant totalLength == TotalLength(chunks[..i])
    {
      assert chunks[..i + 1][..i] == chunks[..i];
      totalLength := totalLength + |chunks[i]|;
    }
    assert chunks[..|chunks|] == chunks;
    combined := new byte[totalLength];
    var offset := 0;
    for i := 0 to |chunks|
      invariant offset == TotalLength(chunks[..i]) <= combined.Length
      invariant combined[..offset] == Flatten(chunks[..i])
    {
      assert chunks[..i + 1][..i] == chunks[..i];
      PrefixTotalLength(chunks, i + 1);
      ghost var before := combined[..];
      CopyInto(combined, chunks[i], offset);
      assert combined[..offset + |chunks[i]|] == before[..offset] + chunks[i];
      offset := offset + |chunks[i]|;
    }
    FlattenLength(chunks);
    assert combined[..] == combined[..offset];
  }

  /** A prefix of the chunks is no longer than all of them. */
  lemma {:induction false} PrefixTotalLength(chunks: seq<Bytes>, k: nat)
    requires k <= |chunks|
    ensures TotalLength(chunks[..k]) <= TotalLength(chunks)
  {
    if k < |chunks| {
      PrefixTotalLength(chunks[..|chunks| - 1], k);
      assert chunks[..|chunks| - 1][..k] == chunks[..k];
    } else {
      assert chunks[..k] == chunks;
    }
  }

  // ---------------------------------------------------------------------------
  // The session as a state machine

  datatype Status = Idle | Connecting | Listening | Speaking | Ended | Error

  /** The failures the screen reports; `FailureText` is the message it shows. */
  datatype Failure = MicrophoneDenied | MissingApiKey | ConnectionLost

  function FailureText(f: Failure): string {
    match f
    case MicrophoneDenied =>
      "Não foi possível aceder ao microfone. " + "Por favor, permita o acesso nas " + "definições do navegador."
    case MissingApiKey => "A chave da API não foi detetada. " + "Contacte o administrador."
    case ConnectionLost => "A ligação ao servidor falhou. " + "Verifique a sua internet."
  }

  /** The voice the simulated lead speaks with. */
  function VoiceFor(g: Gender): (v: string)
    ensures v == "Puck" <==> g == Male
  {
    if g == Male then "Puck" else "Charon"
  }

  /** One scheduled playback of an audio chunk: when it starts on the output clock and for how long. */
  datatype Playback = Playback(start: real, duration: real)

  function PlaybackEnd(p: Playback): real {
    p.start + p.duration
  }

  /** An inline audio part: its decoded bytes, the duration of the decoded buffer, and the
      output clock's `currentTime` when it is scheduled. */
  datatype AudioPart = AudioPart(data: Bytes, duration: real, now: real)

  /** One server message: the transcription fragments, the turn-complete flag, the first
      inline audio part and the interruption flag. */
  datatype Message = Message(
    outputText: Option<string>, inputText: Option<string>, turnComplete: bool,
    audio: Option<AudioPart>, interrupted: bool)

  /** What `onRoleplayEnd` receives. */
  datatype Artifact = Artifact(transcript: seq<Transcript>, userAudio: seq<Bytes>, aiAudio: Wav)

  datatype Event =
    | Start(microphoneGranted: bool, apiKeyPresent: bool)  // the mount effect's `startSession`
    | Opened                                               // `onopen`
    | Incoming(message: Message)                           // `onmessage`
    | SourceEnded(id: nat)                                 // a scheduled source's `ended` event
    | Errored                                              // `onerror`
    | Closed                                               // `onclose`
    | Tick                                                 // one second of the countdown interval
    | HangUp                                               // the end-call button
    | Frame(samples: seq<int>)                             // `onaudioprocess` with converted samples
    | RecorderData(blob: Bytes)                            // `ondataavailable`

  /** The committed transcript and the two transcription accumulators. */
  datatype Talk = Talk(transcript: seq<Transcript>, inputText: string, outputText: string)

  /** The output side: whether the output context exists, the cursor `nextStartTimeRef`, every
      playback scheduled so far (a playback's id is its index), the sources still held in
      `audioSourcesRef`, the sources whose `ended` event fired, the sources `stop()` was called
      on, and the decoded chunks of `aiAudioChunksRef`. */
  datatype Output = Output(
    ready: bool, cursor: real, schedule: seq<Playback>,
    live: set<nat>, finished: set<nat>, stopped: set<nat>, chunks: seq<Bytes>)

  /** The live connection: requested, open (`isConnectedRef`), closed by `endCall`. */
  datatype Link = Link(requested: bool, connected: bool, closed: bool)

  /** The microphone side: the recorder, its chunks, and the frames sent to the session. */
  datatype Capture = Capture(recorderCreated: bool, recording: bool, userChunks: seq<Bytes>, sent: seq<seq<int>>)

  /** `timerStartedRef` and `timeLeft`. */
  datatype Countdown = Countdown(started: bool, timeLeft: int)

  datatype SessionState = SessionState(
    status: Status, failure: Option<Failure>, talk: Talk, output: Output,
    link: Link, capture: Capture, timer: Countdown, delivered: seq<Artifact>)

  const INITIAL_TIME: int := 600

  const INITIAL: SessionState := SessionState(
    Idle, None, Talk([], "", ""), Output(false, 0.0, [], {}, {}, {}, []),
    Link(false, false, false), Capture(false, false, [], []), Countdown(false, INITIAL_TIME), [])

  /** The gate of `onopen` and `onmessage`: a session was requested and the call is not over. */
  predicate Live(s: SessionState) {
    s.link.requested && s.status != Ended
  }

  /** `startSession`: both audio contexts are created first; a refused microphone fails
      before the recorder exists, a missing API key after it has started. */
  function StartStep(s: SessionState, microphoneGranted: bool, apiKeyPresent: bool): SessionState {
    var connecting := s.(status := Connecting, failure := None, output := s.output.(ready := true));
    if !microphoneGranted then connecting.(status := Error, failure := Some(MicrophoneDenied))
    else
      var recording := connecting.(capture := connecting.capture.(recorderCreated := true, recording := true));
      if !apiKeyPresent then recording.(status := Error, failure := Some(MissingApiKey))
      else recording.(link := recording.link.(requested := true))
  }

  /** Stop every held source, forget them and rewind the cursor. */
  function StopAll(o: Output): Output {
    o.(stopped := o.stopped + o.live, live := {}, cursor := 0.0)
  }

  /** `cleanup`: stop the sources, drop the output context, mark the connection closed. */
  function CleanupStep(s: SessionState): SessionState {
    s.(output := StopAll(s.output).(ready := false), link := s.link.(connected := false))
  }

  /** The entries a turn adds: the user's text, then the lead's, each only when non-empty. */
  function Entries(userText: string, aiText: string): seq<Transcript> {
    (if userText != "" then [Transcript(UserSpeaker, userText)] else [])
    + (if aiText != "" then [Transcript(AiSpeaker, aiText)] else [])
  }

  /** Turn complete: commit the trimmed accumulators and clear them. */
  function Flush(t: Talk): Talk {
    Talk(t.transcript + Entries(Trim(t.inputText), Trim(t.outputText)), "", "")
  }

  /** The transcription part of `onmessage`: extend the accumulators, then flush on turn complete. */
  function Hear(t: Talk, m: Message): Talk {
    var heard := t.(outputText := t.outputText + m.outputText.GetOr(""),
                    inputText := t.inputText + m.inputText.GetOr(""));
    if m.turnComplete then Flush(heard) else heard
  }

  /** Schedule a chunk at `max(cursor, now)`, advance the cursor past it and hold its source. */
  function Schedule(o: Output, a: AudioPart): Output {
    var start := if o.cursor >= a.now then o.cursor else a.now;
    o.(chunks := o.chunks + [a.data], schedule := o.schedule + [Playback(start, a.duration)],
       cursor := start + a.duration, live := o.live + {|o.schedule|})
  }

  /** The audio part of `onmessage`: play the chunk when the output context exists, then
      stop everything on an interruption. */
  function Play(o: Output, m: Message): Output {
    var played := if m.audio.Some? && o.ready then Schedule(o, m.audio.value) else o;
    if m.interrupted then StopAll(played) else played
  }

  /** The body of `onmessage` past its gate. */
  function MessageStep(s: SessionState, m: Message): SessionState {
    s.(timer := if m.audio.Some? then s.timer.(started := true) else s.timer,
       talk := Hear(s.talk, m),
       status := if m.audio.Some? && s.output.ready then Speaking else s.status,
       output := Play(s.output, m))
  }

  /** The `ended` listener of source `id`. */
  function SourceEndStep(s: SessionState, id: nat): SessionState
    requires id < |s.output.schedule| && id !in s.output.finished
  {
    var o := s.output.(live := s.output.live - {id}, finished := s.output.finished + {id});
    s.(output := o, status := if o.live == {} && s.status != Ended then Listening else s.status)
  }

  /** `finalTranscript`: the committed entries, then the untrimmed accumulators when non-empty. */
  function FinalTranscript(t: Talk): seq<Transcript> {
    t.transcript + Entries(t.inputText, t.outputText)
  }

  /** What `endCall` hands to `onRoleplayEnd` from state `s`. */
  function ArtifactOf(s: SessionState): Artifact {
    Artifact(FinalTranscript(s.talk), s.capture.userChunks, Wav(Flatten(s.output.chunks), AI_SAMPLE_RATE, AI_CHANNELS))
  }

  /** `endCall`. */
  function EndCallStep(s: SessionState): SessionState {
    if s.status == Ended || s.status == Idle then s
    else
      var c := CleanupStep(s);
      c.(status := Ended, link := c.link.(closed := s.link.closed || s.link.requested),
         capture := c.capture.(recording := false), delivered := s.delivered + [ArtifactOf(s)])
  }

  /** The countdown effect after `timeLeft` changed: end the call once it reaches 0. */
  function TimerCheck(s: SessionState): SessionState {
    if s.timer.started && s.timer.timeLeft <= 0 then EndCallStep(s) else s
  }

  /** The screen's response to one event. Callbacks of a live session that was never
      requested, and `ended` events of sources never scheduled or already ended, do not occur
      and change nothing. */
  function Step(s: SessionState, ev: Event): SessionState {
    match ev
    case Start(mic, key) => if s.status == Idle then StartStep(s, mic, key) else s
    case Opened => if !Live(s) then s else s.(status := Listening, link := s.link.(connected := true))
    case Incoming(m) => if !Live(s) then s else MessageStep(s, m)
    case SourceEnded(id) => if id >= |s.output.schedule| || id in s.output.finished then s else SourceEndStep(s, id)
    case Errored =>
      // The status change re-runs the countdown effect, which ends a call whose time is up.
      if !s.link.requested then s
      else TimerCheck(CleanupStep(s.(failure := Some(ConnectionLost), status := Error)))
    case Closed => if !s.link.requested then s else s.(link := s.link.(connected := false), status := Ended)
    case Tick =>
      if !s.timer.started || s.status == Ended then s
      else TimerCheck(s.(timer := s.timer.(timeLeft := s.timer.timeLeft - 1)))
    // The end-call button is disabled while CONNECTING; the model accepts a hang-up there too.
    case HangUp => EndCallStep(s)
    case Frame(x) =>
      if s.status == Ended || !s.link.connected then s
      else s.(capture := s.capture.(sent := s.capture.sent + [x]))
    case RecorderData(b) =>
      if !s.capture.recorderCreated || |b| == 0 then s
      else s.(capture := s.capture.(userChunks := s.capture.userChunks + [b]))
  }

  /** The state after the events `evs`, in order. */
  function Run(s: SessionState, evs: seq<Event>): SessionState {
    if evs == [] then s else Step(Run(s, evs[..|evs| - 1]), evs[|evs| - 1])
  }

  /** The state after `n` seconds of the countdown interval. */
  function AfterTicks(s: SessionState, n: nat): SessionState {
    if n == 0 then s else Step(AfterTicks(s, n - 1), Tick)
  }

  // ---------------------------------------------------------------------------
  // Start-up

  /** Before `startSession` runs nothing but the start itself has any effect. */
  lemma IdleIgnoresAllButStart(ev: Event)
    requires !ev.Start?
    ensures Step(INITIAL, ev) == INITIAL
  {
  }

  /** The three start-up outcomes: a refused microphone fails before the recorder exists, a
      missing key fails after it started, and otherwise the session is requested and the
      screen waits in CONNECTING. */
  lemma StartOutcome(microphoneGranted: bool, apiKeyPresent: bool)
    ensures var r := Step(INITIAL, Start(microphoneGranted, apiKeyPresent));
      && (r.status == Error <==> !(microphoneGranted && apiKeyPresent))
      && (r.status == Connecting <==> microphoneGranted && apiKeyPresent)
      && (r.failure == Some(MicrophoneDenied) <==> !microphoneGranted)
      && (r.failure == Some(MissingApiKey) <==> microphoneGranted && !apiKeyPresent)
      && (r.failure == None <==> microphoneGranted && apiKeyPresent)
      && (r.capture.recorderCreated <==> microphoneGranted) && (r.capture.recording <==> microphoneGranted)
      && (r.link.requested <==> microphoneGranted && apiKeyPresent)
      && r.output.ready && !r.link.connected && r.talk == INITIAL.talk && r.delivered == []
  {
  }

  /** `startSession` runs once: a second start changes nothing. */
  lemma StartOnce(s: SessionState, microphoneGranted: bool, apiKeyPresent: bool)
    requires s.status != Idle
    ensures Step(s, Start(microphoneGranted, apiKeyPresent)) == s
  {
  }

  /** `onopen` switches to LISTENING and marks the connection open, unless the call is over. */
  lemma OpenedEffect(s: SessionState)
    ensures Live(s) ==> Step(s, Opened).status == Listening && Step(s, Opened).link.connected
    ensures !Live(s) ==> Step(s, Opened) == s
    ensures Step(s, Opened).talk == s.talk && Step(s, Opened).delivered == s.delivered
  {
  }

  // ---------------------------------------------------------------------------
  // Transcription

  /** The entries a flush adds: none exactly when both texts are empty, the user's first. */
  lemma EntriesShape(userText: string, aiText: string)
    ensures Entries(userText, aiText) == [] <==> userText == "" && aiText == ""
    ensures |Entries(userText, aiText)| == (if userText != "" then 1 else 0) + (if aiText != "" then 1 else 0)
    ensures userText != "" ==> Entries(userText, aiText)[0] == Transcript(UserSpeaker, userText)
    ensures aiText != "" ==> Entries(userText, aiText)[|Entries(userText, aiText)| - 1] == Transcript(AiSpeaker, aiText)
    ensures forall i :: 0 <= i < |Entries(userText, aiText)| ==>
      Entries(userText, aiText)[i].text != "" &&
      Entries(userText, aiText)[i].text == (if Entries(userText, aiText)[i].speaker == UserSpeaker then userText else aiText)
  {
  }

  /** A message without turn-complete only extends the two accumulators. */
  lemma FragmentsAccumulate(s: SessionState, m: Message)
    requires Live(s) && !m.turnComplete
    ensures Step(s, Incoming(m)).talk ==
      Talk(s.talk.transcript, s.talk.inputText + m.inputText.GetOr(""), s.talk.outputText + m.outputText.GetOr(""))
  {
  }

  /** Turn complete commits what was heard, trimmed, and clears both accumulators. */
  lemma TurnCompleteFlush(s: SessionState, m: Message)
    requires Live(s) && m.turnComplete
    ensures var t := Step(s, Incoming(m)).talk;
      && t.transcript == s.talk.transcript
           + Entries(Trim(s.talk.inputText + m.inputText.GetOr("")), Trim(s.talk.outputText + m.outputText.GetOr("")))
      && t.inputText == "" && t.outputText == ""
  {
    var heard := Talk(s.talk.transcript, s.talk.inputText + m.inputText.GetOr(""), s.talk.outputText + m.outputText.GetOr(""));
    assert Step(s, Incoming(m)).talk == Hear(s.talk, m) == Flush(heard);
  }

  /** The committed transcript only ever grows at its end. */
  lemma TranscriptAppendOnly(s: SessionState, ev: Event)
    ensures |s.talk.transcript| <= |Step(s, ev).talk.transcript|
    ensures Step(s, ev).talk.transcript[..|s.talk.transcript|] == s.talk.transcript
  {
  }

  // ---------------------------------------------------------------------------
  // Audio playback

  /** Where a new chunk goes: after the cursor and no earlier than the output clock, appended to
      the schedule and to the kept chunks; the cursor then sits at its end and the screen is
      SPEAKING, unless the same message interrupts, which stops every source, the new one too. */
  lemma AudioPlacement(s: SessionState, m: Message)
    requires Live(s) && s.output.ready && m.audio.Some?
    ensures var o := Step(s, Incoming(m)).output; var a := m.audio.value; var n := |s.output.schedule|;
      && |o.schedule| == n + 1 && o.schedule[..n] == s.output.schedule
      && o.schedule[n].start >= a.now && o.schedule[n].start >= s.output.cursor
      && (o.schedule[n].start == a.now || o.schedule[n].start == s.output.cursor)
      && o.schedule[n].duration == a.duration
      && o.chunks == s.output.chunks + [a.data]
      && (!m.interrupted ==> o.cursor == PlaybackEnd(o.schedule[n]) && o.live == s.output.live + {n})
      && (m.interrupted ==> o.cursor == 0.0 && o.live == {} && o.stopped == s.output.stopped + s.output.live + {n})
    ensures Step(s, Incoming(m)).status == Speaking && Step(s, Incoming(m)).timer.started
  {
  }

  /** Without an output context (after a connection error) audio is neither played nor kept. */
  lemma NoPlaybackWithoutOutput(s: SessionState, m: Message)
    requires !s.output.ready
    ensures Step(s, Incoming(m)).output.schedule == s.output.schedule
    ensures Step(s, Incoming(m)).output.chunks == s.output.chunks
  {
  }

  /** An interruption stops every held source and rewinds the cursor. */
  lemma InterruptResets(s: SessionState, m: Message)
    requires Live(s) && m.interrupted && m.audio.None?
    ensures var o := Step(s, Incoming(m)).output;
      o.live == {} && o.stopped == s.output.stopped + s.output.live && o.cursor == 0.0 && o.schedule == s.output.schedule
  {
  }

  /** After a rewind the next chunk starts at the output clock, not at the old cursor. */
  lemma StartsNowAfterReset(s: SessionState, m: Message)
    requires Live(s) && s.output.ready && m.audio.Some? && s.output.cursor == 0.0 && m.audio.value.now >= 0.0
    ensures |Step(s, Incoming(m)).output.schedule| > |s.output.schedule|
    ensures Step(s, Incoming(m)).output.schedule[|s.output.schedule|].start == m.audio.value.now
  {
  }

  /** Of two chunks received one after the other, the first not interrupting, the second never
      overlaps the first, and it plays right after the first when it arrives before the first
      finished. */
  lemma NoOverlap(s: SessionState, m1: Message, m2: Message)
    requires Live(s) && s.output.ready && m1.audio.Some? && !m1.interrupted && m2.audio.Some?
    ensures var n := |s.output.schedule|;
      var s1 := Step(s, Incoming(m1)); var o := Step(s1, Incoming(m2)).output;
      && |s1.output.schedule| == n + 1 && |o.schedule| == n + 2
      && o.schedule[n + 1].start >= PlaybackEnd(s1.output.schedule[n])
      && (m2.audio.value.now <= PlaybackEnd(s1.output.schedule[n]) ==>
            o.schedule[n + 1].start == PlaybackEnd(s1.output.schedule[n]))
  {
  }

  /** A source's `ended` event forgets it; LISTENING follows only once no source is held and
      the call is not over. */
  lemma SourceEndedEffect(s: SessionState, id: nat)
    requires id < |s.output.schedule| && id !in s.output.finished
    ensures var r := Step(s, SourceEnded(id));
      && r.output.live == s.output.live - {id} && r.output.finished == s.output.finished + {id}
      && (s.output.live - {id} == {} && s.status != Ended ==> r.status == Listening)
      && (s.output.live - {id} != {} || s.status == Ended ==> r.status == s.status)
      && r.output.schedule == s.output.schedule && r.output.cursor == s.output.cursor && r.talk == s.talk
  {
  }

  // ---------------------------------------------------------------------------
  // Ending

  /** `endCall` does nothing before the session started or once the call is over. */
  lemma EndCallIgnored(s: SessionState)
    requires s.status == Ended || s.status == Idle
    ensures Step(s, HangUp) == s
  {
  }

  /** `endCall` ends the call, closes the session it requested, cleans up, stops the recorder
      and hands over the artifact once. */
  lemma EndCallDelivers(s: SessionState)
    requires s.status != Ended && s.status != Idle
    ensures var r := Step(s, HangUp);
      && r.status == Ended && r.delivered == s.delivered + [ArtifactOf(s)]
      && r.link.closed == (s.link.closed || s.link.requested)
      && !r.link.connected && !r.capture.recording && !r.output.ready
      && r.output.live == {} && r.output.stopped == s.output.stopped + s.output.live && r.output.cursor == 0.0
      && r.talk == s.talk
  {
  }

  /** Ending twice is ending once. */
  lemma EndCallIdempotent(s: SessionState)
    ensures Step(Step(s, HangUp), HangUp) == Step(s, HangUp)
  {
  }

  /** The artifact: the committed transcript followed by what is still being heard, untrimmed;
      the recorder's chunks; every AI chunk, in order, back to back, as 24 kHz mono. */
  lemma ArtifactContents(s: SessionState, i: nat)
    requires i < |s.output.chunks|
    ensures var a := ArtifactOf(s);
      && a.transcript[..|s.talk.transcript|] == s.talk.transcript
      && a.transcript[|s.talk.transcript|..] == Entries(s.talk.inputText, s.talk.outputText)
      && a.userAudio == s.capture.userChunks
      && a.aiAudio.sampleRate == 24000 && a.aiAudio.channels == 1
      && |a.aiAudio.pcm| == TotalLength(s.output.chunks)
      && Offset(s.output.chunks, i) + |s.output.chunks[i]| <= |a.aiAudio.pcm|
      && a.aiAudio.pcm[Offset(s.output.chunks, i)..Offset(s.output.chunks, i) + |s.output.chunks[i]|] == s.output.chunks[i]
  {
    FlattenLayout(s.output.chunks, i);
  }

  /** A connection error reports itself and cleans up. It hands nothing over, unless the
      countdown has already run out: then the re-run countdown effect ends the call at once
      and hands over exactly one artifact. */
  lemma ErroredEffect(s: SessionState)
    requires s.link.requested
    ensures var r := Step(s, Errored);
      && r.failure == Some(ConnectionLost)
      && r.output.live == {} && r.output.stopped == s.output.stopped + s.output.live && r.output.cursor == 0.0
      && !r.link.connected && !r.output.ready && r.talk == s.talk
      && (!(s.timer.started && s.timer.timeLeft <= 0) ==> r.status == Error && r.delivered == s.delivered)
      && (s.timer.started && s.timer.timeLeft <= 0 ==>
            r.status == Ended && r.link.closed && r.delivered == s.delivered + [ArtifactOf(s)])
  {
    var c := CleanupStep(s.(failure := Some(ConnectionLost), status := Error));
    assert ArtifactOf(c) == ArtifactOf(s);
  }

  /** A close from the server ends the call without handing anything over; after it the
      end-call button does nothing. */
  lemma ClosedEndsSilently(s: SessionState)
    requires s.link.requested
    ensures Step(s, Closed).status == Ended && !Step(s, Closed).link.connected
    ensures Step(s, Closed).delivered == s.delivered
    ensures Step(Step(s, Closed), HangUp) == Step(s, Closed)
  {
  }

  /** Once the call is over the session callbacks, the timer, the end-call button and the
      microphone frames have no effect. */
  lemma EndedIsInert(s: SessionState, ev: Event)
    requires s.status == Ended
    requires ev.Start? || ev.Opened? || ev.Incoming? || ev.Tick? || ev.HangUp? || ev.Frame?
    ensures Step(s, ev) == s
  {
  }

  /** Microphone frames go out exactly while the connection is open and the call not over. */
  lemma FrameGate(s: SessionState, x: seq<int>)
    ensures |Step(s, Frame(x)).capture.sent| == |s.capture.sent| + 1 <==> s.status != Ended && s.link.connected
    ensures Step(s, Frame(x)).capture.sent[..|s.capture.sent|] == s.capture.sent
    ensures |Step(s, Frame(x)).capture.sent| > |s.capture.sent| ==> Step(s, Frame(x)).capture.sent[|s.capture.sent|] == x
  {
  }

  /** The recorder keeps exactly its non-empty chunks, in order. */
  lemma RecorderKeepsChunks(s: SessionState, b: Bytes)
    requires s.capture.recorderCreated
    ensures |b| > 0 ==> Step(s, RecorderData(b)).capture.userChunks == s.capture.userChunks + [b]
    ensures |b| == 0 ==> Step(s, RecorderData(b)) == s
  {
  }

  // ---------------------------------------------------------------------------
  // The countdown

  /** The countdown starts only with a message carrying inline audio. */
  lemma TimerStartsOnAudio(s: SessionState, ev: Event)
    requires Inv(s) && !s.timer.started && Step(s, ev).timer.started
    ensures Live(s) && ev.Incoming? && ev.message.audio.Some?
  {
  }

  /** Before it started, and once the call is over, a tick does nothing; otherwise it takes
      one second off. */
  lemma TickEffect(s: SessionState)
    ensures !s.timer.started || s.status == Ended ==> Step(s, Tick) == s
    ensures s.timer.started && s.status != Ended && s.timer.timeLeft > 1 ==>
      Step(s, Tick) == s.(timer := s.timer.(timeLeft := s.timer.timeLeft - 1))
  {
  }

  /** Fewer ticks than seconds left only count down. */
  lemma {:induction false} TicksCountDown(s: SessionState, k: nat)
    requires s.timer.started && s.status != Ended && k < s.timer.timeLeft
    ensures AfterTicks(s, k) == s.(timer := s.timer.(timeLeft := s.timer.timeLeft - k))
  {
    if k > 0 {
      TicksCountDown(s, k - 1);
    }
  }

  /** The last second ends the call and hands over the artifact. */
  lemma LastTick(s: SessionState)
    requires s.timer.started && s.status != Ended && s.status != Idle && s.timer.timeLeft == 1
    ensures Step(s, Tick).status == Ended
    ensures Step(s, Tick).delivered == s.delivered + [ArtifactOf(s)]
  {
    var zero := s.(timer := s.timer.(timeLeft := 0));
    assert Step(s, Tick) == EndCallStep(zero);
    assert ArtifactOf(zero) == ArtifactOf(s);
  }

  /** A started timer ends the call after exactly the seconds left, handing over the artifact
      of the state it ended in. */
  lemma CountdownEndsCall(s: SessionState)
    requires s.timer.started && s.status != Ended && s.status != Idle && s.timer.timeLeft >= 1
    ensures AfterTicks(s, s.timer.timeLeft).status == Ended
    ensures AfterTicks(s, s.timer.timeLeft).delivered == s.delivered + [ArtifactOf(s)]
  {
    var n := s.timer.timeLeft;
    var last := s.(timer := s.timer.(timeLeft := 1));
    assert AfterTicks(s, n - 1) == last by {
      TicksCountDown(s, n - 1);
    }
    LastTick(last);
    assert ArtifactOf(last) == ArtifactOf(s);
  }

  /** A connection error after the call ended reopens `endCall`: a second artifact is handed
      over, by the error itself when the countdown has run out, and otherwise by ending again. */
  lemma LateErrorDeliversTwice(s: SessionState)
    requires s.link.requested && s.status != Ended && s.status != Idle
    ensures |Run(s, [HangUp, Errored, HangUp]).delivered| == |s.delivered| + 2
  {
    assert [HangUp, Errored, HangUp][..2] == [HangUp, Errored];
    assert [HangUp, Errored][..1] == [HangUp];
    assert [HangUp][..0] == [];
    var r1 := Step(s, HangUp);
    assert Run(s, [HangUp]) == r1;
    EndCallDelivers(s);
    var r2 := Step(r1, Errored);
    assert Run(s, [HangUp, Errored]) == r2;
    ErroredEffect(r1);
    if r1.timer.started && r1.timer.timeLeft <= 0 {
      assert r2.status == Ended && |r2.delivered| == |r1.delivered| + 1;
      EndCallIgnored(r2);
    } else {
      assert r2.status == Error && r2.delivered == r1.delivered;
      EndCallDelivers(r2);
    }
  }

  /** An error arriving on the last tick's heels, once the countdown ended the call, hands
      over a second artifact at once, with no further hang-up. */
  lemma ErrorAfterCountdownDelivers(s: SessionState)
    requires s.link.requested && s.status != Ended && s.status != Idle
    requires s.timer.started && s.timer.timeLeft == 1
    ensures |Run(s, [Tick, Errored]).delivered| == |s.delivered| + 2
  {
    assert [Tick, Errored][..1] == [Tick];
    assert [Tick][..0] == [];
    var r1 := Step(s, Tick);
    assert Run(s, [Tick]) == r1;
    assert r1.status == Ended && |r1.delivered| == |s.delivered| + 1 && r1.timer == s.timer.(timeLeft := 0);
    ErroredEffect(r1);
  }

  // ---------------------------------------------------------------------------
  // The invariant every event keeps

  /** Every entry is non-empty and trimmed. */
  predicate EntriesOk(e: seq<Transcript>) {
    forall i :: 0 <= i < |e| ==> e[i].text != "" && IsTrimmed(e[i].text)
  }

  predicate TalkInv(t: Talk) {
    EntriesOk(t.transcript)
  }

  lemma AppendEntriesOk(a: seq<Transcript>, b: seq<Transcript>)
    requires EntriesOk(a) && EntriesOk(b)
    ensures EntriesOk(a + b)
  {
    forall i | 0 <= i < |a + b|
      ensures (a + b)[i].text != "" && IsTrimmed((a + b)[i].text)
    {
      if i >= |a| {
        assert (a + b)[i] == b[i - |a|];
      }
    }
  }

  /** One kept chunk per playback; held and ended sources were scheduled, and a held source has
      not ended; the cursor is rewound or sits at the end of the last playback. */
  predicate OutputInv(o: Output) {
    && |o.chunks| == |o.schedule|
    && (forall id :: id in o.live ==> id < |o.schedule| && id !in o.finished)
    && (forall id :: id in o.finished ==> id < |o.schedule|)
    && (o.cursor == 0.0 || (|o.schedule| > 0 && o.cursor == PlaybackEnd(o.schedule[|o.schedule| - 1])))
  }

  predicate Inv(s: SessionState) {
    && TalkInv(s.talk)
    && OutputInv(s.output)
    && (s.link.connected ==> s.link.requested)
    && (s.link.closed ==> s.link.requested)
    && (s.timer.started ==> s.link.requested)
    && (s.capture.recording ==> s.capture.recorderCreated)
    && (s.status == Ended ==> !s.link.connected)
    && (s.status == Idle ==> s == INITIAL)
  }

  /** Entries built from trimmed texts are non-empty and trimmed. */
  lemma EntriesOfTrimmed(userText: string, aiText: string)
    requires IsTrimmed(userText) && IsTrimmed(aiText)
    ensures EntriesOk(Entries(userText, aiText))
  {
    EntriesShape(userText, aiText);
  }

  /** The entries a flush adds are non-empty and trimmed. */
  lemma TrimmedEntries(userText: string, aiText: string)
    ensures EntriesOk(Entries(Trim(userText), Trim(aiText)))
  {
    TrimSpec(userText);
    TrimSpec(aiText);
    EntriesOfTrimmed(Trim(userText), Trim(aiText));
  }

  lemma FlushInv(t: Talk)
    requires TalkInv(t)
    ensures TalkInv(Flush(t))
  {
    var e := Entries(Trim(t.inputText), Trim(t.outputText));
    TrimmedEntries(t.inputText, t.outputText);
    AppendEntriesOk(t.transcript, e);
  }

  lemma HearInv(t: Talk, m: Message)
    requires TalkInv(t)
    ensures TalkInv(Hear(t, m))
  {
    if m.turnComplete {
      FlushInv(t.(outputText := t.outputText + m.outputText.GetOr(""), inputText := t.inputText + m.inputText.GetOr("")));
    }
  }

  lemma PlayInv(o: Output, m: Message)
    requires OutputInv(o)
    ensures OutputInv(Play(o, m))
  {
  }

  lemma EndCallInv(s: SessionState)
    requires Inv(s)
    ensures Inv(EndCallStep(s))
  {
    if s.status != Ended && s.status != Idle {
      assert OutputInv(StopAll(s.output).(ready := false));
    }
  }

  lemma MessageInv(s: SessionState, m: Message)
    requires Inv(s) && Live(s)
    ensures Inv(MessageStep(s, m))
  {
    HearInv(s.talk, m);
    PlayInv(s.output, m);
  }

  lemma TickInv(s: SessionState)
    requires Inv(s)
    ensures Inv(Step(s, Tick))
  {
    if s.timer.started && s.status != Ended {
      var t := s.(timer := s.timer.(timeLeft := s.timer.timeLeft - 1));
      assert Inv(t);
      EndCallInv(t);
    }
  }

  lemma SourceEndedInv(s: SessionState, id: nat)
    requires Inv(s)
    ensures Inv(Step(s, SourceEnded(id)))
  {
    if id < |s.output.schedule| && id !in s.output.finished {
      assert OutputInv(SourceEndStep(s, id).output);
    }
  }

  lemma StartInv(s: SessionState, microphoneGranted: bool, apiKeyPresent: bool)
    requires Inv(s)
    ensures Inv(Step(s, Start(microphoneGranted, apiKeyPresent)))
  {
  }

  lemma ConnectionInv(s: SessionState, ev: Event)
    requires Inv(s) && (ev.Opened? || ev.Errored? || ev.Closed?)
    ensures Inv(Step(s, ev))
  {
    if ev.Errored? && s.link.requested {
      var c := CleanupStep(s.(failure := Some(ConnectionLost), status := Error));
      assert OutputInv(StopAll(s.output).(ready := false));
      assert Inv(c);
      EndCallInv(c);
    }
  }

  lemma CaptureInv(s: SessionState, ev: Event)
    requires Inv(s) && (ev.Frame? || ev.RecorderData?)
    ensures Inv(Step(s, ev))
  {
  }

  /** Every event keeps the invariant. */
  lemma StepInv(s: SessionState, ev: Event)
    requires Inv(s)
    ensures Inv(Step(s, ev))
  {
    match ev {
      case Start(mic, key) => StartInv(s, mic, key);
      case Incoming(m) =>
        if Live(s) {
          MessageInv(s, m);
        }
      case SourceEnded(id) => SourceEndedInv(s, id);
      case Tick => TickInv(s);
      case HangUp => EndCallInv(s);
      case Opened => ConnectionInv(s, ev);
      case Errored => ConnectionInv(s, ev);
      case Closed => ConnectionInv(s, ev);
      case Frame(x) => CaptureInv(s, ev);
      case RecorderData(b) => CaptureInv(s, ev);
    }
  }

  /** So does every run from the initial state. */
  lemma {:induction false} RunInv(evs: seq<Event>)
    ensures Inv(Run(INITIAL, evs))
  {
    if evs != [] {
      RunInv(evs[..|evs| - 1]);
      StepInv(Run(INITIAL, evs[..|evs| - 1]), evs[|evs| - 1]);
    }
  }

  // ---------------------------------------------------------------------------
  // The screen's refs and state cells

  /** The component's state cells and refs, grouped as in `SessionState`; each callback is one
      method, proved to change the state as `Step` says. */
  class Session {
    var status: Status
    var failure: Option<Failure>
    var talk: Talk
    var output: Output
    var link: Link
    var capture: Capture
    var timer: Countdown
    var delivered: seq<Artifact>

    function State(): SessionState
      reads this
    {
      SessionState(status, failure, talk, output, link, capture, timer, delivered)
    }

    constructor()
      ensures State() == INITIAL
    {
      status, failure := Idle, None;
      talk := Talk([], "", "");
      output := Output(false, 0.0, [], {}, {}, {}, []);
      link := Link(false, false, false);
      capture := Capture(false, false, [], []);
      timer := Countdown(false, INITIAL_TIME);
      delivered := [];
    }

    method StartSession(microphoneGranted: bool, apiKeyPresent: bool)
      modifies this
      ensures State() == Step(old(State()), Start(microphoneGranted, apiKeyPresent))
    {
      if status != Idle {
        return;
      }
      status, failure := Connecting, None;
      output := output.(ready := true);
      if !microphoneGranted {
        status, failure := Error, Some(MicrophoneDenied);
        return;
      }
      capture := capture.(recorderCreated := true, recording := true);
      if !apiKeyPresent {
        status, failure := Error, Some(MissingApiKey);
        return;
      }
      link := link.(requested := true);
    }

    method Cleanup()
      modifies this
      ensures State() == CleanupStep(old(State()))
    {
      output := output.(ready := false);
      output := output.(stopped := output.stopped + output.live, live := {});
      output := output.(cursor := 0.0);
      link := link.(connected := false);
    }

    method OnOpen()
      modifies this
      ensures State() == Step(old(State()), Opened)
    {
      if !link.requested || status == Ended {
        return;
      }
      status := Listening;
      link := link.(connected := true);
    }

    /** The transcription part of `onmessage`. */
    method HearMessage(m: Message)
      modifies this
      ensures State() == old(State()).(talk := Hear(old(talk), m))
    {
      if m.outputText.Some? {
        talk := talk.(outputText := talk.outputText + m.outputText.value);
      }
      if m.inputText.Some? {
        talk := talk.(inputText := talk.inputText + m.inputText.value);
      }
      ghost var heard := talk;
      assert heard == old(talk).(outputText := old(talk).outputText + m.outputText.GetOr(""),
                                 inputText := old(talk).inputText + m.inputText.GetOr(""));
      if m.turnComplete {
        var fi := Trim(talk.inputText);
        var fo := Trim(talk.outputText);
        talk := Talk(talk.transcript + Entries(fi, fo), "", "");
        assert talk == Flush(heard);
      }
    }

    /** The audio part of `onmessage`. */
    method PlayMessage(m: Message)
      modifies this
      ensures State() == old(State()).(
        output := Play(old(output), m),
        status := if m.audio.Some? && old(output.ready) then Speaking else old(status))
    {
      if m.audio.Some? && output.ready {
        var a := m.audio.value;
        status := Speaking;
        output := output.(chunks := output.chunks + [a.data]);
        output := output.(cursor := if output.cursor >= a.now then output.cursor else a.now);
        var id := |output.schedule|;
        output := output.(schedule := output.schedule + [Playback(output.cursor, a.duration)]);
        output := output.(cursor := output.cursor + a.duration, live := output.live + {id});
      }
      if m.interrupted {
        output := output.(stopped := output.stopped + output.live, live := {}, cursor := 0.0);
      }
    }

    method OnMessage(m: Message)
      modifies this
      ensures State() == Step(old(State()), Incoming(m))
    {
      if !link.requested || status == Ended {
        return;
      }
      if !timer.started && m.audio.Some? {
        timer := timer.(started := true);
      }
      HearMessage(m);
      PlayMessage(m);
    }

    method OnSourceEnded(id: nat)
      modifies this
      ensures State() == Step(old(State()), SourceEnded(id))
    {
      if id >= |output.schedule| || id in output.finished {
        return;
      }
      output := output.(live := output.live - {id}, finished := output.finished + {id});
      if output.live == {} && status != Ended {
        status := Listening;
      }
    }

    method OnError()
      modifies this
      ensures State() == Step(old(State()), Errored)
    {
      if !link.requested {
        return;
      }
      failure := Some(ConnectionLost);
      status := Error;
      Cleanup();
      if timer.started && timer.timeLeft <= 0 {
        EndCall();
      }
    }

    method OnClose()
      modifies this
      ensures State() == Step(old(State()), Closed)
    {
      if !link.requested {
        return;
      }
      link := link.(connected := false);
      if status != Ended {
        status := Ended;
      }
    }

    /** The hand-over at the end of `endCall`: the final transcript, the recorder's chunks and
        the AI chunks combined by `CombineChunks`. */
    method HandOver()
      modifies this
      ensures State() == old(State()).(delivered := old(delivered) + [ArtifactOf(old(State()))])
    {
      var finalTranscript := talk.transcript + Entries(talk.inputText, talk.outputText);
      var combined := CombineChunks(output.chunks);
      var aiAudio := Wav(combined[..], AI_SAMPLE_RATE, AI_CHANNELS);
      delivered := delivered + [Artifact(finalTranscript, capture.userChunks, aiAudio)];
    }

    method EndCall()
      modifies this
      ensures State() == Step(old(State()), HangUp)
    {
      if status == Ended || status == Idle {
        return;
      }
      ghost var s := State();
      status := Ended;
      if link.requested {
        link := link.(closed := true);
      }
      Cleanup();
      if capture.recording {
        capture := capture.(recording := false);
      }
      assert ArtifactOf(State()) == ArtifactOf(s);
      HandOver();
    }

    method OnTick()
      modifies this
      ensures State() == Step(old(State()), Tick)
    {
      if !timer.started || status == Ended {
        return;
      }
      timer := timer.(timeLeft := timer.timeLeft - 1);
      if timer.started && timer.timeLeft <= 0 {
        EndCall();
      }
    }

    method OnAudioProcess(samples: seq<int>)
      modifies this
      ensures State() == Step(old(State()), Frame(samples))
    {
      if status == Ended || !link.connected {
        return;
      }
      capture := capture.(sent := capture.sent + [samples]);
    }

    method OnRecorderData(blob: Bytes)
      modifies this
      ensures State() == Step(old(State()), RecorderData(blob))
    {
      if capture.recorderCreated && |blob| > 0 {
        capture := capture.(userChunks := capture.userChunks + [blob]);
      }
    }

    method Handle(ev: Event)
      modifies this
      ensures State() == Step(old(State()), ev)
    {
      match ev {
        case Start(mic, key) => StartSession(mic, key);
        case Opened => OnOpen();
        case Incoming(m) => OnMessage(m);
        case SourceEnded(id) => OnSourceEnded(id);
        case Errored => OnError();
        case Closed => OnClose();
        case Tick => OnTick();
        case HangUp => EndCall();
        case Frame(x) => OnAudioProcess(x);
        case RecorderData(b) => OnRecorderData(b);
      }
    }
  }
}
