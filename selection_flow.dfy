/** The call flow of SelectionFlow.tsx: choosing an exercise, the scenario, the call and its
    scoring, as a state machine with guarded transitions.

    The scoring call itself is outside the model: the caller supplies whether an API key is
    present and how the call ended (a parsed result, a reply that does not parse, or a failure
    with its message). The object URLs of the two recordings are supplied too. */
module Flow {
  import opened Util
  import opened Types
  import Content

  // ---------------------------------------------------------------------------
  // The scoring text

  /** One transcript entry as the scoring prompt shows it. */
  function Line(t: Transcript): string {
    (if t.speaker == UserSpeaker then "VENDEDOR" else "CLIENTE") + ": " + t.text
  }

  function Lines(ts: seq<Transcript>): (r: seq<string>)
    ensures |r| == |ts| && forall i :: 0 <= i < |ts| ==> r[i] == Line(ts[i])
  {
    if ts == [] then [] else [Line(ts[0])] + Lines(ts[1..])
  }

  /** `join('\n')`. */
  function JoinLines(ls: seq<string>): string {
    if ls == [] then ""
    else if |ls| == 1 then ls[0]
    else ls[0] + "\n" + JoinLines(ls[1..])
  }

  /** `fullTranscriptText`: one line per entry, in order. */
  function TranscriptText(ts: seq<Transcript>): string {
    JoinLines(Lines(ts))
  }

  /** The first position of `c` in `s`. */
  function IndexOf(s: string, c: char): (i: nat)
    requires c in s
    ensures i < |s| && s[i] == c && c !in s[..i]
  {
    if s[0] == c then 0
    else
      assert c in s[1..] by {
        var k :| 0 <= k < |s| && s[k] == c;
        assert s[1..][k - 1] == c;
      }
      var j := IndexOf(s[1..], c);
      assert s[..j + 1] == [s[0]] + s[1..][..j];
      1 + j
  }

  /** Splitting a text at its line breaks: the reading direction of `JoinLines`. */
  function SplitLines(s: string): (r: seq<string>)
    ensures |r| >= 1
    decreases |s|
  {
    if '\n' !in s then [s]
    else
      var i := IndexOf(s, '\n');
      [s[..i]] + SplitLines(s[i + 1..])
  }

  /** Reading one line back into an entry. */
  function ParseLine(s: string): Option<Transcript> {
    if |s| >= 10 && s[..10] == "VENDEDOR: " then Some(Transcript(UserSpeaker, s[10..]))
    else if |s| >= 9 && s[..9] == "CLIENTE: " then Some(Transcript(AiSpeaker, s[9..]))
    else None
  }

  function ParseLines(ls: seq<string>): Option<seq<Transcript>> {
    if ls == [] then Some([])
    else
      match (ParseLine(ls[0]), ParseLines(ls[1..]))
      case (Some(t), Some(rest)) => Some([t] + rest)
      case _ => None
  }

  /** Reading a scoring text back into the transcript it shows. */
  function ParseTranscript(s: string): Option<seq<Transcript>> {
    ParseLines(SplitLines(s))
  }

  predicate SingleLine(s: string) {
    '\n' !in s
  }

  lemma LineRoundTrip(t: Transcript)
    ensures ParseLine(Line(t)) == Some(t)
  {
    var l := Line(t);
    if t.speaker == UserSpeaker {
      assert l == "VENDEDOR: " + t.text;
      assert l[..10] == "VENDEDOR: " && l[10..] == t.text;
    } else {
      assert l == "CLIENTE: " + t.text;
      assert l[..9] == "CLIENTE: " && l[9..] == t.text;
      assert |l| >= 10 ==> l[..10][0] == 'C';
    }
  }

  lemma LineSingle(t: Transcript)
    requires SingleLine(t.text)
    ensures SingleLine(Line(t))
  {
    var p := if t.speaker == UserSpeaker then "VENDEDOR: " else "CLIENTE: ";
    assert Line(t) == p + t.text;
    assert '\n' !in p;
  }

  /** A line break right after a single line is the first one. */
  lemma IndexAfterLine(l: string, rest: string)
    requires SingleLine(l)
    ensures '\n' in l + "\n" + rest
    ensures IndexOf(l + "\n" + rest, '\n') == |l|
    ensures (l + "\n" + rest)[..|l|] == l && (l + "\n" + rest)[|l| + 1..] == rest
  {
    var s := l + "\n" + rest;
    assert s[|l|] == '\n';
  }

  lemma SplitAfterLine(l: string, rest: string)
    requires SingleLine(l)
    ensures SplitLines(l + "\n" + rest) == [l] + SplitLines(rest)
  {
    IndexAfterLine(l, rest);
  }

  lemma {:induction false} SplitJoin(ls: seq<string>)
    requires |ls| >= 1 && forall i :: 0 <= i < |ls| ==> SingleLine(ls[i])
    ensures SplitLines(JoinLines(ls)) == ls
  {
    if |ls| > 1 {
      var rest := ls[1..];
      var tail := JoinLines(rest);
      assert JoinLines(ls) == ls[0] + "\n" + tail;
      assert SingleLine(ls[0]);
      SplitAfterLine(ls[0], tail);
      SplitJoin(rest);
      assert ls == [ls[0]] + rest;
    }
  }

  lemma {:induction false} ParseLinesOfLines(ts: seq<Transcript>)
    ensures ParseLines(Lines(ts)) == Some(ts)
  {
    if ts != [] {
      ParseLinesOfLines(ts[1..]);
      LineRoundTrip(ts[0]);
      assert Lines(ts)[1..] == Lines(ts[1..]);
      assert ts == [ts[0]] + ts[1..];
    }
  }

  /** The scoring text shows the whole transcript, in order: when no entry spans several lines,
      reading it back gives the transcript. */
  lemma TranscriptTextRoundTrip(ts: seq<Transcript>)
    requires ts != [] && forall i :: 0 <= i < |ts| ==> SingleLine(ts[i].text)
    ensures ParseTranscript(TranscriptText(ts)) == Some(ts)
  {
    var ls := Lines(ts);
    forall i | 0 <= i < |ls|
      ensures SingleLine(ls[i])
    {
      LineSingle(ts[i]);
    }
    SplitJoin(ls);
    ParseLinesOfLines(ts);
  }

  // ---------------------------------------------------------------------------
  // The scoring outcome

  /** The placeholder result of a call in which nobody spoke. */
  function EmptyResult(): (r: AnalysisResult)
    ensures r.score == 0.0 && !r.isQualified && |r.failedPoints| == 1 && |r.nextSteps| == 1
  {
    AnalysisResult(
      0.0, false,
      "A chamada terminou sem nenhuma interação. " + "Não foi possível realizar a análise.",
      ["Nenhuma interação detetada"],
      ["Tente falar algo na próxima chamada"])
  }

  /** How the scoring call ended. */
  datatype Outcome = Scored(result: AnalysisResult) | Unparseable | CallFailed(message: string)

  const MISSING_KEY_TEXT: string :=
    "API_KEY não encontrada nas variáveis de ambiente. " + "Por favor, verifique se fez o 'Redeploy' no Vercel."

  const UNPARSEABLE_TEXT: string :=
    "A IA forneceu uma análise em formato inválido. " + "Não foi possível processar o resultado."

  const ERROR_PREFIX: string := "Não foi possível analisar a sua performance. "

  /** The error shown for a failure with message `m`. */
  function ErrorText(m: string): (r: string)
    ensures |r| == |ERROR_PREFIX| + |m| && r[..|ERROR_PREFIX|] == ERROR_PREFIX && r[|ERROR_PREFIX|..] == m
  {
    ERROR_PREFIX + m
  }

  // ---------------------------------------------------------------------------
  // The flow

  datatype Stage = Selection | Scenario | Roleplaying | Analysis

  /** What was chosen for the call. */
  datatype Choice = Choice(exercise: Option<Exercise>, difficulty: Option<Difficulty>, scenario: Option<ScenarioData>)
  {
    /** The call screen can be shown. */
    predicate Ready() {
      exercise.Some? && difficulty.Some? && scenario.Some?
    }
  }

  /** What the analysis screen shows. */
  datatype Review = Review(
    result: Option<AnalysisResult>,
    loading: bool,
    error: Option<string>,
    transcript: Option<seq<Transcript>>,
    userAudioUrl: Option<string>,
    aiAudioUrl: Option<string>)

  /** A request to the scoring model: the transcript text and the exercise it is scored against. */
  datatype Query = Query(transcriptText: string, exercise: Exercise)

  /** The prompt sent with a request. */
  function Prompt(q: Query): string {
    Content.GenerateAnalysisPrompt(q.transcriptText, q.exercise)
  }

  /** The prompt of a request shows the exercise's goals and, just before its closing text, the
      whole call: reading that part back gives the transcript. */
  lemma PromptShowsCall(ts: seq<Transcript>, e: Exercise)
    requires ts != [] && forall i :: 0 <= i < |ts| ==> SingleLine(ts[i].text)
    ensures var p, text := Prompt(Query(TranscriptText(ts), e)), TranscriptText(ts);
      && Content.Contains(p, Content.ExerciseGoals(e.kind))
      && |text| + |Content.ANALYSIS_TAIL| <= |p|
      && ParseTranscript(p[|p| - |Content.ANALYSIS_TAIL| - |text|..|p| - |Content.ANALYSIS_TAIL|]) == Some(ts)
  {
    TranscriptTextRoundTrip(ts);
  }

  /** What was handed to the outside: the recordings given to `onSaveRecording` and the requests
      sent to the scoring model. */
  datatype Outbox = Outbox(saved: seq<RecordingDraft>, queries: seq<Query>)

  datatype FlowState = FlowState(stage: Stage, choice: Choice, review: Review, outbox: Outbox)

  const NO_CHOICE: Choice := Choice(None, None, None)
  const NO_REVIEW: Review := Review(None, false, None, None, None, None)
  const INITIAL: FlowState := FlowState(Selection, NO_CHOICE, NO_REVIEW, Outbox([], []))

  datatype Event =
    | Proceed(exercise: Exercise, difficulty: Difficulty, scenario: ScenarioData)  // the scenario is `generateScenarioData(exercise.type)`
    | StartCall
    | CallEnded(transcript: seq<Transcript>, userUrl: string, aiUrl: string, apiKeyPresent: bool, outcome: Outcome)
    | BackToSelection
    | BackToScenario
    | Reset
    | Render

  /** What the scoring of one call produced: the result shown (`None`: left as it was), the error
      shown, the result saved with the recording, and the request sent to the model. */
  datatype Verdict = Verdict(shown: Option<AnalysisResult>, error: Option<string>,
                             saved: Option<AnalysisResult>, query: Option<Query>)

  /** The `try`/`catch` of `handleRoleplayEnd`. */
  function Judge(exercise: Exercise, transcript: seq<Transcript>, apiKeyPresent: bool, outcome: Outcome): Verdict {
    if |transcript| == 0 then Verdict(Some(EmptyResult()), None, Some(EmptyResult()), None)
    else if !apiKeyPresent then Verdict(None, Some(ErrorText(MISSING_KEY_TEXT)), None, None)
    else
      var query := Some(Query(TranscriptText(transcript), exercise));
      match outcome
      case Scored(r) => Verdict(Some(r), None, Some(r), query)
      case Unparseable => Verdict(None, Some(ErrorText(UNPARSEABLE_TEXT)), None, query)
      case CallFailed(m) => Verdict(None, Some(ErrorText(m)), None, query)
  }

  function AsSeq<T>(o: Option<T>): seq<T> {
    if o.Some? then [o.value] else []
  }

  /** `handleRoleplayEnd`. */
  function CallEndedStep(s: FlowState, transcript: seq<Transcript>, userUrl: string, aiUrl: string,
                         apiKeyPresent: bool, outcome: Outcome): FlowState {
    if s.choice.exercise.None? || s.choice.difficulty.None? then s
    else
      var e, d := s.choice.exercise.value, s.choice.difficulty.value;
      var v := Judge(e, transcript, apiKeyPresent, outcome);
      var shown := if v.shown.Some? then v.shown else s.review.result;
      var drafts := if v.saved.Some? then [RecordingDraft(e, d, transcript, v.saved.value, userUrl, aiUrl)] else [];
      s.(stage := Analysis,
         review := Review(shown, false, v.error, Some(transcript), Some(userUrl), Some(aiUrl)),
         outbox := Outbox(s.outbox.saved + drafts, s.outbox.queries + AsSeq(v.query)))
  }

  /** `handleResetFlow`. */
  function ResetStep(s: FlowState): FlowState {
    s.(stage := Selection, choice := NO_CHOICE, review := NO_REVIEW)
  }

  /** The scenario and the call screens have the data they show. */
  predicate Supplied(s: FlowState) {
    && (s.stage == Scenario ==> s.choice.scenario.Some?)
    && (s.stage == Roleplaying ==> s.choice.Ready())
  }

  /** The guards of `renderContent`: a stage whose data is missing resets the flow. */
  function RenderStep(s: FlowState): FlowState {
    if Supplied(s) then s else ResetStep(s)
  }

  function Step(s: FlowState, ev: Event): FlowState {
    match ev
    case Proceed(e, d, sc) => s.(stage := Scenario, choice := Choice(Some(e), Some(d), Some(sc)))
    case StartCall => if s.choice.Ready() then s.(stage := Roleplaying) else s
    case CallEnded(ts, u, a, key, o) => CallEndedStep(s, ts, u, a, key, o)
    case BackToSelection => s.(stage := Selection)
    case BackToScenario => s.(stage := Scenario)
    case Reset => ResetStep(s)
    case Render => RenderStep(s)
  }

  /** Every stage has the data it shows. */
  predicate Consistent(s: FlowState) {
    Supplied(s) && (s.stage == Analysis ==> s.review.transcript.Some?)
  }

  // ---------------------------------------------------------------------------
  // Properties

  /** Choosing an exercise records it with its difficulty and scenario and shows the scenario;
      starting the call is then allowed. */
  lemma ProceedThenStart(s: FlowState, e: Exercise, d: Difficulty, sc: ScenarioData)
    ensures var r := Step(s, Proceed(e, d, sc));
      && r.stage == Scenario && r.choice == Choice(Some(e), Some(d), Some(sc))
      && r.review == s.review && r.outbox == s.outbox
      && Step(r, StartCall).stage == Roleplaying
  {
  }

  /** The call starts only with an exercise, a difficulty and a scenario; otherwise nothing changes. */
  lemma StartGuard(s: FlowState)
    ensures s.choice.exercise.Some? && s.choice.difficulty.Some? && s.choice.scenario.Some? ==>
      Step(s, StartCall) == s.(stage := Roleplaying)
    ensures s.choice.exercise.None? || s.choice.difficulty.None? || s.choice.scenario.None? ==>
      Step(s, StartCall) == s
  {
  }

  /** Without an exercise and a difficulty the end of a call is ignored. */
  lemma CallEndedIgnored(s: FlowState, ts: seq<Transcript>, u: string, a: string, key: bool, o: Outcome)
    requires s.choice.exercise.None? || s.choice.difficulty.None?
    ensures Step(s, CallEnded(ts, u, a, key, o)) == s
  {
  }

  /** The end of a call shows the analysis with the transcript and both recordings, and loading
      is over whatever happened. It saves one recording exactly when the call was silent or
      scored, shows an error exactly otherwise, and asks the model only for a non-empty
      transcript with a key, sending the transcript text with the exercise. */
  lemma CallEndedOutcome(s: FlowState, ts: seq<Transcript>, u: string, a: string, key: bool, o: Outcome)
    requires s.choice.exercise.Some? && s.choice.difficulty.Some?
    ensures var r := Step(s, CallEnded(ts, u, a, key, o));
      var saved, queries := s.outbox.saved, s.outbox.queries;
      && r.stage == Analysis && r.choice == s.choice && !r.review.loading
      && r.review.transcript == Some(ts) && r.review.userAudioUrl == Some(u) && r.review.aiAudioUrl == Some(a)
      && (|r.outbox.saved| == |saved| + 1 <==> |ts| == 0 || (key && o.Scored?))
      && (|r.outbox.saved| == |saved| || |r.outbox.saved| == |saved| + 1) && r.outbox.saved[..|saved|] == saved
      && (r.review.error.Some? <==> |ts| > 0 && !(key && o.Scored?))
      && (|r.outbox.queries| == |queries| + 1 <==> |ts| > 0 && key)
      && (|r.outbox.queries| == |queries| || |r.outbox.queries| == |queries| + 1)
      && r.outbox.queries[..|queries|] == queries
      && (|r.outbox.queries| > |queries| ==>
            r.outbox.queries[|queries|] == Query(TranscriptText(ts), s.choice.exercise.value))
  {
  }

  /** A silent call is saved with the placeholder result and without asking the model. */
  lemma SilentCallSaved(s: FlowState, u: string, a: string, key: bool, o: Outcome)
    requires s.choice.exercise.Some? && s.choice.difficulty.Some?
    ensures var r := Step(s, CallEnded([], u, a, key, o));
      && r.review.result == Some(EmptyResult()) && r.review.error == None && r.outbox.queries == s.outbox.queries
      && r.outbox.saved == s.outbox.saved + [RecordingDraft(s.choice.exercise.value, s.choice.difficulty.value, [], EmptyResult(), u, a)]
  {
  }

  /** A scored call shows and saves the model's result. */
  lemma ScoredCallSaved(s: FlowState, ts: seq<Transcript>, u: string, a: string, r0: AnalysisResult)
    requires s.choice.exercise.Some? && s.choice.difficulty.Some? && |ts| > 0
    ensures var r := Step(s, CallEnded(ts, u, a, true, Scored(r0)));
      && r.review.result == Some(r0) && r.review.error == None
      && r.outbox.saved == s.outbox.saved + [RecordingDraft(s.choice.exercise.value, s.choice.difficulty.value, ts, r0, u, a)]
  {
  }

  /** The three failures show their messages and leave the result shown as it was. */
  lemma FailureMessages(s: FlowState, ts: seq<Transcript>, u: string, a: string, m: string)
    requires s.choice.exercise.Some? && s.choice.difficulty.Some? && |ts| > 0
    ensures var r := Step(s, CallEnded(ts, u, a, false, Unparseable));
      r.review.error == Some(ErrorText(MISSING_KEY_TEXT)) && r.review.result == s.review.result
    ensures var r := Step(s, CallEnded(ts, u, a, true, Unparseable));
      r.review.error == Some(ErrorText(UNPARSEABLE_TEXT)) && r.review.result == s.review.result
    ensures var r := Step(s, CallEnded(ts, u, a, true, CallFailed(m)));
      r.review.error == Some(ErrorText(m)) && r.review.result == s.review.result
  {
  }

  /** The reset clears every field and returns to the selection; it keeps what was handed out. */
  lemma ResetClears(s: FlowState)
    ensures Step(s, Reset) == INITIAL.(outbox := s.outbox)
  {
  }

  /** After rendering the scenario and the call screens have their data: rendering changes
      nothing where they have it and resets the flow where not. */
  lemma RenderGuards(s: FlowState)
    ensures Supplied(Step(s, Render))
    ensures s.stage == Scenario && s.choice.scenario.None? ==> Step(s, Render) == Step(s, Reset)
    ensures s.stage == Roleplaying && !s.choice.Ready() ==> Step(s, Render) == Step(s, Reset)
    ensures s.stage == Selection || s.stage == Analysis ==> Step(s, Render) == s
  {
  }

  /** The handlers keep every stage supplied with its data, the back button of the call being
      wired only on the call screen. */
  lemma StepConsistent(s: FlowState, ev: Event)
    requires Consistent(s)
    requires ev.BackToScenario? ==> s.stage == Roleplaying
    ensures Consistent(Step(s, ev))
  {
  }

  // ---------------------------------------------------------------------------
  // The component

  class SelectionFlow {
    var stage: Stage
    var choice: Choice
    var review: Review
    var outbox: Outbox

    function State(): FlowState
      reads this
    {
      FlowState(stage, choice, review, outbox)
    }

    constructor()
      ensures State() == INITIAL
    {
      stage, choice, review, outbox := Selection, NO_CHOICE, NO_REVIEW, Outbox([], []);
    }

    /** `handleProceedToScenario`, with the random draws of `generateScenarioData` supplied. */
    method ProceedToScenario(e: Exercise, d: Difficulty, draws: Content.ScenarioDraws, encodeUri: string -> string)
      modifies this
      ensures State() == Step(old(State()), Proceed(e, d, Content.GenerateScenarioData(e.kind, draws, encodeUri)))
    {
      choice := choice.(exercise := Some(e), difficulty := Some(d));
      var data := Content.GenerateScenarioData(e.kind, draws, encodeUri);
      choice := choice.(scenario := Some(data));
      stage := Scenario;
    }

    method StartRoleplay()
      modifies this
      ensures State() == Step(old(State()), StartCall)
    {
      if choice.exercise.Some? && choice.difficulty.Some? && choice.scenario.Some? {
        stage := Roleplaying;
      }
    }

    method RoleplayEnd(ts: seq<Transcript>, userUrl: string, aiUrl: string, apiKeyPresent: bool, outcome: Outcome)
      modifies this
      ensures State() == Step(old(State()), CallEnded(ts, userUrl, aiUrl, apiKeyPresent, outcome))
    {
      if choice.exercise.None? || choice.difficulty.None? {
        return;
      }
      var e, d := choice.exercise.value, choice.difficulty.value;
      stage := Analysis;
      review := review.(loading := true, error := None, transcript := Some(ts));
      review := review.(userAudioUrl := Some(userUrl), aiAudioUrl := Some(aiUrl));
      if |ts| == 0 {
        var empty := EmptyResult();
        review := review.(result := Some(empty));
        outbox := outbox.(saved := outbox.saved + [RecordingDraft(e, d, ts, empty, userUrl, aiUrl)]);
      } else if !apiKeyPresent {
        review := review.(error := Some(ErrorText(MISSING_KEY_TEXT)));
      } else {
        var text := TranscriptText(ts);
        outbox := outbox.(queries := outbox.queries + [Query(text, e)]);
        match outcome {
          case Scored(r) =>
            review := review.(result := Some(r));
            outbox := outbox.(saved := outbox.saved + [RecordingDraft(e, d, ts, r, userUrl, aiUrl)]);
          case Unparseable =>
            review := review.(error := Some(ErrorText(UNPARSEABLE_TEXT)));
          case CallFailed(m) =>
            review := review.(error := Some(ErrorText(m)));
        }
      }
      review := review.(loading := false);
    }

    method BackToSelection()
      modifies this
      ensures State() == Step(old(State()), Event.BackToSelection)
    {
      stage := Selection;
    }

    method BackToScenario()
      modifies this
      ensures State() == Step(old(State()), Event.BackToScenario)
    {
      stage := Scenario;
    }

    method ResetFlow()
      modifies this
      ensures State() == Step(old(State()), Reset)
    {
      choice := NO_CHOICE;
      review := NO_REVIEW;
      stage := Selection;
    }

    /** The guards of `renderContent`. */
    method RenderContent()
      modifies this
      ensures State() == Step(old(State()), Render)
    {
      match stage {
        case Scenario =>
          if choice.scenario.None? {
            ResetFlow();
          }
        case Roleplaying =>
          if choice.exercise.None? || choice.difficulty.None? || choice.scenario.None? {
            ResetFlow();
          }
        case _ =>
      }
    }
  }
}
