# Sales-roleplay trainer: a verified model of its call session and screens

This project models, in Dafny, the logic of a browser application for training real-estate
consultants. The user signs in, takes a DISC profile questionnaire, picks an exercise and a
difficulty, and talks by voice to a simulated lead over a live audio session. A remote model
scores the call afterwards, and the user reviews their history and daily goals.

The centre of the model is the live call (`Roleplay`, roleplay_screen.dfy). The component's refs and
state cells are the fields of the class `Roleplay.Session`:
- the status (IDLE, CONNECTING, LISTENING, SPEAKING, ENDED, ERROR);
- the committed transcript and the two transcription accumulators;
- the playback cursor `nextStartTimeRef`, every scheduled playback, the set of live sources and
  the decoded AI chunks;
- the connection flags, the recorder chunks and the frames sent;
- the countdown;
- the artifacts handed to `onRoleplayEnd`.

Every callback is one method of the class, and `Handle(ev)` dispatches an `Event`: `Start`,
`Opened`, `Incoming(message)`, `SourceEnded`, `Errored`, `Closed`, `Tick`, `HangUp`, `Frame`,
`RecorderData`. Each method is proved to change the state exactly as the pure transition
`Roleplay.Step` says. The properties are lemmas about `Step`: transcript accumulation and flushing,
scheduling at `max(cursor, now)`, the interruption reset, the live-source set, the idempotent
`endCall`, the combined AI audio, frame and message gating, and the countdown. An invariant kept
by every event is proved as `StepInv`/`RunInv`. Time is `real` and exact. Each audio part carries
its decoded bytes, its decoded duration and the output clock's `currentTime`.

The other modules follow the other source files:
- `Flow` (selection_flow.dfy): the call flow selection → scenario → roleplay → analysis.
- `Content` (constants.ts): exercise table, random scenario personas, system and scoring prompts.
- `DiscQuiz`: the DISC questionnaire and its scoring.
- `Auth`: sign-in and registration validation.
- `App`: the application shell and its record store.
- `Goals`: daily goals.
- `Profile`: profile statistics and the name/brand editor.
- `Dashboard` (selection_screen.dfy): the widget slots and the start guard.

`Types` mirrors types.ts. `Util` holds `Option`, bytes and JavaScript's `String(n)`/`padStart`/`Math.round`.

Randomness (`Math.random`), the clock, the calendar day of a date, `encodeURIComponent`, the
presence of the API key, microphone permission and the outcome of the remote scoring call are
parameters. Browser storage is a field (`App.Shell.storage`, `Auth.AuthState.stored`).

## Model

| member | source | states |
|---|---|---|
| Roleplay.JsRem | components/RoleplayScreen.tsx:23 | the seconds field uses JavaScript `%`: the sign follows the dividend, and it agrees with the mathematical remainder for a non-negative time |
| Roleplay.TimerTextRoundTrip | components/RoleplayScreen.tsx:21-28 | for 0 ≤ timeLeft < 6000 the timer shows five characters `mm:ss`, and reading them back gives minutes·60 + seconds = timeLeft |
| Roleplay.TrimStartSpec | components/RoleplayScreen.tsx:234-235 | leading trim removes only whitespace and stops at the first other character |
| Roleplay.TrimEndSpec | components/RoleplayScreen.tsx:234-235 | trailing trim removes only whitespace and stops at the last other character |
| Roleplay.TrimSpec | components/RoleplayScreen.tsx:234-235 | `trim` gives a contiguous slice of its input whose ends are not whitespace; it is empty exactly when the input is all whitespace |
| Roleplay.TrimIdempotent | components/RoleplayScreen.tsx:234-235 | trimming a trimmed text changes nothing |
| Roleplay.FlattenLength | components/RoleplayScreen.tsx:115 | the combined buffer is as long as the sum of the chunk lengths (`totalLength`) |
| Roleplay.FlattenLayout | components/RoleplayScreen.tsx:115-121 | chunk i sits unchanged at offset `sum of lengths before i`: the buffer is the chunks in arrival order |
| Roleplay.FlattenAppend | components/RoleplayScreen.tsx:251 | a newly pushed chunk only extends the combined audio at its end |
| Roleplay.CopyInto | components/RoleplayScreen.tsx:119 | `set(chunk, offset)` overwrites exactly the bytes from offset to offset+|chunk| with the chunk |
| Roleplay.CombineChunks | components/RoleplayScreen.tsx:115-121 | the reduce and the copy loop yield an array whose length is the total length and whose contents are the chunks concatenated in order |
| Roleplay.VoiceFor | components/RoleplayScreen.tsx:174 | the voice is "Puck" exactly for a male lead, otherwise "Charon" |
| Roleplay.IdleIgnoresAllButStart | components/RoleplayScreen.tsx:33-57 | before `startSession` runs, every other event leaves the initial state unchanged |
| Roleplay.StartOutcome | components/RoleplayScreen.tsx:145-170 | start-up: a refused microphone gives ERROR before a recorder exists; a missing API key gives ERROR after recording started; otherwise the session is requested and status is CONNECTING, with each failure's message |
| Roleplay.StartOnce | components/RoleplayScreen.tsx:143-147 | a second start after leaving IDLE changes nothing |
| Roleplay.OpenedEffect | components/RoleplayScreen.tsx:186-189 | `onopen` sets LISTENING and marks the connection open unless the call is over, and it touches neither transcript nor deliveries |
| Roleplay.EntriesShape | components/RoleplayScreen.tsx:236-241 | a turn adds the user entry then the AI entry, each only if its text is non-empty, so no entry is empty |
| Roleplay.FragmentsAccumulate | components/RoleplayScreen.tsx:226-231 | a message without turn-complete only appends its fragments to the two accumulators |
| Roleplay.TurnCompleteFlush | components/RoleplayScreen.tsx:233-245 | turn-complete appends the trimmed user text and then the trimmed AI text, each only if non-empty, and clears both accumulators |
| Roleplay.TranscriptAppendOnly | components/RoleplayScreen.tsx:237-241 | no event removes or rewrites a committed transcript entry |
| Roleplay.AudioPlacement | components/RoleplayScreen.tsx:247-268 | a chunk starts at max(cursor, now), is appended to the schedule and the kept chunks, and is added to the live set; the cursor moves to its end and status becomes SPEAKING; an interruption in the same message stops it too |
| Roleplay.NoPlaybackWithoutOutput | components/RoleplayScreen.tsx:248 | without an output context, audio is neither scheduled nor kept |
| Roleplay.InterruptResets | components/RoleplayScreen.tsx:271-275 | an interruption stops every live source, empties the set and sets the cursor to 0 |
| Roleplay.StartsNowAfterReset | components/RoleplayScreen.tsx:253 | after the cursor was reset to 0, the next chunk starts exactly at the output clock's now |
| Roleplay.NoOverlap | components/RoleplayScreen.tsx:253-267 | of two chunks received one after the other, the first not interrupting, the second starts no earlier than the first one's end, and exactly at it when it arrives before that end |
| Roleplay.SourceEndedEffect | components/RoleplayScreen.tsx:259-264 | a finished source leaves the live set; status becomes LISTENING only if the set is now empty and the call is not ENDED |
| Roleplay.EndCallIgnored | components/RoleplayScreen.tsx:91 | `endCall` does nothing in ENDED or IDLE |
| Roleplay.EndCallDelivers | components/RoleplayScreen.tsx:90-124 | otherwise `endCall` sets ENDED, closes the requested session, cleans up (sources stopped, cursor 0, disconnected), stops the recorder and delivers one artifact |
| Roleplay.EndCallIdempotent | components/RoleplayScreen.tsx:90-92 | ending twice equals ending once: the second call delivers nothing |
| Roleplay.ArtifactContents | components/RoleplayScreen.tsx:107-122 | the final transcript is the committed one followed by the untrimmed user and AI accumulators, each if non-empty; the AI audio is all chunks back to back at 24000 Hz mono |
| Roleplay.ErroredEffect | components/RoleplayScreen.tsx:277-283 | `onerror` records the connection message without checking for ENDED and cleans up; it sets ERROR and delivers nothing unless the countdown has run out, in which case the countdown effect re-run by the status change (:128-129) ends the call and delivers exactly one artifact |
| Roleplay.ClosedEndsSilently | components/RoleplayScreen.tsx:285-288 | `onclose` marks the connection closed and sets ENDED without delivering, so a later hang-up delivers nothing |
| Roleplay.EndedIsInert | components/RoleplayScreen.tsx:186-220 | once ENDED, start, `onopen`, `onmessage`, ticks, hang-up and microphone frames change nothing |
| Roleplay.FrameGate | components/RoleplayScreen.tsx:202-203 | a microphone frame is sent exactly when status is not ENDED and the connection is open, appended after earlier frames |
| Roleplay.RecorderKeepsChunks | components/RoleplayScreen.tsx:165 | the recorder keeps exactly its non-empty chunks, in order |
| Roleplay.TimerStartsOnAudio | components/RoleplayScreen.tsx:222-224 | the countdown starts only on a live message that carries inline audio |
| Roleplay.TickEffect | components/RoleplayScreen.tsx:128-133 | a tick does nothing before the countdown started or once ENDED; otherwise it takes one second off |
| Roleplay.TicksCountDown | components/RoleplayScreen.tsx:131 | k ticks with more than k seconds left only subtract k |
| Roleplay.LastTick | components/RoleplayScreen.tsx:129 | the tick that reaches 0 runs `endCall` and delivers the artifact |
| Roleplay.CountdownEndsCall | components/RoleplayScreen.tsx:128-133 | a started countdown ends the call after exactly the seconds left, delivering one artifact |
| Roleplay.LateErrorDeliversTwice | components/RoleplayScreen.tsx:277-283 | an error after hang-up leaves ENDED; hang-up, error, hang-up delivers two artifacts in all (the second from the error itself when the countdown has run out, else from the second hang-up) |
| Roleplay.ErrorAfterCountdownDelivers | components/RoleplayScreen.tsx:128-133 | an error after the countdown ended the call re-runs the countdown effect, which delivers a second artifact at once |
| Roleplay.StepInv | components/RoleplayScreen.tsx:219-288 | every event keeps the invariant: transcript entries non-empty and trimmed, one kept chunk per playback, live sources scheduled and not ended, cursor 0 or at the end of the last playback |
| Roleplay.RunInv | components/RoleplayScreen.tsx:33-57 | every event sequence from the initial state keeps that invariant |
| Roleplay.Session.constructor | components/RoleplayScreen.tsx:33-57 | the refs start as IDLE, empty transcript and accumulators, cursor 0, no sources, 600 seconds |
| Roleplay.Session.StartSession | components/RoleplayScreen.tsx:145-170 | `startSession` changes the state as `Step` with `Start` |
| Roleplay.Session.Cleanup | components/RoleplayScreen.tsx:64-88 | `cleanup` stops and clears the live sources, zeroes the cursor, drops the output context and marks the session disconnected |
| Roleplay.Session.OnOpen | components/RoleplayScreen.tsx:186-189 | `onopen` as `Step` with `Opened` |
| Roleplay.Session.HearMessage | components/RoleplayScreen.tsx:226-245 | the transcription part of `onmessage` changes only the transcript and accumulators, as `Hear` |
| Roleplay.Session.PlayMessage | components/RoleplayScreen.tsx:247-275 | the audio and interruption part of `onmessage` changes only the output state and status, as `Play` |
| Roleplay.Session.OnMessage | components/RoleplayScreen.tsx:219-276 | `onmessage` in the order transcription, turn-complete, audio, interruption, as `Step` with `Incoming` |
| Roleplay.Session.OnSourceEnded | components/RoleplayScreen.tsx:259-264 | the `ended` listener as `Step` with `SourceEnded` |
| Roleplay.Session.OnError | components/RoleplayScreen.tsx:277-284 | `onerror` followed by the countdown effect (:128-129) it re-runs, as `Step` with `Errored` |
| Roleplay.Session.OnClose | components/RoleplayScreen.tsx:285-288 | `onclose` as `Step` with `Closed` |
| Roleplay.Session.HandOver | components/RoleplayScreen.tsx:107-124 | appends the artifact of the state before the call: final transcript, recorder chunks, combined AI audio |
| Roleplay.Session.EndCall | components/RoleplayScreen.tsx:90-126 | `endCall` as `Step` with `HangUp` |
| Roleplay.Session.OnTick | components/RoleplayScreen.tsx:128-133 | one interval tick and the effect's end check, as `Step` with `Tick` |
| Roleplay.Session.OnAudioProcess | components/RoleplayScreen.tsx:202-215 | `onaudioprocess` gating, as `Step` with `Frame` |
| Roleplay.Session.OnRecorderData | components/RoleplayScreen.tsx:165 | `ondataavailable`, as `Step` with `RecorderData` |
| Roleplay.Session.Handle | components/RoleplayScreen.tsx:185-289 | every event dispatched to its callback changes the state as `Step` |
| Flow.Lines | components/SelectionFlow.tsx:87 | one line per entry, in order: "VENDEDOR: text" for the user, "CLIENTE: text" for the AI |
| Flow.LineRoundTrip | components/SelectionFlow.tsx:87 | a line reads back as the entry it shows |
| Flow.SplitJoin | components/SelectionFlow.tsx:87 | joining single lines with "\n" and splitting again gives the lines back |
| Flow.ParseLinesOfLines | components/SelectionFlow.tsx:87 | reading the lines back gives the transcript |
| Flow.TranscriptTextRoundTrip | components/SelectionFlow.tsx:87 | the scoring text of a non-empty transcript whose entries are single lines reads back as that transcript, so it holds every entry in order |
| Flow.EmptyResult | components/SelectionFlow.tsx:62-68 | the placeholder result has score 0, is not qualified, and has one failed point and one next step |
| Flow.ErrorText | components/SelectionFlow.tsx:122 | the analysis error is the fixed prefix followed by the failure's message |
| Flow.PromptShowsCall | components/SelectionFlow.tsx:87-88 | the scoring prompt contains the exercise goal and, just before its closing text, the transcript text, which reads back as the transcript |
| Flow.ProceedThenStart | components/SelectionFlow.tsx:33-45 | proceeding records exercise, difficulty and scenario and shows 'scenario'; starting the call is then allowed |
| Flow.StartGuard | components/SelectionFlow.tsx:41-45 | the call starts only when exercise, difficulty and scenario are all set; otherwise nothing changes |
| Flow.CallEndedIgnored | components/SelectionFlow.tsx:48 | the end of a call without an exercise or a difficulty changes nothing |
| Flow.CallEndedOutcome | components/SelectionFlow.tsx:47-125 | shows 'analysis' with transcript and both URLs, loading false on every path; saves once iff the call was silent or scored; shows an error iff not; queries the model iff the transcript is non-empty and there is a key |
| Flow.SilentCallSaved | components/SelectionFlow.tsx:61-79 | an empty transcript saves the placeholder result with no model call |
| Flow.ScoredCallSaved | components/SelectionFlow.tsx:108-117 | a parsed reply is shown and saved with the recording |
| Flow.FailureMessages | components/SelectionFlow.tsx:82-122 | a missing key, an unparseable reply and a failed call each show their own message and leave the shown result as it was |
| Flow.ResetClears | components/SelectionFlow.tsx:136-147 | the reset clears every field and returns to 'selection', keeping only what was already handed out |
| Flow.RenderGuards | components/SelectionFlow.tsx:149-165 | rendering 'scenario' or 'roleplay' with its data missing resets the flow; otherwise rendering changes nothing |
| Flow.StepConsistent | components/SelectionFlow.tsx:149-165 | the handlers keep every stage supplied with the data it shows |
| Flow.SelectionFlow.constructor | components/SelectionFlow.tsx:20-31 | the flow starts at 'selection' with nothing chosen |
| Flow.SelectionFlow.ProceedToScenario | components/SelectionFlow.tsx:33-39 | `handleProceedToScenario` as `Step` with the generated scenario |
| Flow.SelectionFlow.StartRoleplay | components/SelectionFlow.tsx:41-45 | `handleStartRoleplay` as `Step` with `StartCall` |
| Flow.SelectionFlow.RoleplayEnd | components/SelectionFlow.tsx:47-126 | `handleRoleplayEnd` as `Step` with `CallEnded` |
| Flow.SelectionFlow.BackToSelection | components/SelectionFlow.tsx:128-130 | back to 'selection', nothing else changes |
| Flow.SelectionFlow.BackToScenario | components/SelectionFlow.tsx:132-134 | back to 'scenario', nothing else changes |
| Flow.SelectionFlow.ResetFlow | components/SelectionFlow.tsx:136-147 | `handleResetFlow` as `Step` with `Reset` |
| Flow.SelectionFlow.RenderContent | components/SelectionFlow.tsx:149-165 | the guards of `renderContent` as `Step` with `Render` |
| Content.ExerciseIdInjective | constants.ts:4-35 | the catalogue entries have distinct ids |
| Content.KindIndex | constants.ts:4-35 | every exercise type has a position in the catalogue |
| Content.ExercisesTable | constants.ts:4-35 | the five catalogue entries have distinct types, each at its own position |
| Content.RandomIndex | constants.ts:46 | `Math.floor(u * n)` is a valid index for 0 ≤ u < 1 |
| Content.GetRandom | constants.ts:46 | `getRandom` always returns a member of its array |
| Content.GenderOf | constants.ts:49 | the lead is male exactly when the draw exceeds 0.5 |
| Content.GenerateScenarioData | constants.ts:48-103 | the name comes from the gender's list and the brand from BRANDS; each exercise type gets its own fields (QUALIFY: experience and revenue; COLD_QUALIFY: propertiesAcquired; EMOTION: adds digitalAdoption; PROPOSAL/OBJECTIONS: adds dreamOrFear), each drawn from its table; the two qualification calls open with "Alô?" |
| Content.DiscAdjustment | constants.ts:122-137 | no DISC type gives ""; D, I, S and C each give their fixed text |
| Content.SystemBaseQuotes | constants.ts:142-155 | the base instruction quotes the lead's name, the opening phrase, the persona, the difficulty text and the DISC text verbatim |
| Content.SystemPromptFrom | constants.ts:142-170 | the instruction is the base followed by the suffix, and it contains each quoted text |
| Content.SuffixKeyShared | constants.ts:158-169 | QUALIFY and COLD_QUALIFY share one suffix; every other type has its own |
| Content.GenerateSystemPrompt | constants.ts:139-170 | the system prompt is the base (name, phrase, drawn persona, difficulty, DISC text of the user's profile) followed by the exercise's suffix |
| Content.GoalKeyShared | constants.ts:174-189 | QUALIFY and COLD_QUALIFY share one goal; every other type has its own |
| Content.AnalysisPromptFrom | constants.ts:191-209 | the scoring template is a header containing the goal, then the transcript, then the closing whitespace |
| Content.GenerateAnalysisPrompt | constants.ts:173-209 | the analysis prompt contains the exercise goal and ends with the supplied transcript followed by the template's closing whitespace |
| DiscQuiz.OrderIndex | components/DiscTestModal.tsx:150 | every type has its position in the scan order D, I, S, C |
| DiscQuiz.QuestionsShape | components/DiscTestModal.tsx:9-100 | there are 10 questions, each with 4 options typed D, I, S, C in that order |
| DiscQuiz.TallySum | components/DiscTestModal.tsx:142-145 | the four tallies add up to the number of answers |
| DiscQuiz.LeaderIsFirstMaximum | components/DiscTestModal.tsx:147-155 | after scanning k types, the leader holds the highest count seen and every type scanned before it has a strictly lower count |
| DiscQuiz.WinnerIsFirstMaximum | components/DiscTestModal.tsx:147-155 | the winner's count is the highest; a type before it in D, I, S, C order has a strictly lower count; no answers gives D |
| DiscQuiz.WinnerUnique | components/DiscTestModal.tsx:147-155 | those two properties determine the winner |
| DiscQuiz.ProfileOf | components/DiscTestModal.tsx:157-163 | the result's type, label, description and strategy are the `DISC_INFO` entry of the winner |
| DiscQuiz.CalculateResult | components/DiscTestModal.tsx:141-164 | the counting reduce and the forEach scan return the profile of the first type with the highest count |
| DiscQuiz.Answered | components/DiscTestModal.tsx:130-139 | an answer is appended; the step advances while step < 9, and after the last question the result of all answers is set |
| DiscQuiz.QuizRun | components/DiscTestModal.tsx:130-139 | from a fresh quiz the first nine answers only advance the step, and the tenth sets the profile of all ten |
| DiscQuiz.ProgressValue | components/DiscTestModal.tsx:192 | the progress bar at step s is (s+1)·10 percent, 100 on the last question |
| DiscQuiz.Quiz.constructor | components/DiscTestModal.tsx:126-128 | the quiz starts at step 0 with no answers and no result |
| DiscQuiz.Quiz.HandleAnswer | components/DiscTestModal.tsx:130-139 | `handleAnswer` changes the state as `Answered` |
| Auth.ToLower | components/AuthScreen.tsx:33 | lower-casing keeps the length and folds each character |
| Auth.ToLowerIdempotent | components/AuthScreen.tsx:33 | lower-casing twice is lower-casing once |
| Auth.SameEmailCase | components/AuthScreen.tsx:33 | addresses that match up to case have the same length, an address matches its lower-cased form, and equal addresses match |
| Auth.FindByEmail | components/AuthScreen.tsx:33 | `find` returns the first user whose address matches ignoring case, or none iff no user matches |
| Auth.FindIffTaken | components/AuthScreen.tsx:47 | `find` succeeds exactly when `some` holds |
| Auth.SignInOutcome | components/AuthScreen.tsx:32-45 | an unknown address gives "not found"; a known one with another password gives "incorrect password"; sign-in succeeds iff the first match has the password, and signs in that user |
| Util.JsLength | components/AuthScreen.tsx:54 | `password.length` counts UTF-16 units: between the number of characters and twice it, and equal to it when every character lies in the Basic Multilingual Plane |
| Auth.RegisterOutcome | components/AuthScreen.tsx:46-71 | a taken address is refused before the password length is checked; a password shorter than 6 UTF-16 units (`password.length`) is refused; otherwise a pending user with brand defaulting to 'Independente' and no DISC profile |
| Auth.WidePasswordAccepted | components/AuthScreen.tsx:54-57 | a three-character password of characters outside the Basic Multilingual Plane has length 6 and is accepted |
| Auth.SubmitStoresNothing | components/AuthScreen.tsx:25-72 | submitting never changes the stored users or the mode |
| Auth.DiscCompleteEffect | components/AuthScreen.tsx:74-86 | without a pending user nothing happens; otherwise the user with the profile is appended after all earlier users and signed in |
| Auth.ToggleClearsError | components/AuthScreen.tsx:20-23 | switching mode flips it and clears the error; switching twice restores the mode |
| Auth.RegistryKeptBySubmit | components/AuthScreen.tsx:47-70 | submitting keeps the stored addresses distinct and a pending user's address free |
| Auth.RegistryKeptByCompletion | components/AuthScreen.tsx:74-86 | completing the questionnaire never stores two accounts with the same address |
| Auth.AuthScreen.constructor | components/AuthScreen.tsx:12-18 | the screen starts in sign-in mode over the stored users, with no error and no pending user |
| Auth.AuthScreen.HandleSubmit | components/AuthScreen.tsx:25-72 | `handleSubmit` changes the state as `SubmitStep` |
| Auth.AuthScreen.HandleDiscComplete | components/AuthScreen.tsx:74-86 | `handleDiscComplete` changes the state as `DiscCompleteStep` |
| Auth.AuthScreen.ToggleMode | components/AuthScreen.tsx:167 | the mode button flips the mode and clears the error |
| App.UserRecordings | App.tsx:46-51 | the filter keeps only recordings of the user |
| App.UserRecordingsMembers | App.tsx:49 | a recording is kept iff it is stored and its userId matches |
| App.UserRecordingsAppend | App.tsx:49 | the filter keeps the stored order: filtering a concatenation concatenates the filtered parts |
| App.ReplaceById | App.tsx:92 | the map keeps the length, puts the updated user where the id matches and leaves every other user unchanged |
| App.ReplaceByIdProperties | App.tsx:85-93 | replacing twice equals replacing once; a list without the id is unchanged; with the id, the updated user appears |
| App.Stamp | App.tsx:70-75 | the saved record is the draft with the given id, the current user's id and the date |
| App.PrependKeepsInSync | App.tsx:77-82 | prepending the stamped record to both lists keeps the shown list equal to the user's part of the stored list |
| App.Toggled | App.tsx:41 | toggling always changes the theme |
| App.ToggleTwice | App.tsx:40-44 | toggling twice restores the theme |
| App.Shell.constructor | App.tsx:14-17 | nobody signed in, page 'selection', no recordings, dark theme |
| App.Shell.Restore | App.tsx:20-38 | the mount effect restores the stored user with their recordings and the stored theme |
| App.Shell.ToggleTheme | App.tsx:40-44 | flips the theme and stores it; nothing else changes |
| App.Shell.LoadUserRecordings | App.tsx:46-51 | the shown recordings become the user's stored recordings |
| App.Shell.HandleLogin | App.tsx:53-58 | sets and stores the user, loads their recordings, resets the page to 'selection' |
| App.Shell.HandleLogout | App.tsx:60-65 | clears the user and the recordings and resets the page to 'selection' |
| App.Shell.AddRecording | App.tsx:67-83 | without a user nothing changes; otherwise the stamped record is prepended to the stored and to the shown list |
| App.Shell.HandleUpdateProfile | App.tsx:85-94 | the updated user becomes current and replaces the stored users with its id |
| App.Shell.Navigate | App.tsx:118 | the navigation changes only the page |
| Goals.IsTodayIff | components/GoalsScreen.tsx:12-17 | `isToday` holds exactly when day, month and year all equal today's |
| Goals.TodayRecordings | components/GoalsScreen.tsx:53 | only today's recordings are kept |
| Goals.TodayMembers | components/GoalsScreen.tsx:53-54 | a recording is counted today iff it is among the recordings and dated today |
| Goals.CountsAreOccurrences | components/GoalsScreen.tsx:56-59 | each type's entry is its number of recordings; an absent type reads as 0 |
| Goals.KindCountsSum | components/GoalsScreen.tsx:56-59 | the five per-type counts add up to the number of recordings |
| Goals.PercentageBounds | components/GoalsScreen.tsx:19-21 | the bar is between 0 and 100 percent and full exactly when the goal is completed (value ≥ max) |
| Goals.BarsFor | components/GoalsScreen.tsx:122-128 | one bar per goal, showing that type's count or 0, against the per-exercise goal |
| Goals.BoardShowsToday | components/GoalsScreen.tsx:53-67 | five bars with distinct types, each showing that type's count of today's calls against 2; together they add up to the calls today |
| Goals.MessageRemaining | components/GoalsScreen.tsx:92-94 | below 10 calls the message reports 10 − callsToday remaining; otherwise it shows the success text |
| Profile.ScoreSumBounds | components/ProfileScreen.tsx:18 | the sum of the (real-valued) scores lies between n·lowest and n·highest |
| Profile.AverageWithinScores | components/ProfileScreen.tsx:16-19 | the average is 0 without recordings; otherwise the rounded mean lies between any whole-number bounds of the scores |
| Profile.QualifiedCount | components/ProfileScreen.tsx:20 | the qualified count never exceeds the calls; it equals them iff all are qualified and is 0 iff none is |
| Profile.LevelThresholds | components/ProfileScreen.tsx:125 | Master above 50 calls, Advanced from 11 to 50, Beginner up to 10; more calls never lower the level |
| Profile.Edited | components/ProfileScreen.tsx:23 | the saved user differs from the old one only in name and brand |
| Profile.EditedProperties | components/ProfileScreen.tsx:23 | saving the unchanged fields gives the user back; a second edit overrides the first |
| Profile.ProfileEditor.constructor | components/ProfileScreen.tsx:12-14 | the editor starts with the user's name and brand, not editing |
| Profile.ProfileEditor.StartEditing | components/ProfileScreen.tsx:62 | enters edit mode |
| Profile.ProfileEditor.SetName | components/ProfileScreen.tsx:46 | the name field takes the typed value |
| Profile.ProfileEditor.SetBrand | components/ProfileScreen.tsx:50 | the brand field takes the typed value |
| Profile.ProfileEditor.HandleSave | components/ProfileScreen.tsx:22-25 | hands over the user with only name and brand replaced, and leaves edit mode |
| Profile.ProfileEditor.Cancel | components/ProfileScreen.tsx:54 | leaves edit mode without handing anything over |
| Dashboard.ChangeWidget | components/SelectionScreen.tsx:26-31 | the new slots keep the length, slot `index` holds the chosen widget, and the other slots are unchanged |
| Dashboard.ChangeWidgetUndo | components/SelectionScreen.tsx:26-31 | putting back the old widget undoes a change; the last change of a slot wins |
| Dashboard.ToggleCustomizer | components/SelectionScreen.tsx:55 | the menu closes when the clicked slot's menu is open and otherwise opens that slot's menu |
| Dashboard.ToggleTwice | components/SelectionScreen.tsx:55 | clicking the same slot twice closes the menu; clicking another slot moves it |
| Dashboard.StartRequest | components/SelectionScreen.tsx:20-24 | the call is requested iff both exercise and difficulty are selected, with those two |
| Dashboard.DashboardExercises | components/SelectionScreen.tsx:202 | the dashboard shows three exercise cards |
| Dashboard.DashboardShowsFirstThree | components/SelectionScreen.tsx:202 | the cards are the first three catalogue entries: QUALIFY, COLD_QUALIFY, EMOTION |
| Dashboard.SelectionScreen.constructor | components/SelectionScreen.tsx:13-18 | widgets start as [OVERALL, WEEKLY, MONTHLY], no menu open, nothing selected |
| Dashboard.SelectionScreen.HandleStart | components/SelectionScreen.tsx:20-24 | `onStart` is called iff both exercise and difficulty are selected |
| Dashboard.SelectionScreen.ChangeWidgetAt | components/SelectionScreen.tsx:26-31 | copies the slots, overwrites one, and closes the menu |
| Dashboard.SelectionScreen.ToggleCustomizerAt | components/SelectionScreen.tsx:55 | the menu button as `ToggleCustomizer` |
| Dashboard.SelectionScreen.SelectExercise | components/SelectionScreen.tsx:205 | a dashboard card selects its exercise |
| Dashboard.SelectionScreen.PickFromList | components/SelectionScreen.tsx:166 | picking from the full list selects that exercise and closes the list |
| Dashboard.SelectionScreen.SetShowAllExercises | components/SelectionScreen.tsx:194 | opens or closes the full list |
| Dashboard.SelectionScreen.SelectDifficulty | components/SelectionScreen.tsx:239 | selects the difficulty |
| Dashboard.SelectionScreen.CancelSelection | components/SelectionScreen.tsx:252 | cancel clears both selections |

## Behaviour of the code worth knowing

- An interruption resets the playback cursor to 0 (components/RoleplayScreen.tsx:274), not to the output clock's current time. The next chunk still starts at the current time because of the `max` at :253 (`InterruptResets`, `StartsNowAfterReset`).
- ENDED and ERROR are not terminal. `endCall` returns early only on ENDED or IDLE (:91), so it runs from ERROR, and a countdown that reaches 0 in ERROR ends the call with an artifact (:128-129). `onerror` does not check for ENDED (:277-283), so ENDED → ERROR happens, and the call is then handed over a second time (`LateErrorDeliversTwice`, `ErrorAfterCountdownDelivers`).
- `onerror` itself hands nothing over unless the countdown has already run out; a later `endCall` from ERROR hands over the transcript and audio accumulated so far (`ErroredEffect`).
- The end-call flush does not trim the accumulators (:109-110), while turn-complete does (:234-235). The model's transcript invariant (entries non-empty and trimmed) therefore covers only the committed transcript.

## Left out

- Audio devices and plumbing: microphone acquisition, `AudioContext`, `MediaRecorder`, the script processor, `connect`/`disconnect`, context `close`/`resume`, and the suspended-audio banner. The model has only their outcomes: microphone permission is a parameter, recorder chunks and frames are events, and the output context is a flag.
- `encode`, `decode`, `decodeAudioData` and `pcmToWav` come from `utils/audioUtils`, which is not part of this model. An audio part arrives already decoded, with its duration. The WAV container is recorded as its arguments (`Roleplay.Wav`), and no round-trip or header property is claimed.
- The float sample conversion `clip(x) * 32767` in `onaudioprocess` is floating-point numerics. A frame is given as its converted samples; only the gating around it is modelled.
- Profile.AverageScore: scores are added and divided as exact reals, not IEEE doubles (components/ProfileScreen.tsx:18). The two agree for the whole-number scores the scoring prompt asks for, up to the rounding of very large sums.
- The remote AI services are foreign network calls: the live session and `generateContent`. How the scoring call ended, and whether an API key is present, are parameters. The live session's callbacks are the event stream, and `session.close()` is a flag.
- JSON parsing of the scoring reply is left out; the reply is given as parsed, unparseable or failed.
- Async ordering is left out: `sessionPromise.then`, the `await`s in `onmessage` and `endCall`, and the `isActive` closure guards. Events are handled one at a time. Events from a session that was never requested, and `ended` events for sources never scheduled or already ended, do nothing.
- React's stale closures are not modelled: `endCall` reads the committed transcript as it stands.
- Browser and environment APIs are parameters or fields: `localStorage` (with the JSON encoding and the removal of a corrupted stored session), `Date.now`/`new Date`, `Math.random`, `encodeURIComponent`, `URL.createObjectURL` and `process.env`. `toLowerCase` is ASCII case folding.
- The mapping of a stored ISO date to a local calendar day (`new Date(rec.date)`, `getDate`/`getMonth`/`getFullYear`) is a parameter of the goals screen.
- The literal texts of the prompts, personas, difficulty modifiers, questions and DISC descriptions are tables. Properties are stated about which text each case selects, not about their wording.
- Rendering and styling are presentation only: all JSX, `Sidebar.tsx`, `Layout.tsx`, `RecordingsScreen.tsx`, `ScenarioScreen.tsx`, `AnalysisScreen.tsx`, the score colour bands and the ring offset.
- `Roleplay.TimerTextRoundTrip` is stated for 0 ≤ timeLeft < 6000. Above that the minutes need more than two digits. Below 0 the display shows the JavaScript remainder (modelled by `JsRem`), which the countdown never reaches while running.
