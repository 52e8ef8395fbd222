/** The daily training goals (GoalsScreen.tsx): today's calls, their count per exercise type,
    the progress bars and the message under the day's total.

    Turning a recording's ISO date into a local calendar day, and reading today's date from
    the clock, are the browser's: both are supplied by the caller. */
module Goals {
  import opened Util
  import opened Types

  const GOAL_TOTAL_CALLS: nat := 10
  const GOAL_PER_EXERCISE: nat := 2

  /** A local calendar day: `getDate()`, `getMonth()` and `getFullYear()`. */
  datatype Day = Day(date: int, month: int, year: int)

  /** `isToday`. */
  predicate IsToday(d: Day, today: Day) {
    d.date == today.date && d.month == today.month && d.year == today.year
  }

  /** The three comparisons amount to being the same day. */
  lemma IsTodayIff(d: Day, today: Day)
    ensures IsToday(d, today) <==> d == today
  {
  }

  /** `todayRecordings`, with `dayOf` the local day of a stored date. */
  function TodayRecordings(recs: seq<Recording>, dayOf: string -> Day, today: Day): (r: seq<Recording>)
    ensures |r| <= |recs|
    ensures forall i :: 0 <= i < |r| ==> IsToday(dayOf(r[i].date), today)
  {
    if recs == [] then []
    else (if IsToday(dayOf(recs[0].date), today) then [recs[0]] else []) + TodayRecordings(recs[1..], dayOf, today)
  }

  /** Only today's recordings are kept, and all of them. */
  lemma {:induction false} TodayMembers(recs: seq<Recording>, dayOf: string -> Day, today: Day, x: Recording)
    ensures x in TodayRecordings(recs, dayOf, today) <==> x in recs && IsToday(dayOf(x.date), today)
  {
    if recs != [] {
      TodayMembers(recs[1..], dayOf, today, x);
      assert recs == [recs[0]] + recs[1..];
    }
  }

  function CallsToday(recs: seq<Recording>, dayOf: string -> Day, today: Day): nat {
    |TodayRecordings(recs, dayOf, today)|
  }

  // ---------------------------------------------------------------------------
  // Counting per type

  /** One step of the `reduce`: the type's entry goes up by one, an absent entry reading as 0. */
  function AddCount(acc: map<ExerciseType, nat>, k: ExerciseType): map<ExerciseType, nat> {
    acc[k := (if k in acc then acc[k] else 0) + 1]
  }

  /** `exerciseCounts`: the `reduce` over the recordings, from the first to the last. */
  function ExerciseCounts(recs: seq<Recording>): map<ExerciseType, nat>
    decreases |recs|
  {
    if recs == [] then map[]
    else AddCount(ExerciseCounts(recs[..|recs| - 1]), recs[|recs| - 1].exercise.kind)
  }

  /** `exerciseCounts[type] || 0`. */
  function CountOr0(counts: map<ExerciseType, nat>, k: ExerciseType): nat {
    if k in counts then counts[k] else 0
  }

  /** The number of recordings of one type. */
  function KindCount(recs: seq<Recording>, k: ExerciseType): nat {
    if recs == [] then 0 else (if recs[0].exercise.kind == k then 1 else 0) + KindCount(recs[1..], k)
  }

  lemma {:induction false} KindCountSnoc(recs: seq<Recording>, x: Recording, k: ExerciseType)
    ensures KindCount(recs + [x], k) == KindCount(recs, k) + (if x.exercise.kind == k then 1 else 0)
  {
    if recs == [] {
      assert recs + [x] == [x];
    } else {
      KindCountSnoc(recs[1..], x, k);
      assert (recs + [x])[1..] == recs[1..] + [x];
    }
  }

  /** Each type's entry is the number of recordings of that type, and a type without
      recordings has no entry. */
  lemma {:induction false} CountsAreOccurrences(recs: seq<Recording>, k: ExerciseType)
    ensures CountOr0(ExerciseCounts(recs), k) == KindCount(recs, k)
    ensures k in ExerciseCounts(recs) <==> KindCount(recs, k) > 0
  {
    if recs != [] {
      var init := recs[..|recs| - 1];
      CountsAreOccurrences(init, k);
      KindCountSnoc(init, recs[|recs| - 1], k);
      assert init + [recs[|recs| - 1]] == recs;
    }
  }

  /** The five types' counts add up to the number of recordings. */
  lemma {:induction false} KindCountsSum(recs: seq<Recording>)
    ensures KindCount(recs, Qualify) + KindCount(recs, ColdQualify) + KindCount(recs, Emotion)
          + KindCount(recs, Proposal) + KindCount(recs, Objections) == |recs|
  {
    if recs != [] {
      KindCountsSum(recs[1..]);
    }
  }

  // ---------------------------------------------------------------------------
  // The progress bars

  /** `ProgressBar`'s width in percent: `Math.min(100, value / max * 100)`. */
  function Percentage(value: nat, max: nat): real
    requires max > 0
  {
    var p := (value as real / max as real) * 100.0;
    if p < 100.0 then p else 100.0
  }

  predicate Completed(value: nat, max: nat) {
    value >= max
  }

  /** The bar never overflows, and it is full exactly when the goal is completed. */
  lemma PercentageBounds(value: nat, max: nat)
    requires max > 0
    ensures 0.0 <= Percentage(value, max) <= 100.0
    ensures Percentage(value, max) == 100.0 <==> Completed(value, max)
  {
    var q, m := value as real / max as real, max as real;
    assert q * m == value as real;
    assert (q - 1.0) * m == value as real - m;
    assert (1.0 - q) * m == m - value as real;
    ScaledSign(q - 1.0, m);
    ScaledSign(1.0 - q, m);
    ScaledSign(q, m);
  }

  datatype Bar = Bar(kind: ExerciseType, title: string, value: nat, max: nat)

  /** The order of `exerciseGoals`. */
  const GOAL_KINDS: seq<ExerciseType> := [Qualify, ColdQualify, Emotion, Proposal, Objections]

  function GoalTitle(k: ExerciseType): string {
    match k
    case Qualify => "Qualificação"
    case ColdQualify => "Qualificação Fria"
    case Emotion => "Reunião: Emocional"
    case Proposal => "Apresentação de Proposta"
    case Objections => "Gestão de Objeções"
  }

  function BarsFor(kinds: seq<ExerciseType>, counts: map<ExerciseType, nat>): (bars: seq<Bar>)
    ensures |bars| == |kinds|
    ensures forall i :: 0 <= i < |kinds| ==>
      bars[i] == Bar(kinds[i], GoalTitle(kinds[i]), CountOr0(counts, kinds[i]), GOAL_PER_EXERCISE)
  {
    if kinds == [] then [] else [Bar(kinds[0], GoalTitle(kinds[0]), CountOr0(counts, kinds[0]), GOAL_PER_EXERCISE)] + BarsFor(kinds[1..], counts)
  }

  /** The bars of `exerciseGoals`, one per type. */
  function Board(today: seq<Recording>): seq<Bar> {
    BarsFor(GOAL_KINDS, ExerciseCounts(today))
  }

  /** One bar per type, each showing that type's count of today's calls against the goal of
      two, and together they show every call of the day. */
  lemma BoardShowsToday(recs: seq<Recording>, dayOf: string -> Day, today: Day)
    ensures var t := TodayRecordings(recs, dayOf, today);
      var bars := Board(t);
      && |bars| == 5
      && (forall i, j :: 0 <= i < j < 5 ==> bars[i].kind != bars[j].kind)
      && (forall i :: 0 <= i < 5 ==> bars[i].value == KindCount(t, bars[i].kind) && bars[i].max == 2)
      && bars[0].value + bars[1].value + bars[2].value + bars[3].value + bars[4].value == CallsToday(recs, dayOf, today)
  {
    var t := TodayRecordings(recs, dayOf, today);
    forall k: ExerciseType
      ensures CountOr0(ExerciseCounts(t), k) == KindCount(t, k)
    {
      CountsAreOccurrences(t, k);
    }
    KindCountsSum(t);
  }

  // ---------------------------------------------------------------------------
  // The day's message

  const SUCCESS_TEXT: string := "Excelente! Meta diária atingida. " + "Você está no caminho certo."
  const REMAINING_BEFORE: string := "Faltam "
  const REMAINING_AFTER: string := " chamadas para completar o treino de hoje."

  function Message(callsToday: nat): string {
    if callsToday >= GOAL_TOTAL_CALLS then SUCCESS_TEXT
    else REMAINING_BEFORE + NatText(GOAL_TOTAL_CALLS - callsToday) + REMAINING_AFTER
  }

  /** Below the goal the message names how many calls remain; at or above it, the success text. */
  lemma MessageRemaining(callsToday: nat)
    ensures callsToday >= 10 ==> Message(callsToday) == SUCCESS_TEXT
    ensures callsToday < 10 ==>
      var m, n := Message(callsToday), |NatText(10 - callsToday)|;
      && |m| == |REMAINING_BEFORE| + n + |REMAINING_AFTER|
      && m[..|REMAINING_BEFORE|] == REMAINING_BEFORE
      && DigitsValue(m[|REMAINING_BEFORE|..|REMAINING_BEFORE| + n]) == 10 - callsToday
      && m[|REMAINING_BEFORE| + n..] == REMAINING_AFTER
  {
    if callsToday < 10 {
      var digits := NatText(10 - callsToday);
      var m := Message(callsToday);
      assert m == REMAINING_BEFORE + digits + REMAINING_AFTER;
      assert m[|REMAINING_BEFORE|..|REMAINING_BEFORE| + |digits|] == digits;
      NatTextRoundTrip(10 - callsToday);
    }
  }
}
