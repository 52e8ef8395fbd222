/** The dashboard (SelectionScreen.tsx): the three customisable widget slots, the exercise and
    difficulty chosen for the next call, and the guard before the call is set up. */
module Dashboard {
  import opened Util
  import opened Types
  import Content

  datatype Widget = OverallStats | WeeklyProgress | MonthlyPerformance | MonthlyGoals

  const INITIAL_WIDGETS: seq<Widget> := [OverallStats, WeeklyProgress, MonthlyPerformance]

  /** The choices of a slot's menu, in the order shown. */
  const WIDGET_MENU: seq<Widget> := [OverallStats, WeeklyProgress, MonthlyPerformance, MonthlyGoals]

  /** The number of slots the dashboard shows. */
  const SLOTS: nat := 3

  /** The label of a widget in a slot's menu (the GOALS widget's own header reads differently). */
  function MenuLabel(w: Widget): string {
    match w
    case OverallStats => "Estatísticas Gerais"
    case WeeklyProgress => "Progresso Semanal"
    case MonthlyPerformance => "Performance"
    case MonthlyGoals => "Metas Mensais"
  }

  /** `changeWidget`'s new array: slot `index` holds `w`, the other slots are as they were. */
  function ChangeWidget(ws: seq<Widget>, index: nat, w: Widget): (r: seq<Widget>)
    requires index < |ws|
    ensures |r| == |ws| && r[index] == w
    ensures forall j :: 0 <= j < |ws| && j != index ==> r[j] == ws[j]
  {
    ws[..index] + [w] + ws[index + 1..]
  }

  /** Putting back what a slot held undoes a change, and the last change of a slot wins. */
  lemma ChangeWidgetUndo(ws: seq<Widget>, index: nat, w: Widget, v: Widget)
    requires index < |ws|
    ensures ChangeWidget(ChangeWidget(ws, index, w), index, ws[index]) == ws
    ensures ChangeWidget(ChangeWidget(ws, index, w), index, v) == ChangeWidget(ws, index, v)
  {
  }

  /** The menu button of slot `index`: it closes the menu that is open there and otherwise
      opens that slot's menu, closing any other. */
  function ToggleCustomizer(active: Option<nat>, index: nat): (r: Option<nat>)
    ensures r == None <==> active == Some(index)
    ensures r != None ==> r == Some(index)
  {
    if active == Some(index) then None else Some(index)
  }

  /** Pressing the same button twice returns to the closed state. */
  lemma ToggleTwice(index: nat, other: nat)
    ensures ToggleCustomizer(ToggleCustomizer(None, index), index) == None
    ensures other != index ==> ToggleCustomizer(Some(other), index) == Some(index)
  {
  }

  /** `handleStart`'s guard: the exercise and the difficulty handed to `onStart`, if any. */
  function StartRequest(exercise: Option<Exercise>, difficulty: Option<Difficulty>): (r: Option<(Exercise, Difficulty)>)
    ensures r.Some? <==> exercise.Some? && difficulty.Some?
    ensures r.Some? ==> r.value.0 == exercise.value && r.value.1 == difficulty.value
  {
    if exercise.Some? && difficulty.Some? then Some((exercise.value, difficulty.value)) else None
  }

  /** The cards of the dashboard: the first three exercises of the catalogue. */
  function DashboardExercises(): (r: seq<Exercise>)
    ensures |r| == 3
  {
    [Content.ExerciseOf(Content.EXERCISE_KINDS[0]), Content.ExerciseOf(Content.EXERCISE_KINDS[1]),
     Content.ExerciseOf(Content.EXERCISE_KINDS[2])]
  }

  lemma DashboardShowsFirstThree()
    ensures forall i :: 0 <= i < 3 ==> DashboardExercises()[i].kind == Content.EXERCISE_KINDS[i]
    ensures DashboardExercises()[0].kind == Qualify && DashboardExercises()[1].kind == ColdQualify
    ensures DashboardExercises()[2].kind == Emotion
  {
  }

  class SelectionScreen {
    var exercise: Option<Exercise>
    var difficulty: Option<Difficulty>
    var showAllExercises: bool
    var widgets: seq<Widget>
    var activeCustomizer: Option<nat>

    /** Three slots, and an open menu belongs to one of them. */
    predicate Valid()
      reads this
    {
      |widgets| == SLOTS && (activeCustomizer.Some? ==> activeCustomizer.value < SLOTS)
    }

    constructor()
      ensures Valid()
      ensures widgets == INITIAL_WIDGETS && activeCustomizer == None
      ensures exercise == None && difficulty == None && !showAllExercises
    {
      exercise, difficulty, showAllExercises := None, None, false;
      widgets, activeCustomizer := INITIAL_WIDGETS, None;
    }

    /** `handleStart`: what is handed to `onStart`; the screen itself does not change. */
    method HandleStart() returns (request: Option<(Exercise, Difficulty)>)
      ensures request.Some? <==> exercise.Some? && difficulty.Some?
      ensures request.Some? ==> request.value == (exercise.value, difficulty.value)
    {
      if exercise.Some? && difficulty.Some? {
        request := Some((exercise.value, difficulty.value));
      } else {
        request := None;
      }
    }

    /** `changeWidget`: copies the slots, overwrites one and closes the menu. */
    method ChangeWidgetAt(index: nat, w: Widget)
      requires Valid() && index < SLOTS
      modifies this
      ensures widgets == ChangeWidget(old(widgets), index, w) && activeCustomizer == None
      ensures exercise == old(exercise) && difficulty == old(difficulty) && showAllExercises == old(showAllExercises)
      ensures Valid()
    {
      var ws := widgets;
      var copy := new Widget[|ws|](i requires 0 <= i < |ws| => ws[i]);
      copy[index] := w;
      assert copy[..] == ChangeWidget(ws, index, w);
      widgets := copy[..];
      activeCustomizer := None;
    }

    method ToggleCustomizerAt(index: nat)
      requires Valid() && index < SLOTS
      modifies this
      ensures activeCustomizer == ToggleCustomizer(old(activeCustomizer), index)
      ensures widgets == old(widgets) && exercise == old(exercise) && difficulty == old(difficulty)
      ensures showAllExercises == old(showAllExercises)
      ensures Valid()
    {
      activeCustomizer := if activeCustomizer == Some(index) then None else Some(index);
    }

    /** A card of the dashboard. */
    method SelectExercise(e: Exercise)
      modifies this
      ensures exercise == Some(e)
      ensures difficulty == old(difficulty) && showAllExercises == old(showAllExercises)
      ensures widgets == old(widgets) && activeCustomizer == old(activeCustomizer)
    {
      exercise := Some(e);
    }

    /** A card of the full list: it selects the exercise and returns to the dashboard. */
    method PickFromList(e: Exercise)
      modifies this
      ensures exercise == Some(e) && !showAllExercises
      ensures difficulty == old(difficulty) && widgets == old(widgets) && activeCustomizer == old(activeCustomizer)
    {
      exercise := Some(e);
      showAllExercises := false;
    }

    method SetShowAllExercises(show: bool)
      modifies this
      ensures showAllExercises == show
      ensures exercise == old(exercise) && difficulty == old(difficulty)
      ensures widgets == old(widgets) && activeCustomizer == old(activeCustomizer)
    {
      showAllExercises := show;
    }

    method SelectDifficulty(d: Difficulty)
      modifies this
      ensures difficulty == Some(d)
      ensures exercise == old(exercise) && showAllExercises == old(showAllExercises)
      ensures widgets == old(widgets) && activeCustomizer == old(activeCustomizer)
    {
      difficulty := Some(d);
    }

    /** Cancel in the set-up dialog clears both choices. */
    method CancelSelection()
      modifies this
      ensures exercise == None && difficulty == None
      ensures showAllExercises == old(showAllExercises) && widgets == old(widgets)
      ensures activeCustomizer == old(activeCustomizer)
    {
      exercise := None;
      difficulty := None;
    }
  }
}
