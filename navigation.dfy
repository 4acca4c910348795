/**
 * The page's session state: a dictionary from key to value that survives
 * reruns. init_session_state fills in defaults, navigate_to switches the
 * view, the filter buttons store the chosen body part, and main routes on
 * the stored view.
 */
module Navigation {
  import opened Wrappers
  import Taxonomy

  /** A stored value: a Python string, or None. */
  datatype Value = Text(text: string) | Nothing

  type State = map<string, Value>

  const CurrentView: string := "current_view"
  const SelectedExercise: string := "selected_exercise"
  const SelectedBodyPart: string := "selected_body_part"

  const DashboardView: string := "dashboard"
  const DetailView: string := "detail"

  /** The keys init_session_state guarantees. */
  ghost predicate Initialized(m: State) {
    CurrentView in m && SelectedExercise in m && SelectedBodyPart in m
  }

  /** The state after init_session_state: each key that is missing gets its
      default; present keys keep their values. */
  function WithDefaults(m: State): (r: State)
    ensures Initialized(r)
    ensures r.Keys == m.Keys + {CurrentView, SelectedExercise, SelectedBodyPart}
    ensures forall k :: k in m ==> r[k] == m[k]
    ensures CurrentView !in m ==> r[CurrentView] == Text(DashboardView)
    ensures SelectedExercise !in m ==> r[SelectedExercise] == Nothing
    ensures SelectedBodyPart !in m ==> r[SelectedBodyPart] == Text(Taxonomy.All)
  {
    var m1 := if CurrentView in m then m else m[CurrentView := Text(DashboardView)];
    var m2 := if SelectedExercise in m1 then m1 else m1[SelectedExercise := Nothing];
    if SelectedBodyPart in m2 then m2 else m2[SelectedBodyPart := Text(Taxonomy.All)]
  }

  /** Initialising twice is initialising once. */
  lemma WithDefaultsIdempotent(m: State)
    ensures WithDefaults(WithDefaults(m)) == WithDefaults(m)
  {
  }

  /** Python's truth test of the optional exercise argument: None and the empty
      string are false. */
  predicate Given(exercise: Option<string>) {
    exercise.Some? && exercise.value != ""
  }

  /** The state after navigate_to(view, exercise). */
  function Navigated(m: State, view: string, exercise: Option<string>): (r: State)
    ensures r.Keys == m.Keys + {CurrentView} + (if Given(exercise) then {SelectedExercise} else {})
    ensures r[CurrentView] == Text(view)
    ensures Given(exercise) ==> r[SelectedExercise] == Text(exercise.value)
    ensures !Given(exercise) ==> (SelectedExercise in r <==> SelectedExercise in m)
    ensures forall k :: k in m && k != CurrentView && (k != SelectedExercise || !Given(exercise)) ==> r[k] == m[k]
  {
    var m1 := m[CurrentView := Text(view)];
    if Given(exercise) then m1[SelectedExercise := Text(exercise.value)] else m1
  }

  /** What main renders. */
  datatype Screen = Dashboard | Detail(exercise: Value) | Blank

  /** The routing of main, which reads the view and, for the detail view, the
      selected exercise. */
  function Route(m: State): (r: Screen)
    requires CurrentView in m
    requires m[CurrentView] == Text(DetailView) ==> SelectedExercise in m
    ensures r == Dashboard <==> m[CurrentView] == Text(DashboardView)
    ensures r.Detail? <==> m[CurrentView] == Text(DetailView)
    ensures r.Detail? ==> r.exercise == m[SelectedExercise]
  {
    if m[CurrentView] == Text(DashboardView) then Dashboard
    else if m[CurrentView] == Text(DetailView) then Detail(m[SelectedExercise])
    else Blank
  }

  /** A fresh session opens on the dashboard with every exercise listed. */
  lemma FreshSessionShowsAll()
    ensures Route(WithDefaults(map[])) == Dashboard
    ensures WithDefaults(map[])[SelectedBodyPart] == Text(Taxonomy.All)
    ensures WithDefaults(map[])[SelectedExercise] == Nothing
  {
  }

  /** The "記録" button opens the detail view of its exercise, and "< Back"
      returns to the dashboard keeping the exercise selected. */
  lemma OpenThenBack(m: State, exercise: string)
    requires Initialized(m) && exercise != ""
    ensures Route(Navigated(m, DetailView, Some(exercise))) == Detail(Text(exercise))
    ensures var back := Navigated(Navigated(m, DetailView, Some(exercise)), DashboardView, None);
      Route(back) == Dashboard && back[SelectedExercise] == Text(exercise) && Initialized(back)
  {
  }

  class Session {
    var state: State

    constructor (initial: State)
      ensures state == initial
    {
      state := initial;
    }

    method InitSessionState()
      modifies this
      ensures state == WithDefaults(old(state))
    {
      if CurrentView !in state {
        state := state[CurrentView := Text(DashboardView)];
      }
      if SelectedExercise !in state {
        state := state[SelectedExercise := Nothing];
      }
      if SelectedBodyPart !in state {
        state := state[SelectedBodyPart := Text(Taxonomy.All)];
      }
    }

    method NavigateTo(view: string, exercise: Option<string>)
      modifies this
      ensures state == Navigated(old(state), view, exercise)
    {
      state := state[CurrentView := Text(view)];
      if exercise.Some? && exercise.value != "" {
        state := state[SelectedExercise := Text(exercise.value)];
      }
    }

    /** A body-part filter button stores its part. */
    method SelectBodyPart(part: string)
      modifies this
      ensures state == old(state)[SelectedBodyPart := Text(part)]
    {
      state := state[SelectedBodyPart := Text(part)];
    }

    /** The dashboard's exercise list for the stored filter value; None is the
        KeyError of a value that is neither "All" nor a key. */
    method DashboardExercises(tax: Taxonomy.Table) returns (r: Option<seq<string>>)
      requires SelectedBodyPart in state
      ensures state[SelectedBodyPart].Text? ==> r == Taxonomy.Targets(tax, state[SelectedBodyPart].text)
      ensures state[SelectedBodyPart] == Nothing ==> r == None
    {
      match state[SelectedBodyPart]
      case Text(p) => r := Taxonomy.TargetExercises(tax, p);
      case Nothing => r := None;
    }
  }
}
