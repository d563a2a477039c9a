/** The built-in planner state and the hydration merge that combines it with a
    stored snapshot (components/Planner.tsx, DEFAULT_STATE and the load effect). */
module Seed {
  import opened Model

  const AlphaStrength: Workout := Workout(
    "alpha-strength", "Lower Body Power", Strength, High,
    "Explosive strength + posterior-chain activation",
    [ WorkoutExercise("front-squat", "5 x 3 @ 80% 1RM"),
      WorkoutExercise("hang-clean", "6 x 2 @ 70% 1RM"),
      WorkoutExercise("rdl", "4 x 6 controlled eccentric") ],
    Some("Emphasize bar speed and full recovery between sets."))

  const EngineBuilder: Workout := Workout(
    "engine-builder", "Engine Builder", Endurance, Medium,
    "Conditioning capacity + aerobic base",
    [ WorkoutExercise("assault-bike", "6 rounds :30 hard / :60 cruise"),
      WorkoutExercise("tempo-pushup", "3 x 12 @ 3-1-1 tempo"),
      WorkoutExercise("copenhagen-plank", "3 x :30/side") ],
    Some("Aim to recover breathing to conversational pace during cruise."))

  const ResetFlow: Workout := Workout(
    "reset-flow", "Active Recovery Flow", Recovery, Low,
    "Mobility + parasympathetic reset",
    [ WorkoutExercise("90-90-hovers", "3 x 5 slow transitions"),
      WorkoutExercise("breathing-reset", "5 minutes boxed breathing"),
      WorkoutExercise("single-leg-row", "2 x 15 light") ],
    Some("Keep effort low; finish feeling fresher than you started."))

  const MondayLift: Slot := Slot("slot-mon-am", "alpha-strength", Morning, Some("Fast carbs pre-lift"))
  const TuesdayEngine: Slot := Slot("slot-tue-pm", "engine-builder", Evening, Some("Zone 3 cap"))
  const ThursdayLift: Slot := Slot("slot-thu-am", "alpha-strength", Morning, Some("Reduce load 10%"))
  const FridayEngine: Slot := Slot("slot-fri-lunch", "engine-builder", Midday, None)
  const SaturdayReset: Slot := Slot("slot-sat-am", "reset-flow", Morning, Some("Outdoor session"))

  const DefaultSchedule: Schedule := map[
    Monday := [MondayLift],
    Tuesday := [TuesdayEngine],
    Wednesday := [],
    Thursday := [ThursdayLift],
    Friday := [FridayEngine],
    Saturday := [SaturdayReset],
    Sunday := []]

  /** DEFAULT_STATE: three workouts and five slots spread over the week. */
  const DefaultState: PlannerState := PlannerState([AlphaStrength, EngineBuilder, ResetFlow], DefaultSchedule)

  /** A parsed snapshot as stored: either part may be missing (`null` or absent),
      and the schedule may lack days. */
  datatype Snapshot = Snapshot(workouts: Option<seq<Workout>>, schedule: Option<Schedule>)

  /** The load effect: without a readable snapshot (nothing stored, or a parse
      failure) the state stays at the default; otherwise the stored workouts are
      taken when present, and the stored schedule is laid over the default one
      day by day (`{ ...DEFAULT_STATE.schedule, ...(parsed.schedule ?? {}) }`).
      Whatever is loaded, all seven days are present afterwards. */
  function Hydrate(saved: Option<Snapshot>): (r: PlannerState)
    ensures Complete(r.schedule)
    ensures r.workouts == if saved.Some? && saved.value.workouts.Some? then saved.value.workouts.value else DefaultState.workouts
    ensures forall d: DayId :: DaySlots(r.schedule, d) == (
              if saved.Some? && saved.value.schedule.Some? && d in saved.value.schedule.value
              then saved.value.schedule.value[d] else DaySlots(DefaultSchedule, d))
  {
    DefaultScheduleComplete();
    match saved
    case None => DefaultState
    case Some(p) =>
      PlannerState(
        match p.workouts case Some(ws) => ws case None => DefaultState.workouts,
        DefaultState.schedule + (match p.schedule case Some(m) => m case None => map[]))
  }

  /** The built-in schedule holds all seven days, the empty ones included. */
  lemma DefaultScheduleComplete()
    ensures Complete(DefaultSchedule)
  {
    forall d: DayId ensures d in DefaultSchedule {
      match d
      case Monday =>
      case Tuesday =>
      case Wednesday =>
      case Thursday =>
      case Friday =>
      case Saturday =>
      case Sunday =>
    }
  }
}
