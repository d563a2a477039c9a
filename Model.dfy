/** The planner's data model (components/Planner.tsx, the type declarations at its
    head): a closed set of days, intensities, focus areas and times of day,
    workouts built from exercises, slots that refer to workouts by id, and the
    planner state that pairs the workout list with a day-to-slots schedule. */
module Model {
  import opened Text

  datatype Option<+T> = None | Some(value: T)

  datatype DayId = Monday | Tuesday | Wednesday | Thursday | Friday | Saturday | Sunday

  /** The week in display order; the schedule is read day by day in this order. */
  const Days: seq<DayId> := [Monday, Tuesday, Wednesday, Thursday, Friday, Saturday, Sunday]

  datatype Intensity = Low | Medium | High

  datatype Focus = Strength | Hypertrophy | Endurance | Mobility | Recovery

  /** The string a focus area is written as. */
  function FocusName(f: Focus): string {
    match f
    case Strength => "Strength"
    case Hypertrophy => "Hypertrophy"
    case Endurance => "Endurance"
    case Mobility => "Mobility"
    case Recovery => "Recovery"
  }

  /** `s.trim() || undefined`: optional text is absent exactly when it is
      blank, and otherwise trimmed and not empty. */
  function TrimmedOrAbsent(s: string): (r: Option<string>)
    ensures r.None? <==> AllSpace(s)
    ensures r.Some? ==> r.value == Trim(s)
    ensures r.Some? ==> r.value != [] && !IsSpace(r.value[0]) && !IsSpace(r.value[|r.value| - 1])
  {
    TrimBlank(s);
    if Trim(s) == "" then None else Some(Trim(s))
  }

  datatype TimeOfDay = Morning | Midday | Evening

  /** One exercise of a workout, referring to the exercise library by id. */
  datatype WorkoutExercise = WorkoutExercise(exerciseId: string, prescription: string)

  datatype Workout = Workout(
    id: string,
    title: string,
    focus: Focus,
    intensity: Intensity,
    trainingEffect: string,
    exercises: seq<WorkoutExercise>,
    notes: Option<string>)

  /** A scheduled occurrence of a workout; `workoutId` may refer to no workout. */
  datatype Slot = Slot(id: string, workoutId: string, timeOfDay: TimeOfDay, notes: Option<string>)

  type Schedule = map<DayId, seq<Slot>>

  datatype PlannerState = PlannerState(workouts: seq<Workout>, schedule: Schedule)

  /** Every one of the seven days has a slot list. */
  predicate Complete(sch: Schedule) {
    forall d: DayId :: d in sch
  }

  /** The slots of a day, an absent day reading as no slots (`schedule[day] ?? []`);
      in a complete week the fallback never applies. */
  function DaySlots(sch: Schedule, d: DayId): (r: seq<Slot>)
    ensures d !in sch ==> r == []
    ensures Complete(sch) ==> r == sch[d]
  {
    if d in sch then sch[d] else []
  }

  /** `Days` lists each of the seven days exactly once. */
  lemma DaysEnumerateWeek()
    ensures |Days| == 7
    ensures forall d: DayId :: d in Days
    ensures forall i, j | 0 <= i < j < |Days| :: Days[i] != Days[j]
  {
    forall d: DayId ensures d in Days {
      match d
      case Monday => assert Days[0] == d;
      case Tuesday => assert Days[1] == d;
      case Wednesday => assert Days[2] == d;
      case Thursday => assert Days[3] == d;
      case Friday => assert Days[4] == d;
      case Saturday => assert Days[5] == d;
      case Sunday => assert Days[6] == d;
    }
  }

  /** `workouts.find(w => w.id === id)`: the first workout carrying `id`, or
      nothing when no workout does. */
  function Find(ws: seq<Workout>, id: string): (r: Option<Workout>)
    ensures r.None? <==> forall k | 0 <= k < |ws| :: ws[k].id != id
    ensures r.Some? ==> exists k | 0 <= k < |ws| :: ws[k] == r.value && forall j | 0 <= j < k :: ws[j].id != id
    ensures r.Some? ==> r.value.id == id
  {
    if ws == [] then None
    else if ws[0].id == id then Some(ws[0])
    else
      var r := Find(ws[1..], id);
      assert r.Some? ==> exists k | 0 <= k < |ws[1..]| :: ws[1..][k] == r.value && forall j | 0 <= j < k :: ws[1..][j].id != id;
      assert r.Some? ==> exists k | 1 <= k < |ws| :: ws[k] == r.value && forall j | 0 <= j < k :: ws[j].id != id;
      r
  }

  /** Regrouping a concatenation, stated once so that proofs about the list
      filters can cite it instead of re-deriving it. */
  lemma ConcatAssoc<T>(x: seq<T>, y: seq<T>, z: seq<T>)
    ensures (x + y) + z == x + (y + z)
  {
  }
}
