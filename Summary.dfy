/** The weekly summary (components/Planner.tsx, the `summary` computation): the
    session count, the intensity buckets, the dominant focus and the number of
    recovery days, recomputed from the whole planner state.

    The schedule is read day by day in `Days` order, which is the order the
    record's values come in for every schedule the planner builds. */
module Summary {
  import opened Model

  datatype DominantFocus = Balanced | Dominant(focus: Focus)

  datatype WeekSummary = WeekSummary(
    totalSessions: nat,
    intensityBuckets: map<Intensity, nat>,
    dominantFocus: DominantFocus,
    recoveryDays: nat)

  /** The slots of `days`, one day's list after the other. */
  function SlotsOf(sch: Schedule, days: seq<DayId>): seq<Slot> {
    if days == [] then [] else SlotsOf(sch, days[..|days| - 1]) + DaySlots(sch, days[|days| - 1])
  }

  /** Every slot of the week, in the order the summary visits them. */
  function AllSlots(sch: Schedule): seq<Slot> {
    SlotsOf(sch, Days)
  }

  /** The reduce behind `totalSessions`: slot-list lengths summed day by day. */
  function SessionCount(sch: Schedule, days: seq<DayId>): nat {
    if days == [] then 0 else SessionCount(sch, days[..|days| - 1]) + |DaySlots(sch, days[|days| - 1])|
  }

  /** The workouts the slots resolve to, in slot order; a slot whose workout id
      matches no workout is skipped. */
  function Resolved(ws: seq<Workout>, slots: seq<Slot>): (r: seq<Workout>)
    ensures |r| <= |slots|
  {
    if slots == [] then []
    else
      var prev := Resolved(ws, slots[..|slots| - 1]);
      match Find(ws, slots[|slots| - 1].workoutId)
      case Some(w) => prev + [w]
      case None => prev
  }

  const NoIntensity: map<Intensity, nat> := map[Low := 0, Medium := 0, High := 0]

  lemma NoIntensityHasEveryLevel()
    ensures forall i: Intensity :: i in NoIntensity && NoIntensity[i] == 0
  {
    forall i: Intensity ensures i in NoIntensity && NoIntensity[i] == 0 {
      match i
      case Low =>
      case Medium =>
      case High =>
    }
  }

  /** `intensityBuckets` after counting `seen`: one bump per workout, starting
      from all three levels at zero. */
  function IntensityTally(seen: seq<Workout>): (m: map<Intensity, nat>)
    ensures forall i: Intensity :: i in m
  {
    if seen == [] then
      NoIntensityHasEveryLevel();
      NoIntensity
    else
      var m := IntensityTally(seen[..|seen| - 1]);
      var i := seen[|seen| - 1].intensity;
      m[i := m[i] + 1]
  }

  /** `focusBuckets` after counting `seen`: a focus gets a key the first time it
      is counted. */
  function FocusTally(seen: seq<Workout>): (m: map<Focus, nat>)
    ensures m == map[] <==> seen == []
  {
    if seen == [] then map[]
    else
      var m := FocusTally(seen[..|seen| - 1]);
      var f := seen[|seen| - 1].focus;
      m[f := (if f in m then m[f] else 0) + 1]
  }

  /** The key order of `focusBuckets`: each focus where it was first counted. */
  function FocusOrder(seen: seq<Workout>): (o: seq<Focus>)
    ensures forall f :: f in o <==> f in FocusTally(seen)
  {
    if seen == [] then []
    else
      var o := FocusOrder(seen[..|seen| - 1]);
      var f := seen[|seen| - 1].focus;
      if f in o then o else o + [f]
  }

  /** The head of the entries sorted by descending count with a stable sort:
      the first entry, in key order, whose count no entry exceeds. */
  function Best(order: seq<Focus>, tally: map<Focus, nat>): (b: Focus)
    requires order != []
    requires forall f | f in order :: f in tally
    ensures b in order
    ensures forall f | f in order :: tally[f] <= tally[b]
    ensures exists j | 0 <= j < |order| :: order[j] == b && forall k | 0 <= k < j :: tally[order[k]] < tally[b]
  {
    if |order| == 1 then order[0]
    else
      var init := order[..|order| - 1];
      var b := Best(init, tally);
      var last := order[|order| - 1];
      assert forall f | f in order :: f in init || f == last;
      if tally[last] > tally[b] then
        assert forall k | 0 <= k < |order| - 1 :: order[k] == init[k];
        last
      else
        var j :| 0 <= j < |init| && init[j] == b && forall k | 0 <= k < j :: tally[init[k]] < tally[b];
        assert forall k | 0 <= k < j :: order[k] == init[k];
        b
  }

  /** `dominantFocus`: "Balanced" when nothing was counted, else the head of the
      sorted focus entries. */
  function DominantOf(seen: seq<Workout>): (r: DominantFocus)
    ensures r == Balanced <==> seen == []
    ensures r.Dominant? ==> r.focus in FocusTally(seen)
  {
    var o := FocusOrder(seen);
    if o == [] then Balanced else Dominant(Best(o, FocusTally(seen)))
  }

  /** `DAYS.filter(day => (schedule[day]?.length ?? 0) === 0).length`. */
  function RecoveryCount(sch: Schedule, days: seq<DayId>): (n: nat)
    ensures n <= |days|
  {
    if days == [] then 0
    else RecoveryCount(sch, days[..|days| - 1]) + (if |DaySlots(sch, days[|days| - 1])| == 0 then 1 else 0)
  }

  /** The summary of a planner state. */
  function SummaryOf(s: PlannerState): (r: WeekSummary)
    ensures forall i: Intensity :: i in r.intensityBuckets
    ensures r.recoveryDays <= 7
    ensures r.dominantFocus == Balanced <==> Resolved(s.workouts, AllSlots(s.schedule)) == []
  {
    var seen := Resolved(s.workouts, AllSlots(s.schedule));
    WeekSummary(
      SessionCount(s.schedule, Days),
      IntensityTally(seen),
      DominantOf(seen),
      RecoveryCount(s.schedule, Days))
  }

  lemma ResolvedStep(ws: seq<Workout>, slots: seq<Slot>, x: Slot)
    ensures Resolved(ws, slots + [x]) ==
      match Find(ws, x.workoutId) case Some(w) => Resolved(ws, slots) + [w] case None => Resolved(ws, slots)
  {
    assert (slots + [x])[..|slots|] == slots;
  }

  lemma IntensityStep(seen: seq<Workout>, w: Workout)
    ensures IntensityTally(seen + [w]) == IntensityTally(seen)[w.intensity := IntensityTally(seen)[w.intensity] + 1]
  {
    assert (seen + [w])[..|seen|] == seen;
  }

  lemma FocusStep(seen: seq<Workout>, w: Workout)
    ensures FocusTally(seen + [w]) == FocusTally(seen)[w.focus := (if w.focus in FocusTally(seen) then FocusTally(seen)[w.focus] else 0) + 1]
    ensures FocusOrder(seen + [w]) == if w.focus in FocusOrder(seen) then FocusOrder(seen) else FocusOrder(seen) + [w.focus]
  {
    assert (seen + [w])[..|seen|] == seen;
  }

  lemma ExtendPrefix<T>(before: seq<T>, xs: seq<T>, j: nat)
    requires j < |xs|
    ensures (before + xs[..j]) + [xs[j]] == before + xs[..j + 1]
  {
    assert xs[..j + 1] == xs[..j] + [xs[j]];
  }

  /** One more day read: its slots come after those of the days before it. */
  lemma DayStep(sch: Schedule, i: nat)
    requires i < |Days|
    ensures SlotsOf(sch, Days[..i + 1]) == SlotsOf(sch, Days[..i]) + DaySlots(sch, Days[i])
    ensures SessionCount(sch, Days[..i + 1]) == SessionCount(sch, Days[..i]) + |DaySlots(sch, Days[i])|
    ensures RecoveryCount(sch, Days[..i + 1]) == RecoveryCount(sch, Days[..i]) + (if DaySlots(sch, Days[i]) == [] then 1 else 0)
  {
    assert Days[..i + 1][..i] == Days[..i];
  }

  /** The reduce behind `totalSessions`. */
  method CountSessions(sch: Schedule) returns (total: nat)
    ensures total == SessionCount(sch, Days)
  {
    total := 0;
    for i := 0 to |Days|
      invariant total == SessionCount(sch, Days[..i])
    {
      DayStep(sch, i);
      total := total + |DaySlots(sch, Days[i])|;
    }
    assert Days[..|Days|] == Days;
  }

  /** The loop body for a slot that resolves to `w`: one more session at its
      intensity, and one more for its focus, whose key is added (last) on first use. */
  method CountWorkout(w: Workout, ghost seen: seq<Workout>,
                      intensity0: map<Intensity, nat>, focus0: map<Focus, nat>, order0: seq<Focus>)
    returns (intensity: map<Intensity, nat>, focus: map<Focus, nat>, order: seq<Focus>)
    requires intensity0 == IntensityTally(seen) && focus0 == FocusTally(seen) && order0 == FocusOrder(seen)
    ensures intensity == IntensityTally(seen + [w])
    ensures focus == FocusTally(seen + [w])
    ensures order == FocusOrder(seen + [w])
  {
    intensity, focus, order := intensity0, focus0, order0;
    intensity := intensity[w.intensity := intensity[w.intensity] + 1];
    assert intensity == IntensityTally(seen + [w]) by {
      IntensityStep(seen, w);
    }
    if w.focus !in focus {
      order := order + [w.focus];
    }
    focus := focus[w.focus := (if w.focus in focus then focus[w.focus] else 0) + 1];
    assert focus == FocusTally(seen + [w]) && order == FocusOrder(seen + [w]) by {
      FocusStep(seen, w);
    }
  }

  /** The inner loop over one day's slots: given the buckets for the slots
      visited so far (`before`), bumps them for each of the day's slots that
      resolves to a workout and skips the others. */
  method TallyDay(ws: seq<Workout>, ghost before: seq<Slot>, sessions: seq<Slot>,
                  intensity0: map<Intensity, nat>, focus0: map<Focus, nat>, order0: seq<Focus>)
    returns (intensity: map<Intensity, nat>, focus: map<Focus, nat>, order: seq<Focus>)
    requires intensity0 == IntensityTally(Resolved(ws, before))
    requires focus0 == FocusTally(Resolved(ws, before))
    requires order0 == FocusOrder(Resolved(ws, before))
    ensures intensity == IntensityTally(Resolved(ws, before + sessions))
    ensures focus == FocusTally(Resolved(ws, before + sessions))
    ensures order == FocusOrder(Resolved(ws, before + sessions))
  {
    intensity, focus, order := intensity0, focus0, order0;
    ghost var visited := before;
    ghost var seen := Resolved(ws, before);
    for j := 0 to |sessions|
      invariant visited == before + sessions[..j]
      invariant seen == Resolved(ws, visited)
      invariant intensity == IntensityTally(seen)
      invariant focus == FocusTally(seen)
      invariant order == FocusOrder(seen)
    {
      var slot := sessions[j];
      ResolvedStep(ws, visited, slot);
      var found := Find(ws, slot.workoutId);
      if found.Some? {
        intensity, focus, order := CountWorkout(found.value, seen, intensity, focus, order);
        seen := seen + [found.value];
      }
      ExtendPrefix(before, sessions, j);
      visited := visited + [slot];
    }
    assert sessions[..|sessions|] == sessions;
  }

  /** The summary as the planner computes it: the reduce over the days, then one
      pass over every slot that bumps the intensity and focus buckets of the
      workout it resolves to and skips dangling slots, then the recovery-day
      filter and the pick of the dominant focus. */
  method Summarize(s: PlannerState) returns (r: WeekSummary)
    ensures r == SummaryOf(s)
  {
    var sch := s.schedule;
    var total := CountSessions(sch);
    var intensity := NoIntensity;
    var focus: map<Focus, nat> := map[];
    var order: seq<Focus> := [];
    for i := 0 to |Days|
      invariant intensity == IntensityTally(Resolved(s.workouts, SlotsOf(sch, Days[..i])))
      invariant focus == FocusTally(Resolved(s.workouts, SlotsOf(sch, Days[..i])))
      invariant order == FocusOrder(Resolved(s.workouts, SlotsOf(sch, Days[..i])))
    {
      intensity, focus, order := TallyDay(s.workouts, SlotsOf(sch, Days[..i]), DaySlots(sch, Days[i]), intensity, focus, order);
      DayStep(sch, i);
    }
    assert Days[..|Days|] == Days;
    var recovery := RecoveryCount(sch, Days);
    var dominant := if order == [] then Balanced else Dominant(Best(order, focus));
    r := WeekSummary(total, intensity, dominant, recovery);
  }
}
