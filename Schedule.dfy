/** Assigning workouts to days and removing them (components/Planner.tsx,
    handleAssignWorkout and handleRemoveSlot). Each handler rebuilds the selected
    day's list and copies every other day and the workout list over untouched. */
module Schedule {
  import opened Model

  /** handleAssignWorkout: with a workout chosen, appends a new slot under the
      fresh id `slotId` to the end of `day`; with none chosen (the empty id) it
      does nothing. Whether a workout carries `workoutId` is not checked. */
  function AssignSlot(s: PlannerState, day: DayId, workoutId: string, time: TimeOfDay, notes: string, slotId: string): (r: PlannerState)
    ensures r.workouts == s.workouts
    ensures forall d: DayId | d != day :: DaySlots(r.schedule, d) == DaySlots(s.schedule, d)
    ensures |DaySlots(r.schedule, day)| == |DaySlots(s.schedule, day)| + (if workoutId == "" then 0 else 1)
  {
    if workoutId == "" then s
    else
      var next := Slot(slotId, workoutId, time, TrimmedOrAbsent(notes));
      PlannerState(s.workouts, s.schedule[day := DaySlots(s.schedule, day) + [next]])
  }

  /** `slots.filter(slot => slot.id !== slotId)`. */
  function RemoveId(slots: seq<Slot>, slotId: string): (r: seq<Slot>)
    ensures |r| <= |slots|
    ensures forall x | x in r :: x in slots && x.id != slotId
    ensures forall x | x in slots && x.id != slotId :: x in r
  {
    if slots == [] then []
    else if slots[0].id == slotId then RemoveId(slots[1..], slotId)
    else [slots[0]] + RemoveId(slots[1..], slotId)
  }

  /** handleRemoveSlot: drops from `day` every slot whose id is `slotId`. */
  function RemoveSlot(s: PlannerState, day: DayId, slotId: string): (r: PlannerState)
    ensures r.workouts == s.workouts
    ensures forall d: DayId | d != day :: DaySlots(r.schedule, d) == DaySlots(s.schedule, d)
    ensures forall x | x in DaySlots(r.schedule, day) :: x in DaySlots(s.schedule, day) && x.id != slotId
  {
    PlannerState(s.workouts, s.schedule[day := RemoveId(DaySlots(s.schedule, day), slotId)])
  }

  /** Removal works slot by slot and keeps order: filtering a concatenation is
      concatenating the filtered parts. */
  lemma {:induction false} RemoveIdDistributes(a: seq<Slot>, b: seq<Slot>, slotId: string)
    ensures RemoveId(a + b, slotId) == RemoveId(a, slotId) + RemoveId(b, slotId)
  {
    if a != [] {
      assert (a + b)[0] == a[0];
      assert (a + b)[1..] == a[1..] + b;
      RemoveIdDistributes(a[1..], b, slotId);
      if a[0].id != slotId {
        ConcatAssoc([a[0]], RemoveId(a[1..], slotId), RemoveId(b, slotId));
      }
    } else {
      assert a + b == b;
    }
  }

  /** A single slot survives exactly when its id is not `slotId`. */
  lemma RemoveIdSingle(x: Slot, slotId: string)
    ensures RemoveId([x], slotId) == if x.id == slotId then [] else [x]
  {
    assert [x][1..] == [];
  }

  /** Removing an id that no slot carries changes nothing. */
  lemma {:induction false} RemoveIdAbsent(slots: seq<Slot>, slotId: string)
    requires forall x | x in slots :: x.id != slotId
    ensures RemoveId(slots, slotId) == slots
  {
    if slots != [] {
      assert slots[0] in slots;
      RemoveIdAbsent(slots[1..], slotId);
    }
  }

  /** Assigning with no workout chosen is a no-op. */
  lemma AssignWithoutWorkoutIsNoOp(s: PlannerState, day: DayId, time: TimeOfDay, notes: string, slotId: string)
    ensures AssignSlot(s, day, "", time, notes, slotId) == s
  {
  }

  /** A successful assignment appends exactly one slot, carrying the fresh id,
      the chosen workout and time and the trimmed-or-absent notes, to the end of
      the selected day; every other day and the workout list are unchanged. */
  lemma AssignAppendsToDay(s: PlannerState, day: DayId, workoutId: string, time: TimeOfDay, notes: string, slotId: string)
    requires workoutId != ""
    ensures var r := AssignSlot(s, day, workoutId, time, notes, slotId);
      && r.workouts == s.workouts
      && |DaySlots(r.schedule, day)| == |DaySlots(s.schedule, day)| + 1
      && DaySlots(r.schedule, day)[..|DaySlots(s.schedule, day)|] == DaySlots(s.schedule, day)
      && DaySlots(r.schedule, day)[|DaySlots(s.schedule, day)|] == Slot(slotId, workoutId, time, TrimmedOrAbsent(notes))
      && (forall d | d != day :: DaySlots(r.schedule, d) == DaySlots(s.schedule, d))
      && r.schedule.Keys == s.schedule.Keys + {day}
  {
  }

  /** Removal keeps exactly the slots of the selected day whose id differs from
      `slotId`; other days and the workout list are unchanged. */
  lemma RemoveFiltersDay(s: PlannerState, day: DayId, slotId: string)
    ensures var r := RemoveSlot(s, day, slotId);
      && r.workouts == s.workouts
      && (forall x | x in DaySlots(s.schedule, day) :: x in DaySlots(r.schedule, day) <==> x.id != slotId)
      && (forall x | x in DaySlots(r.schedule, day) :: x in DaySlots(s.schedule, day))
      && (forall d | d != day :: DaySlots(r.schedule, d) == DaySlots(s.schedule, d))
  {
  }

  /** Removing an id the day does not hold changes nothing (for a day that has a list). */
  lemma RemoveAbsentIsNoOp(s: PlannerState, day: DayId, slotId: string)
    requires day in s.schedule
    requires forall x | x in s.schedule[day] :: x.id != slotId
    ensures RemoveSlot(s, day, slotId) == s
  {
    RemoveIdAbsent(s.schedule[day], slotId);
    assert s.schedule[day := s.schedule[day]] == s.schedule;
  }

  /** Both handlers keep all seven days present. */
  lemma HandlersKeepWeekComplete(s: PlannerState, day: DayId, workoutId: string, time: TimeOfDay, notes: string, slotId: string)
    requires Complete(s.schedule)
    ensures Complete(AssignSlot(s, day, workoutId, time, notes, slotId).schedule)
    ensures Complete(RemoveSlot(s, day, slotId).schedule)
  {
  }

  /** Assigning under a fresh slot id and then removing that id restores the
      state. */
  lemma AssignThenRemoveRestores(s: PlannerState, day: DayId, workoutId: string, time: TimeOfDay, notes: string, slotId: string)
    requires day in s.schedule
    requires forall x | x in s.schedule[day] :: x.id != slotId
    ensures RemoveSlot(AssignSlot(s, day, workoutId, time, notes, slotId), day, slotId) == s
  {
    if workoutId == "" {
      RemoveAbsentIsNoOp(s, day, slotId);
    } else {
      var next := Slot(slotId, workoutId, time, TrimmedOrAbsent(notes));
      RemoveAppended(s.schedule[day], next);
      var sch := s.schedule[day := s.schedule[day] + [next]];
      assert AssignSlot(s, day, workoutId, time, notes, slotId) == PlannerState(s.workouts, sch);
      assert sch[day := s.schedule[day]] == s.schedule;
    }
  }

  /** Filtering out the id of a slot appended under a fresh id gives back the list. */
  lemma RemoveAppended(slots: seq<Slot>, next: Slot)
    requires forall x | x in slots :: x.id != next.id
    ensures RemoveId(slots + [next], next.id) == slots
  {
    RemoveIdDistributes(slots, [next], next.id);
    RemoveIdSingle(next, next.id);
    RemoveIdAbsent(slots, next.id);
  }
}
