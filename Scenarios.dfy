/** Concrete weeks and what the summary reports for them: the built-in plan,
    an empty week and a week with a single session. */
module Scenarios {
  import opened Model
  import opened Summary
  import opened Seed
  import opened SummaryFacts

  /** One more day read after `days`. */
  lemma ReadDay(sch: Schedule, days: seq<DayId>, d: DayId, next: seq<DayId>)
    requires next == days + [d]
    ensures SlotsOf(sch, next) == SlotsOf(sch, days) + DaySlots(sch, d)
  {
    assert next[..|days|] == days;
  }

  /** The slots of Monday to Thursday, in day order. */
  lemma ReadFirstHalf(sch: Schedule)
    ensures SlotsOf(sch, [Monday, Tuesday, Wednesday, Thursday])
      == DaySlots(sch, Monday) + DaySlots(sch, Tuesday) + DaySlots(sch, Wednesday) + DaySlots(sch, Thursday)
  {
    ReadDay(sch, [], Monday, [Monday]);
    ReadDay(sch, [Monday], Tuesday, [Monday, Tuesday]);
    ReadDay(sch, [Monday, Tuesday], Wednesday, [Monday, Tuesday, Wednesday]);
    ReadDay(sch, [Monday, Tuesday, Wednesday], Thursday, [Monday, Tuesday, Wednesday, Thursday]);
  }

  /** The slots of a week, Monday's first and Sunday's last. */
  lemma ReadWeek(sch: Schedule)
    ensures AllSlots(sch) == DaySlots(sch, Monday) + DaySlots(sch, Tuesday) + DaySlots(sch, Wednesday)
      + DaySlots(sch, Thursday) + DaySlots(sch, Friday) + DaySlots(sch, Saturday) + DaySlots(sch, Sunday)
  {
    ReadFirstHalf(sch);
    ReadDay(sch, [Monday, Tuesday, Wednesday, Thursday], Friday, [Monday, Tuesday, Wednesday, Thursday, Friday]);
    ReadDay(sch, [Monday, Tuesday, Wednesday, Thursday, Friday], Saturday,
      [Monday, Tuesday, Wednesday, Thursday, Friday, Saturday]);
    ReadDay(sch, [Monday, Tuesday, Wednesday, Thursday, Friday, Saturday], Sunday, Days);
  }

  /** The built-in week holds five sessions, Monday to Saturday with Wednesday
      free, in this order. */
  lemma DefaultWeek()
    ensures AllSlots(DefaultSchedule) == [MondayLift, TuesdayEngine, ThursdayLift, FridayEngine, SaturdayReset]
  {
    ReadWeek(DefaultSchedule);
    DefaultDays();
  }

  lemma DefaultDays()
    ensures DaySlots(DefaultSchedule, Monday) == [MondayLift] && DaySlots(DefaultSchedule, Tuesday) == [TuesdayEngine]
    ensures DaySlots(DefaultSchedule, Wednesday) == [] && DaySlots(DefaultSchedule, Thursday) == [ThursdayLift]
    ensures DaySlots(DefaultSchedule, Friday) == [FridayEngine] && DaySlots(DefaultSchedule, Saturday) == [SaturdayReset]
    ensures DaySlots(DefaultSchedule, Sunday) == []
  {
  }

  /** The three built-in workouts are found by their ids. */
  lemma DefaultFinds()
    ensures Find(DefaultState.workouts, "alpha-strength") == Some(AlphaStrength)
    ensures Find(DefaultState.workouts, "engine-builder") == Some(EngineBuilder)
    ensures Find(DefaultState.workouts, "reset-flow") == Some(ResetFlow)
  {
    var ws := DefaultState.workouts;
    assert ws[0].id == "alpha-strength" && ws[1].id == "engine-builder" && ws[2].id == "reset-flow";
  }

  lemma LastSplit<T>(s: seq<T>)
    requires s != []
    ensures s == s[..|s| - 1] + [s[|s| - 1]]
  {
  }

  /** Slot `x` names workout `w` of `ws`. */
  predicate Names(ws: seq<Workout>, x: Slot, w: Workout) {
    Find(ws, x.workoutId) == Some(w)
  }

  /** When every slot names a known workout, the summary counts exactly those
      workouts, one per slot, in order. */
  lemma {:induction false} ResolvedAllFound(ws: seq<Workout>, slots: seq<Slot>, seen: seq<Workout>)
    requires |slots| == |seen|
    requires forall k | 0 <= k < |slots| :: Names(ws, slots[k], seen[k])
    ensures Resolved(ws, slots) == seen
  {
    if slots != [] {
      var n := |slots| - 1;
      ResolvedAllFound(ws, slots[..n], seen[..n]);
      ResolvedStep(ws, slots[..n], slots[n]);
      LastSplit(slots);
      LastSplit(seen);
    }
  }

  /** A week of five sessions that all resolve. */
  lemma ResolvedFive(ws: seq<Workout>, slots: seq<Slot>, seen: seq<Workout>)
    requires |slots| == 5 && |seen| == 5
    requires Names(ws, slots[0], seen[0]) && Names(ws, slots[1], seen[1]) && Names(ws, slots[2], seen[2])
    requires Names(ws, slots[3], seen[3]) && Names(ws, slots[4], seen[4])
    ensures Resolved(ws, slots) == seen
  {
    forall k | 0 <= k < |slots|
      ensures Names(ws, slots[k], seen[k])
    {
      // Rewriting `k` as one of the five constants lets each required `Names`
      // fact apply by congruence; branching on `k` with empty branches makes the
      // solver unfold `Find` instead and costs several times more.
      var j := if k == 0 then 0 else if k == 1 then 1 else if k == 2 then 2 else if k == 3 then 3 else 4;
      assert j == k;
    }
    ResolvedAllFound(ws, slots, seen);
  }

  lemma DefaultNames()
    ensures Names(DefaultState.workouts, MondayLift, AlphaStrength)
    ensures Names(DefaultState.workouts, TuesdayEngine, EngineBuilder)
    ensures Names(DefaultState.workouts, ThursdayLift, AlphaStrength)
    ensures Names(DefaultState.workouts, FridayEngine, EngineBuilder)
    ensures Names(DefaultState.workouts, SaturdayReset, ResetFlow)
  {
    DefaultFinds();
  }

  /** Every built-in session resolves: the counted workouts, in week order. */
  lemma DefaultSeen()
    ensures Resolved(DefaultState.workouts, AllSlots(DefaultSchedule))
      == [AlphaStrength, EngineBuilder, AlphaStrength, EngineBuilder, ResetFlow]
  {
    DefaultWeek();
    DefaultNames();
    ResolvedFive(DefaultState.workouts, [MondayLift, TuesdayEngine, ThursdayLift, FridayEngine, SaturdayReset],
                 [AlphaStrength, EngineBuilder, AlphaStrength, EngineBuilder, ResetFlow]);
  }

  /** A list of counted workouts whose levels run High, Medium, High, Medium,
      Low fills the buckets with one Low, two Medium and two High. */
  lemma LevelsTally(seen: seq<Workout>)
    requires IntensitiesOf(seen) == [High, Medium, High, Medium, Low]
    ensures IntensityTally(seen) == map[Low := 1, Medium := 2, High := 2]
  {
    var m, ls := IntensityTally(seen), IntensitiesOf(seen);
    IntensityTallyCounts(seen);
    EveryLevelKeys(m);
    assert multiset(ls)[Low] == 1 && multiset(ls)[Medium] == 2 && multiset(ls)[High] == 2;
  }

  /** The built-in week's intensity buckets: one Low, two Medium, two High. */
  lemma DefaultIntensity()
    ensures IntensityTally([AlphaStrength, EngineBuilder, AlphaStrength, EngineBuilder, ResetFlow])
      == map[Low := 1, Medium := 2, High := 2]
  {
    var seen := [AlphaStrength, EngineBuilder, AlphaStrength, EngineBuilder, ResetFlow];
    assert IntensitiesOf(seen) == [High, Medium, High, Medium, Low];
    LevelsTally(seen);
  }

  /** The focus areas the built-in week counts, in order. */
  lemma DefaultFocuses()
    ensures FocusesOf([AlphaStrength, EngineBuilder, AlphaStrength, EngineBuilder, ResetFlow])
      == [Strength, Endurance, Strength, Endurance, Recovery]
  {
  }

  /** Counts and first positions in the built-in week's focus list. */
  lemma DefaultFocusCounts(fs: seq<Focus>)
    requires fs == [Strength, Endurance, Strength, Endurance, Recovery]
    ensures multiset(fs)[Strength] == 2 && multiset(fs)[Endurance] == 2 && multiset(fs)[Recovery] == 1
    ensures Strength in fs && Endurance in fs
    ensures FirstAt(fs, Strength) == 0 && FirstAt(fs, Endurance) == 1
  {
    assert fs[0] == Strength && fs[1] == Endurance;
  }

  /** A list of counted workouts whose focus areas run Strength, Endurance,
      Strength, Endurance, Recovery has Strength as its dominant focus: it ties
      with Endurance and is met first. The general characterisation alone
      decides this. */
  lemma TieGoesToFirstMet(seen: seq<Workout>)
    requires FocusesOf(seen) == [Strength, Endurance, Strength, Endurance, Recovery]
    ensures DominantOf(seen) == Dominant(Strength)
  {
    var fs := FocusesOf(seen);
    DefaultFocusCounts(fs);
    DominantOfIsFirstMaximal(seen);
    assert seen != [];
    var f := DominantOf(seen).focus;
    assert FocusCount(seen, Strength) <= FocusCount(seen, f);
    assert f != Recovery;
    assert f != Endurance;
  }

  /** The built-in week's dominant focus is Strength. */
  lemma DefaultDominant()
    ensures DominantOf([AlphaStrength, EngineBuilder, AlphaStrength, EngineBuilder, ResetFlow]) == Dominant(Strength)
  {
    DefaultFocuses();
    TieGoesToFirstMet([AlphaStrength, EngineBuilder, AlphaStrength, EngineBuilder, ResetFlow]);
  }

  /** A schedule whose only empty days are Wednesday and Sunday. */
  lemma RestOnWednesdayAndSunday(sch: Schedule)
    requires DaySlots(sch, Wednesday) == [] && DaySlots(sch, Sunday) == []
    requires DaySlots(sch, Monday) != [] && DaySlots(sch, Tuesday) != [] && DaySlots(sch, Thursday) != []
    requires DaySlots(sch, Friday) != [] && DaySlots(sch, Saturday) != []
    ensures (set d | d in Days && DaySlots(sch, d) == []) == {Wednesday, Sunday}
  {
    DaysEnumerateWeek();
    forall d: DayId ensures d in Days && DaySlots(sch, d) == [] <==> d in {Wednesday, Sunday} {
      match d
      case Monday => case Tuesday => case Wednesday => case Thursday =>
      case Friday => case Saturday => case Sunday =>
    }
  }

  /** Wednesday and Sunday are the built-in week's only empty days. */
  lemma DefaultRecovery()
    ensures SummaryOf(DefaultState).recoveryDays == 2
  {
    RecoveryDaysCountEmptyDays(DefaultState);
    DefaultDays();
    RestOnWednesdayAndSunday(DefaultSchedule);
    assert |{Wednesday, Sunday}| == 2;
  }

  /** DEFAULT_STATE's summary: five sessions; one Low, two Medium and two High
      sessions; Strength dominant, winning its tie with Endurance by coming
      first; two recovery days. */
  lemma DefaultSummary()
    ensures SummaryOf(DefaultState) == WeekSummary(5, map[Low := 1, Medium := 2, High := 2], Dominant(Strength), 2)
  {
    DefaultWeek();
    TotalSessionsCountsEverySlot(DefaultState);
    DefaultSeen();
    DefaultIntensity();
    DefaultDominant();
    DefaultRecovery();
  }

  /** A week without sessions (all seven days empty, as after clearing every
      day): nothing counted, all three buckets at zero, "Balanced", and seven
      recovery days. */
  lemma EmptyWeekSummary(s: PlannerState)
    requires forall d: DayId :: DaySlots(s.schedule, d) == []
    ensures SummaryOf(s) == WeekSummary(0, NoIntensity, Balanced, 7)
  {
    var sch := s.schedule;
    NoSlotsBefore(sch, Days);
    RecoveryDaysCountEmptyDays(s);
    assert AllSlots(sch) == [];
  }

  lemma {:induction false} NoSlotsBefore(sch: Schedule, days: seq<DayId>)
    requires forall d: DayId :: DaySlots(sch, d) == []
    ensures SlotsOf(sch, days) == [] && SessionCount(sch, days) == 0
  {
    if days != [] {
      NoSlotsBefore(sch, days[..|days| - 1]);
    }
  }

  /** A week with a single session, on day `d0`, of the only workout: one
      session counted at that workout's intensity, its focus dominant, and six
      recovery days. */
  lemma SingleSessionSummary(s: PlannerState, d0: DayId, w: Workout, x: Slot)
    requires s.workouts == [w] && x.workoutId == w.id
    requires DaySlots(s.schedule, d0) == [x]
    requires forall d: DayId | d != d0 :: DaySlots(s.schedule, d) == []
    ensures SummaryOf(s) == WeekSummary(1, NoIntensity[w.intensity := 1], Dominant(w.focus), 6)
  {
    DaysEnumerateWeek();
    OneSlotBefore(s.schedule, d0, x, Days);
    OneSlotRecovery(s.schedule, d0, x, Days);
    TotalSessionsCountsEverySlot(s);
    ResolvedOne(w, x);
    CountOne(w);
  }

  lemma ResolvedOne(w: Workout, x: Slot)
    requires x.workoutId == w.id
    ensures Resolved([w], [x]) == [w]
  {
    assert [x][..0] == [];
  }

  lemma CountOne(w: Workout)
    ensures IntensityTally([w]) == NoIntensity[w.intensity := 1]
    ensures DominantOf([w]) == Dominant(w.focus)
  {
    assert [w][..0] == [];
    NoIntensityHasEveryLevel();
  }

  /** Reading distinct days of a week whose only slot is `x` on `d0`. */
  lemma {:induction false} OneSlotBefore(sch: Schedule, d0: DayId, x: Slot, days: seq<DayId>)
    requires DaySlots(sch, d0) == [x]
    requires forall d: DayId | d != d0 :: DaySlots(sch, d) == []
    requires forall i, j | 0 <= i < j < |days| :: days[i] != days[j]
    ensures SlotsOf(sch, days) == if d0 in days then [x] else []
  {
    if days != [] {
      var init, d := days[..|days| - 1], days[|days| - 1];
      OneSlotBefore(sch, d0, x, init);
      LastSplit(days);
      if d == d0 {
        LastNotEarlier(days);
      }
    }
  }

  /** The same week has a recovery day for every day read except `d0`. */
  lemma {:induction false} OneSlotRecovery(sch: Schedule, d0: DayId, x: Slot, days: seq<DayId>)
    requires DaySlots(sch, d0) == [x]
    requires forall d: DayId | d != d0 :: DaySlots(sch, d) == []
    requires forall i, j | 0 <= i < j < |days| :: days[i] != days[j]
    ensures RecoveryCount(sch, days) == |days| - if d0 in days then 1 else 0
  {
    if days != [] {
      var init, d := days[..|days| - 1], days[|days| - 1];
      OneSlotRecovery(sch, d0, x, init);
      LastSplit(days);
      if d == d0 {
        LastNotEarlier(days);
      }
    }
  }

  /** In a list without repeats the last entry does not occur before. */
  lemma LastNotEarlier(days: seq<DayId>)
    requires days != []
    requires forall i, j | 0 <= i < j < |days| :: days[i] != days[j]
    ensures days[|days| - 1] !in days[..|days| - 1]
  {
    var init := days[..|days| - 1];
    forall k | 0 <= k < |init| ensures init[k] != days[|days| - 1] {
      assert init[k] == days[k];
    }
  }
}
