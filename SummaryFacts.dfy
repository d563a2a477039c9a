/** What the weekly summary means, stated against definitions that do not
    follow the way it is computed: slot counts, multiset counts of the resolved
    workouts' levels and focus areas, sets of empty days, and the position at
    which each focus area is first met. */
module SummaryFacts {
  import opened Model
  import opened Summary

  /** Some workout carries the slot's workout id. */
  predicate Resolves(ws: seq<Workout>, x: Slot) {
    exists k | 0 <= k < |ws| :: ws[k].id == x.workoutId
  }

  /** How many of the slots resolve to a workout. */
  function ResolvableCount(ws: seq<Workout>, slots: seq<Slot>): nat {
    if slots == [] then 0
    else ResolvableCount(ws, slots[..|slots| - 1]) + (if Resolves(ws, slots[|slots| - 1]) then 1 else 0)
  }

  /** The intensity of each counted workout, in order. */
  function IntensitiesOf(seen: seq<Workout>): (r: seq<Intensity>)
    ensures |r| == |seen|
  {
    seq(|seen|, k requires 0 <= k < |seen| => seen[k].intensity)
  }

  /** The focus of each counted workout, in order. */
  function FocusesOf(seen: seq<Workout>): (r: seq<Focus>)
    ensures |r| == |seen|
  {
    seq(|seen|, k requires 0 <= k < |seen| => seen[k].focus)
  }

  /** How many counted workouts have focus `f`. */
  function FocusCount(seen: seq<Workout>, f: Focus): nat {
    multiset(FocusesOf(seen))[f]
  }

  /** The position at which `f` first occurs in `fs`. */
  function FirstAt(fs: seq<Focus>, f: Focus): (k: nat)
    requires f in fs
    ensures k < |fs| && fs[k] == f
    ensures forall j | 0 <= j < k :: fs[j] != f
  {
    if fs[0] == f then 0 else 1 + FirstAt(fs[1..], f)
  }

  /** The days among `days` whose slot list is empty. */
  function EmptyDays(sch: Schedule, days: seq<DayId>): set<DayId> {
    set d | d in days && DaySlots(sch, d) == []
  }

  // ---- totalSessions ----

  lemma {:induction false} SessionCountIsSlotCount(sch: Schedule, days: seq<DayId>)
    ensures SessionCount(sch, days) == |SlotsOf(sch, days)|
  {
    if days != [] {
      SessionCountIsSlotCount(sch, days[..|days| - 1]);
    }
  }

  /** `totalSessions` is the number of slots in the whole week. */
  lemma TotalSessionsCountsEverySlot(s: PlannerState)
    ensures SummaryOf(s).totalSessions == |AllSlots(s.schedule)|
  {
    SessionCountIsSlotCount(s.schedule, Days);
  }

  // ---- resolving slots ----

  /** Exactly the slots that resolve contribute a workout, each one a workout of
      the list; dangling slots contribute nothing. */
  lemma {:induction false} ResolvedCountsResolvable(ws: seq<Workout>, slots: seq<Slot>)
    ensures |Resolved(ws, slots)| == ResolvableCount(ws, slots) <= |slots|
    ensures Resolved(ws, slots) == [] <==> forall x | x in slots :: !Resolves(ws, x)
    ensures forall w | w in Resolved(ws, slots) :: w in ws
  {
    if slots != [] {
      var init := slots[..|slots| - 1];
      var x := slots[|slots| - 1];
      ResolvedCountsResolvable(ws, init);
      assert slots == init + [x];
      var found := Find(ws, x.workoutId);
      if found.Some? {
        var k :| 0 <= k < |ws| && ws[k] == found.value && forall j | 0 <= j < k :: ws[j].id != x.workoutId;
        assert Resolves(ws, x);
      } else {
        assert !Resolves(ws, x);
      }
    }
  }

  // ---- intensityBuckets ----

  lemma {:induction false} IntensityTallyCounts(seen: seq<Workout>)
    ensures forall i: Intensity :: IntensityTally(seen)[i] == multiset(IntensitiesOf(seen))[i]
    ensures IntensityTally(seen)[Low] + IntensityTally(seen)[Medium] + IntensityTally(seen)[High] == |seen|
  {
    if seen == [] {
      NoIntensityHasEveryLevel();
    } else {
      var init := seen[..|seen| - 1];
      var w := seen[|seen| - 1];
      IntensityTallyCounts(init);
      assert IntensitiesOf(seen) == IntensitiesOf(init) + [w.intensity];
      match w.intensity
      case Low =>
      case Medium =>
      case High =>
    }
  }

  /** A map holding every level has exactly the three levels as keys. */
  lemma EveryLevelKeys(m: map<Intensity, nat>)
    requires forall i: Intensity :: i in m
    ensures m.Keys == {Low, Medium, High}
  {
    forall i | i in m.Keys ensures i in {Low, Medium, High} {
      match i
      case Low =>
      case Medium =>
      case High =>
    }
  }

  /** The buckets are exactly Low, Medium and High; each counts the slots whose
      workout resolves to that level, and together they count every slot that
      resolves, so never more than `totalSessions`. */
  lemma IntensityBucketsCountResolvedSlots(s: PlannerState)
    ensures var r := SummaryOf(s);
      var seen := Resolved(s.workouts, AllSlots(s.schedule));
      && r.intensityBuckets.Keys == {Low, Medium, High}
      && (forall i: Intensity :: r.intensityBuckets[i] == multiset(IntensitiesOf(seen))[i])
      && r.intensityBuckets[Low] + r.intensityBuckets[Medium] + r.intensityBuckets[High]
           == ResolvableCount(s.workouts, AllSlots(s.schedule))
      && ResolvableCount(s.workouts, AllSlots(s.schedule)) <= r.totalSessions
  {
    var slots := AllSlots(s.schedule);
    var seen := Resolved(s.workouts, slots);
    var m := IntensityTally(seen);
    assert SummaryOf(s).intensityBuckets == m;
    IntensityTallyCounts(seen);
    ResolvedCountsResolvable(s.workouts, slots);
    TotalSessionsCountsEverySlot(s);
    EveryLevelKeys(m);
  }

  // ---- recoveryDays ----

  lemma {:induction false} RecoveryCountBounds(sch: Schedule, days: seq<DayId>)
    ensures RecoveryCount(sch, days) <= |days|
    ensures RecoveryCount(sch, days) == |days| <==> SessionCount(sch, days) == 0
  {
    if days != [] {
      RecoveryCountBounds(sch, days[..|days| - 1]);
    }
  }

  lemma EmptyDaysStep(sch: Schedule, days: seq<DayId>)
    requires days != []
    ensures var d := days[|days| - 1];
      EmptyDays(sch, days) == EmptyDays(sch, days[..|days| - 1]) + (if DaySlots(sch, d) == [] then {d} else {})
  {
    var init, d := days[..|days| - 1], days[|days| - 1];
    assert days == init + [d];
  }

  lemma {:induction false} RecoveryCountIsEmptyDays(sch: Schedule, days: seq<DayId>)
    requires forall i, j | 0 <= i < j < |days| :: days[i] != days[j]
    ensures RecoveryCount(sch, days) == |EmptyDays(sch, days)|
  {
    if days != [] {
      var init := days[..|days| - 1];
      var d := days[|days| - 1];
      RecoveryCountIsEmptyDays(sch, init);
      assert d !in EmptyDays(sch, init) by {
        forall k | 0 <= k < |init| ensures init[k] != d { assert init[k] == days[k]; }
      }
      EmptyDaysStep(sch, days);
    }
  }

  /** `recoveryDays` is the number of the seven days with no slot, so it lies in
      [0, 7], and it is 7 exactly when the week has no session. */
  lemma RecoveryDaysCountEmptyDays(s: PlannerState)
    ensures var r := SummaryOf(s);
      && r.recoveryDays == |set d | d in Days && DaySlots(s.schedule, d) == []|
      && 0 <= r.recoveryDays <= 7
      && (r.recoveryDays == 7 <==> r.totalSessions == 0)
  {
    DaysEnumerateWeek();
    RecoveryCountIsEmptyDays(s.schedule, Days);
    RecoveryCountBounds(s.schedule, Days);
  }

  // ---- dominantFocus ----

  lemma {:induction false} FocusTallyCounts(seen: seq<Workout>)
    ensures forall f :: f in FocusTally(seen) <==> FocusCount(seen, f) > 0
    ensures forall f | f in FocusTally(seen) :: FocusTally(seen)[f] == FocusCount(seen, f)
  {
    if seen != [] {
      var init := seen[..|seen| - 1];
      var w := seen[|seen| - 1];
      FocusTallyCounts(init);
      assert FocusesOf(seen) == FocusesOf(init) + [w.focus];
    }
  }

  /** `o` holds the entries of `fs`, each once, in the order they first occur. */
  predicate FirstSeenOrder(o: seq<Focus>, fs: seq<Focus>) {
    && (forall f :: f in o <==> f in fs)
    && (forall a, b | 0 <= a < b < |o| :: FirstAt(fs, o[a]) < FirstAt(fs, o[b]))
  }

  /** Appending `g` to the list keeps the order of first occurrences, with `g`
      added at the end when it is new. */
  lemma FirstSeenExtend(o: seq<Focus>, fs: seq<Focus>, g: Focus)
    requires FirstSeenOrder(o, fs)
    ensures FirstSeenOrder(if g in o then o else o + [g], fs + [g])
  {
    FirstAtsKept(fs, g);
    if g !in o {
      FirstSeenAppend(o, fs, g);
    }
  }

  /** Appending a new entry puts it after every entry already listed. */
  lemma FirstSeenAppend(o: seq<Focus>, fs: seq<Focus>, g: Focus)
    requires FirstSeenOrder(o, fs) && g !in o
    requires forall f | f in fs :: f in fs + [g] && FirstAt(fs + [g], f) == FirstAt(fs, f)
    ensures FirstSeenOrder(o + [g], fs + [g])
  {
    var fs', o' := fs + [g], o + [g];
    assert fs'[|fs|] == g;
    assert g !in fs;
    assert FirstAt(fs', g) == |fs|;
    forall a, b | 0 <= a < b < |o'|
      ensures FirstAt(fs', o'[a]) < FirstAt(fs', o'[b])
    {
      assert o'[a] == o[a] && o[a] in fs;
      if b < |o| {
        assert o'[b] == o[b] && o[b] in fs;
      }
    }
  }

  /** The first occurrence of an entry already present does not move when
      another entry is appended. */
  lemma FirstAtsKept(fs: seq<Focus>, g: Focus)
    ensures forall f | f in fs :: f in fs + [g] && FirstAt(fs + [g], f) == FirstAt(fs, f)
  {
    forall f | f in fs ensures f in fs + [g] && FirstAt(fs + [g], f) == FirstAt(fs, f) {
      FirstAtExtends(fs, g, f);
    }
  }

  /** The key order of `focusBuckets` is the order in which focus areas are
      first counted. */
  lemma {:induction false} FocusOrderIsFirstSeen(seen: seq<Workout>)
    ensures FirstSeenOrder(FocusOrder(seen), FocusesOf(seen))
  {
    if seen != [] {
      var init := seen[..|seen| - 1];
      var w := seen[|seen| - 1];
      FocusOrderIsFirstSeen(init);
      assert seen == init + [w];
      FocusStep(init, w);
      assert FocusesOf(seen) == FocusesOf(init) + [w.focus];
      FirstSeenExtend(FocusOrder(init), FocusesOf(init), w.focus);
    }
  }

  lemma FirstAtExtends(fs: seq<Focus>, g: Focus, f: Focus)
    requires f in fs
    ensures f in fs + [g] && FirstAt(fs + [g], f) == FirstAt(fs, f)
  {
    var k, k' := FirstAt(fs, f), FirstAt(fs + [g], f);
    assert (fs + [g])[k] == f;
    assert forall j | 0 <= j < |fs| :: (fs + [g])[j] == fs[j];
  }

  /** An entry whose count every entry before it falls short of is listed
      before any other entry with the same count. */
  lemma TiesComeAfter(o: seq<Focus>, t: map<Focus, nat>, j: nat, b: nat)
    requires j < |o| && b < |o| && o[j] in t && o[b] in t
    requires forall k | 0 <= k < j :: o[k] in t && t[o[k]] < t[o[j]]
    requires o[b] != o[j] && t[o[b]] == t[o[j]]
    ensures j < b
  {
  }

  /** An entry `f` of `o` that every entry before it counts strictly less than
      first occurs before any other entry with the same count. */
  lemma FirstOfTies(o: seq<Focus>, t: map<Focus, nat>, fs: seq<Focus>, j: nat, g: Focus)
    requires FirstSeenOrder(o, fs)
    requires j < |o| && forall k | 0 <= k < j :: o[k] in t && o[j] in t && t[o[k]] < t[o[j]]
    requires o[j] in t && g in t && g in o && g != o[j] && t[g] == t[o[j]]
    ensures o[j] in fs && g in fs && FirstAt(fs, o[j]) < FirstAt(fs, g)
  {
    var b :| 0 <= b < |o| && o[b] == g;
    TiesComeAfter(o, t, j, b);
  }

  /** The pick of `Best` over the first-seen order has the largest count, and
      comes first among the entries tied with it. */
  lemma BestIsFirstMaximal(o: seq<Focus>, t: map<Focus, nat>, fs: seq<Focus>)
    requires o != [] && FirstSeenOrder(o, fs) && forall f :: f in o <==> f in t
    ensures var f := Best(o, t);
      && f in t && f in fs
      && (forall g | g in t :: t[g] <= t[f])
      && (forall g | g in t && g != f && t[g] == t[f] :: g in fs && FirstAt(fs, f) < FirstAt(fs, g))
  {
    var f := Best(o, t);
    var j :| 0 <= j < |o| && o[j] == f && forall k | 0 <= k < j :: t[o[k]] < t[f];
    forall g | g in t && g != f && t[g] == t[f]
      ensures g in fs && FirstAt(fs, f) < FirstAt(fs, g)
    {
      FirstOfTies(o, t, fs, j, g);
    }
  }

  /** The dominant focus of a list of counted workouts: "Balanced" exactly when
      the list is empty, otherwise a focus with the largest count that comes
      first among those tied with it. */
  lemma DominantOfIsFirstMaximal(seen: seq<Workout>)
    ensures DominantOf(seen) == Balanced <==> seen == []
    ensures DominantOf(seen).Dominant? ==>
      var f := DominantOf(seen).focus;
      && FocusCount(seen, f) > 0
      && (forall g :: FocusCount(seen, g) <= FocusCount(seen, f))
      && (forall g | g in FocusesOf(seen) && g != f && FocusCount(seen, g) == FocusCount(seen, f) ::
            FirstAt(FocusesOf(seen), f) < FirstAt(FocusesOf(seen), g))
  {
    FocusTallyCounts(seen);
    FocusOrderIsFirstSeen(seen);
    var o, t, fs := FocusOrder(seen), FocusTally(seen), FocusesOf(seen);
    if seen != [] {
      assert fs[0] in o;
      BestIsFirstMaximal(o, t, fs);
    }
  }

  /** `dominantFocus` is "Balanced" exactly when no slot resolves; otherwise it is
      a focus area with the largest count, and among the areas sharing that count
      it is the one whose first counted slot comes earliest in the week. */
  lemma DominantFocusIsFirstMaximal(s: PlannerState)
    ensures var r := SummaryOf(s);
      var seen := Resolved(s.workouts, AllSlots(s.schedule));
      && (r.dominantFocus == Balanced <==> ResolvableCount(s.workouts, AllSlots(s.schedule)) == 0)
      && (r.dominantFocus.Dominant? ==>
            var f := r.dominantFocus.focus;
            && FocusCount(seen, f) > 0
            && (forall g :: FocusCount(seen, g) <= FocusCount(seen, f))
            && (forall g | g in FocusesOf(seen) && g != f && FocusCount(seen, g) == FocusCount(seen, f) ::
                  FirstAt(FocusesOf(seen), f) < FirstAt(FocusesOf(seen), g)))
  {
    var seen := Resolved(s.workouts, AllSlots(s.schedule));
    assert SummaryOf(s).dominantFocus == DominantOf(seen);
    ResolvedCountsResolvable(s.workouts, AllSlots(s.schedule));
    DominantOfIsFirstMaximal(seen);
  }
}
