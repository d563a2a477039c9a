/** The workout builder: the draft a user edits (title, focus, intensity,
    training effect, a record of selected exercise ids to prescriptions, notes),
    the two edits of the exercise record, and the creation of a workout from the
    draft (components/Planner.tsx, handleToggleExercise, handleUpdatePrescription
    and handleCreateWorkout). */
module Builder {
  import opened Model
  import opened Text

  /** The exercise record is kept as its list of entries in insertion order,
      which is the order `Object.entries` yields them in. */
  datatype BuilderState = BuilderState(
    title: string,
    focus: Focus,
    intensity: Intensity,
    trainingEffect: string,
    exercises: seq<WorkoutExercise>,
    notes: string)

  const EmptyBuilder: BuilderState := BuilderState("", Strength, Medium, "", [], "")

  /** The prescription a newly selected exercise starts with. */
  const DefaultPrescription: string := "3 x 12"

  /** The exercise ids of a record, in insertion order. */
  function Ids(ex: seq<WorkoutExercise>): (r: seq<string>)
    ensures |r| == |ex|
    ensures forall k | 0 <= k < |ex| :: r[k] == ex[k].exerciseId
  {
    if ex == [] then [] else [ex[0].exerciseId] + Ids(ex[1..])
  }

  /** No id appears twice: a record has each key at most once. */
  predicate UniqueKeys(ex: seq<WorkoutExercise>) {
    forall i, j | 0 <= i < j < |ex| :: ex[i].exerciseId != ex[j].exerciseId
  }

  /** `exercises[id]`: the prescription recorded for `id`, if any. */
  function Lookup(ex: seq<WorkoutExercise>, id: string): (r: Option<string>)
    ensures r.None? <==> id !in Ids(ex)
    ensures r.Some? ==> WorkoutExercise(id, r.value) in ex
  {
    if ex == [] then None
    else if ex[0].exerciseId == id then Some(ex[0].prescription)
    else Lookup(ex[1..], id)
  }

  /** `delete exercises[id]`: the entries whose id is not `id`, in order
      (`WithoutEntries`, `WithoutAbsent` and `WithoutDistributes` say so). */
  function Without(ex: seq<WorkoutExercise>, id: string): seq<WorkoutExercise> {
    if ex == [] then []
    else if ex[0].exerciseId == id then Without(ex[1..], id)
    else [ex[0]] + Without(ex[1..], id)
  }

  /** Deleting keeps exactly the entries under other keys. */
  lemma {:induction false} WithoutEntries(ex: seq<WorkoutExercise>, id: string)
    ensures forall e | e in Without(ex, id) :: e in ex && e.exerciseId != id
    ensures forall e | e in ex && e.exerciseId != id :: e in Without(ex, id)
  {
    if ex != [] {
      WithoutEntries(ex[1..], id);
      assert forall e | e in ex :: e == ex[0] || e in ex[1..];
    }
  }

  /** Deleting never lengthens the record, and shortens it when the key is held. */
  lemma {:induction false} WithoutLength(ex: seq<WorkoutExercise>, id: string)
    ensures |Without(ex, id)| <= |ex|
    ensures id in Ids(ex) ==> |Without(ex, id)| < |ex|
  {
    if ex != [] {
      assert Ids(ex) == [ex[0].exerciseId] + Ids(ex[1..]);
      WithoutLength(ex[1..], id);
    }
  }

  /** Deleting a key the record does not hold changes nothing. */
  lemma {:induction false} WithoutAbsent(ex: seq<WorkoutExercise>, id: string)
    requires id !in Ids(ex)
    ensures Without(ex, id) == ex
  {
    if ex != [] {
      assert Ids(ex) == [ex[0].exerciseId] + Ids(ex[1..]);
      WithoutAbsent(ex[1..], id);
    }
  }

  /** `{ ...exercises, [id]: value }`: an existing key keeps its place and takes
      the new value, a new key goes at the end. */
  function Put(ex: seq<WorkoutExercise>, id: string, value: string): (r: seq<WorkoutExercise>)
    ensures id in Ids(ex) ==> Ids(r) == Ids(ex)
    ensures id !in Ids(ex) ==> Ids(r) == Ids(ex) + [id]
  {
    if ex == [] then [WorkoutExercise(id, value)]
    else if ex[0].exerciseId == id then [WorkoutExercise(id, value)] + ex[1..]
    else [ex[0]] + Put(ex[1..], id, value)
  }

  /** handleToggleExercise: deselects a selected exercise, selects an unselected
      one with the default prescription. */
  function ToggleExercise(b: BuilderState, id: string): (r: BuilderState)
    ensures r == b.(exercises := r.exercises)
    ensures |r.exercises| == |b.exercises| + 1 <==> id !in Ids(b.exercises)
  {
    WithoutLength(b.exercises, id);
    if id in Ids(b.exercises) then b.(exercises := Without(b.exercises, id))
    else b.(exercises := b.exercises + [WorkoutExercise(id, DefaultPrescription)])
  }

  /** handleUpdatePrescription: records `value` as the prescription of `id`. */
  function UpdatePrescription(b: BuilderState, id: string, value: string): (r: BuilderState)
    ensures r == b.(exercises := r.exercises)
    ensures id in Ids(r.exercises)
    ensures Lookup(r.exercises, id) == Some(value)
  {
    UpdateRecordsValue(b.exercises, id, value, id);
    b.(exercises := Put(b.exercises, id, value))
  }

  /** The silent guard of handleCreateWorkout: a title that is not blank once
      trimmed and at least one selected exercise. */
  function CanCreate(b: BuilderState): (ok: bool)
    ensures ok <==> !AllSpace(b.title) && b.exercises != []
  {
    TrimBlank(b.title);
    Trim(b.title) != [] && b.exercises != []
  }

  /** The workout handleCreateWorkout builds from a draft, under the fresh id `id`. */
  function NewWorkout(b: BuilderState, id: string): (w: Workout)
    ensures w.notes.None? <==> AllSpace(b.notes)
    ensures w.notes.Some? ==> w.notes.value == Trim(b.notes) && w.notes.value != [] && !IsSpace(w.notes.value[0])
  {
    Workout(
      id,
      Trim(b.title),
      b.focus,
      b.intensity,
      if b.trainingEffect == "" then FocusName(b.focus) + " development" else b.trainingEffect,
      b.exercises,
      TrimmedOrAbsent(b.notes))
  }

  /** handleCreateWorkout: appends the new workout when the guard passes and
      leaves the state as it was otherwise; the schedule is never touched. */
  function CreateWorkout(s: PlannerState, b: BuilderState, id: string): (r: PlannerState)
    ensures r.schedule == s.schedule
    ensures |r.workouts| == |s.workouts| + (if CanCreate(b) then 1 else 0)
    ensures r.workouts[..|s.workouts|] == s.workouts
    ensures CanCreate(b) ==> r.workouts[|s.workouts|] == NewWorkout(b, id)
  {
    if !CanCreate(b) then s
    else PlannerState(s.workouts + [NewWorkout(b, id)], s.schedule)
  }

  /** The draft after handleCreateWorkout: cleared to the empty builder when a
      workout was created, left as it was when the guard rejected it. */
  function DraftAfterCreate(b: BuilderState): (r: BuilderState)
    ensures !CanCreate(r)
    ensures CanCreate(b) ==> r == EmptyBuilder
    ensures !CanCreate(b) ==> r == b
  {
    if CanCreate(b) then EmptyDraftCannotCreate(); EmptyBuilder else b
  }

  /** Entries of a record are determined by their key when keys are unique. */
  lemma LookupFinds(ex: seq<WorkoutExercise>, e: WorkoutExercise)
    requires UniqueKeys(ex) && e in ex
    ensures Lookup(ex, e.exerciseId) == Some(e.prescription)
  {
    var k :| 0 <= k < |ex| && ex[k] == e;
    var r := Lookup(ex, e.exerciseId);
    var j :| 0 <= j < |ex| && ex[j] == WorkoutExercise(e.exerciseId, r.value);
    assert j == k;
  }

  /** Toggling selects exactly the unselected: `id` changes membership, every
      other key keeps its entry, keys stay unique, and a new selection gets the
      default prescription and goes last. A deselect keeps the other entries in
      their order: the entry under `id` is cut out and nothing else moves. */
  lemma ToggleFlipsSelection(b: BuilderState, id: string)
    requires UniqueKeys(b.exercises)
    ensures var r := ToggleExercise(b, id);
      && UniqueKeys(r.exercises)
      && (id in Ids(r.exercises) <==> id !in Ids(b.exercises))
      && (id !in Ids(b.exercises) ==> Lookup(r.exercises, id) == Some(DefaultPrescription))
      && (id !in Ids(b.exercises) ==> Ids(r.exercises) == Ids(b.exercises) + [id])
      && (forall k | 0 <= k < |b.exercises| && b.exercises[k].exerciseId == id ::
            r.exercises == b.exercises[..k] + b.exercises[k + 1..])
      && (forall e: WorkoutExercise | e.exerciseId != id :: e in r.exercises <==> e in b.exercises)
      && r.(exercises := b.exercises) == b
  {
    if id in Ids(b.exercises) {
      DeselectFacts(b.exercises, id);
      forall k | 0 <= k < |b.exercises| && b.exercises[k].exerciseId == id
        ensures Without(b.exercises, id) == b.exercises[..k] + b.exercises[k + 1..]
      {
        DeselectCutsOut(b.exercises, id, k);
      }
    } else {
      SelectFacts(b.exercises, id);
      assert forall k | 0 <= k < |b.exercises| :: b.exercises[k].exerciseId != id by {
        forall k | 0 <= k < |b.exercises| ensures b.exercises[k].exerciseId != id {
          assert Ids(b.exercises)[k] == b.exercises[k].exerciseId;
        }
      }
    }
  }

  /** With unique keys, deleting the key of entry `k` cuts out that entry and
      keeps the entries before and after it in place. */
  lemma DeselectCutsOut(ex: seq<WorkoutExercise>, id: string, k: nat)
    requires UniqueKeys(ex) && k < |ex| && ex[k].exerciseId == id
    ensures Without(ex, id) == ex[..k] + ex[k + 1..]
  {
    var pre, post := ex[..k], ex[k + 1..];
    forall j | 0 <= j < |pre| ensures Ids(pre)[j] != id {
      assert Ids(pre)[j] == ex[j].exerciseId;
    }
    forall j | 0 <= j < |post| ensures Ids(post)[j] != id {
      assert Ids(post)[j] == ex[k + 1 + j].exerciseId;
    }
    CutAt(ex, k);
    WithoutMiddle(pre, ex[k], post, id);
  }

  /** Deleting the one entry under `id` from between two parts that do
      not hold `id` leaves the two parts joined. */
  lemma WithoutMiddle(pre: seq<WorkoutExercise>, x: WorkoutExercise, post: seq<WorkoutExercise>, id: string)
    requires x.exerciseId == id && id !in Ids(pre) && id !in Ids(post)
    ensures Without(pre + [x] + post, id) == pre + post
  {
    assert Without(pre + [x], id) == pre by {
      WithoutDropsKey(x, id);
      WithoutDistributes(pre, [x], id);
      WithoutAbsent(pre, id);
      assert pre + [] == pre;
    }
    assert Without(post, id) == post by {
      WithoutAbsent(post, id);
    }
    WithoutDistributes(pre + [x], post, id);
  }

  lemma WithoutDropsKey(x: WorkoutExercise, id: string)
    requires x.exerciseId == id
    ensures Without([x], id) == []
  {
    assert [x][1..] == [];
  }

  lemma CutAt<T>(s: seq<T>, k: nat)
    requires k < |s|
    ensures s == s[..k] + [s[k]] + s[k + 1..]
  {
  }

  /** `delete` works entry by entry and keeps order: deleting from a
      concatenation concatenates what is left of each part. */
  lemma {:induction false} WithoutDistributes(a: seq<WorkoutExercise>, b: seq<WorkoutExercise>, id: string)
    ensures Without(a + b, id) == Without(a, id) + Without(b, id)
  {
    if a != [] {
      assert (a + b)[0] == a[0];
      assert (a + b)[1..] == a[1..] + b;
      WithoutDistributes(a[1..], b, id);
      if a[0].exerciseId != id {
        ConcatAssoc([a[0]], Without(a[1..], id), Without(b, id));
      }
    } else {
      assert a + b == b;
    }
  }

  /** Deselecting removes the key and every entry under it, and nothing else. */
  lemma DeselectFacts(ex: seq<WorkoutExercise>, id: string)
    requires UniqueKeys(ex)
    ensures var r := Without(ex, id);
      && UniqueKeys(r) && id !in Ids(r)
      && forall e: WorkoutExercise | e.exerciseId != id :: e in r <==> e in ex
  {
    WithoutKeepsUnique(ex, id);
    WithoutEntries(ex, id);
  }

  /** Selecting appends an entry for the new key with the default prescription. */
  lemma SelectFacts(ex: seq<WorkoutExercise>, id: string)
    requires UniqueKeys(ex) && id !in Ids(ex)
    ensures var r := ex + [WorkoutExercise(id, DefaultPrescription)];
      && UniqueKeys(r) && Ids(r) == Ids(ex) + [id]
      && Lookup(r, id) == Some(DefaultPrescription)
      && forall e: WorkoutExercise | e.exerciseId != id :: e in r <==> e in ex
  {
    var r := ex + [WorkoutExercise(id, DefaultPrescription)];
    assert Ids(r) == Ids(ex) + [id];
    forall i | 0 <= i < |ex| ensures r[i].exerciseId != id {
      assert Ids(ex)[i] == ex[i].exerciseId;
    }
    LookupFinds(r, WorkoutExercise(id, DefaultPrescription));
  }

  lemma {:induction false} WithoutKeepsUnique(ex: seq<WorkoutExercise>, id: string)
    requires UniqueKeys(ex)
    ensures UniqueKeys(Without(ex, id))
  {
    if ex != [] {
      WithoutKeepsUnique(ex[1..], id);
      WithoutEntries(ex[1..], id);
      var t := Without(ex[1..], id);
      if ex[0].exerciseId != id {
        forall e | e in t ensures e.exerciseId != ex[0].exerciseId {
          var k :| 0 <= k < |ex[1..]| && ex[1..][k] == e;
          assert ex[k + 1] == e;
        }
      }
    }
  }

  /** Selecting a new exercise and deselecting it again gives back the draft. */
  lemma {:induction false} ToggleTwiceRestores(b: BuilderState, id: string)
    requires id !in Ids(b.exercises)
    ensures ToggleExercise(ToggleExercise(b, id), id) == b
  {
    var ex := b.exercises + [WorkoutExercise(id, DefaultPrescription)];
    assert Ids(ex) == Ids(b.exercises) + [id];
    WithoutAppended(b.exercises, WorkoutExercise(id, DefaultPrescription));
  }

  lemma {:induction false} WithoutAppended(ex: seq<WorkoutExercise>, e: WorkoutExercise)
    requires e.exerciseId !in Ids(ex)
    ensures Without(ex + [e], e.exerciseId) == ex
  {
    if ex == [] {
      assert [e][1..] == [];
    } else {
      assert (ex + [e])[1..] == ex[1..] + [e];
      assert Ids(ex) == [ex[0].exerciseId] + Ids(ex[1..]);
      WithoutAppended(ex[1..], e);
    }
  }

  /** Updating a prescription records the new value under `id` and leaves every
      other key's prescription as it was. */
  lemma {:induction false} UpdateRecordsValue(ex: seq<WorkoutExercise>, id: string, value: string, other: string)
    ensures Lookup(Put(ex, id, value), id) == Some(value)
    ensures other != id ==> Lookup(Put(ex, id, value), other) == Lookup(ex, other)
  {
    if ex == [] {
      assert [WorkoutExercise(id, value)][1..] == [];
    } else if ex[0].exerciseId == id {
      assert ([WorkoutExercise(id, value)] + ex[1..])[1..] == ex[1..];
    } else {
      UpdateRecordsValue(ex[1..], id, value, other);
      assert ([ex[0]] + Put(ex[1..], id, value))[1..] == Put(ex[1..], id, value);
    }
  }

  /** Updating a prescription never introduces a second entry for a key. */
  lemma UpdateKeepsUnique(ex: seq<WorkoutExercise>, id: string, value: string)
    requires UniqueKeys(ex)
    ensures UniqueKeys(Put(ex, id, value))
  {
    var r := Put(ex, id, value);
    forall i, j | 0 <= i < j < |r| ensures r[i].exerciseId != r[j].exerciseId {
      assert Ids(r)[i] == r[i].exerciseId && Ids(r)[j] == r[j].exerciseId;
      if j < |ex| {
        assert Ids(ex)[i] == ex[i].exerciseId && Ids(ex)[j] == ex[j].exerciseId;
      } else {
        assert Ids(ex)[i] == ex[i].exerciseId;
      }
    }
  }

  /** The guard rejects: the state is returned unchanged. */
  lemma CreateRejectsInvalid(s: PlannerState, b: BuilderState, id: string)
    requires AllSpace(b.title) || b.exercises == []
    ensures CreateWorkout(s, b, id) == s
  {
    TrimBlank(b.title);
  }

  /** Submitting an invalid draft once per id in `ids`. */
  function CreateEach(s: PlannerState, b: BuilderState, ids: seq<string>): PlannerState
    decreases |ids|
  {
    if ids == [] then s else CreateEach(CreateWorkout(s, b, ids[0]), b, ids[1..])
  }

  /** However often an invalid draft is submitted, the workout list keeps its
      length (and the whole state is unchanged). */
  lemma {:induction false} RepeatedInvalidCreateChangesNothing(s: PlannerState, b: BuilderState, ids: seq<string>)
    requires !CanCreate(b)
    ensures CreateEach(s, b, ids) == s
    ensures |CreateEach(s, b, ids).workouts| == |s.workouts|
  {
    if ids != [] {
      RepeatedInvalidCreateChangesNothing(s, b, ids[1..]);
    }
  }

  /** A created workout carries the given id and a trimmed, non-blank title,
      together with the draft's focus, intensity and exercises: every
      selected id with its prescription, in selection order. */
  lemma CreatedWorkoutTitle(b: BuilderState, id: string)
    requires CanCreate(b)
    ensures var w := NewWorkout(b, id);
      && w.id == id && w.title != [] && Trim(w.title) == w.title && Trim(b.title) == w.title
      && w.focus == b.focus && w.intensity == b.intensity
      && w.exercises == b.exercises && w.exercises != [] && Ids(w.exercises) == Ids(b.exercises)
  {
    TrimIdempotent(b.title);
  }

  /** The training effect is the draft's unless the draft left it empty (it is not
      trimmed first), and then "<focus> development"; it is never empty. */
  lemma CreatedWorkoutTrainingEffect(b: BuilderState, id: string)
    ensures var w := NewWorkout(b, id);
      && (b.trainingEffect != "" ==> w.trainingEffect == b.trainingEffect)
      && (b.trainingEffect == "" ==> w.trainingEffect == FocusName(b.focus) + " development")
      && w.trainingEffect != ""
  {
  }

  /** The id handed back after a successful create finds the new workout, so the
      assignment selector can point at it. */
  lemma CreatedWorkoutIsFound(s: PlannerState, b: BuilderState, id: string)
    requires CanCreate(b)
    requires forall k | 0 <= k < |s.workouts| :: s.workouts[k].id != id
    ensures Find(CreateWorkout(s, b, id).workouts, id) == Some(NewWorkout(b, id))
  {
    var ws := CreateWorkout(s, b, id).workouts;
    var r := Find(ws, id);
    var k :| 0 <= k < |ws| && ws[k] == r.value && forall j | 0 <= j < k :: ws[j].id != id;
    assert k == |s.workouts|;
  }

  /** Submitting twice in a row creates at most one workout: the first submit
      either rejects the draft (which stays invalid) or clears it, and the empty
      draft fails the guard. */
  lemma SecondSubmitAddsNothing(s: PlannerState, b: BuilderState, id1: string, id2: string)
    ensures !CanCreate(DraftAfterCreate(b))
    ensures CreateWorkout(CreateWorkout(s, b, id1), DraftAfterCreate(b), id2) == CreateWorkout(s, b, id1)
  {
    if CanCreate(b) {
      EmptyDraftCannotCreate();
      assert DraftAfterCreate(b) == EmptyBuilder;
    }
  }

  /** The empty builder has neither a title nor a selected exercise. */
  lemma EmptyDraftCannotCreate()
    ensures !CanCreate(EmptyBuilder)
  {
    assert EmptyBuilder.exercises == [];
  }
}
