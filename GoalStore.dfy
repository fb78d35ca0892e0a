/**
 * The goal list kept by `DataStoreGoalRepository`: the stored value of the "goals" key
 * (absent until the first save), the field mapping between stored and domain goals, the
 * three list edits and the stable sort by target date of `goalsStream`.
 */
module GoalStore {
  import opened Wrappers
  import opened Goals

  // ---------------------------------------------------------------- stored form

  /** `SerializableGoal`. Its ISO-8601 date strings are kept as the day numbers they
      spell, so parsing and printing a date are the identity here. */
  datatype SerializableGoal = SerializableGoal(id: string, targetWeightKg: real, targetDate: int, createdAt: int)

  /** `toDomain`. */
  function ToDomain(s: SerializableGoal): WeightGoal {
    WeightGoal(s.id, s.targetWeightKg, s.targetDate, s.createdAt)
  }

  /** `toSerializable`. */
  function ToSerializable(g: WeightGoal): SerializableGoal {
    SerializableGoal(g.id, g.targetWeightKg, g.targetDate, g.createdAt)
  }

  /** The two mappings are inverse: no field is lost either way. */
  lemma FieldMappingRoundTrip(g: WeightGoal, s: SerializableGoal)
    ensures ToDomain(ToSerializable(g)) == g
    ensures ToSerializable(ToDomain(s)) == s
  {
  }

  /** `serializableGoals.map { it.toDomain() }`. */
  function ToDomainAll(ss: seq<SerializableGoal>): (gs: seq<WeightGoal>)
    ensures |gs| == |ss|
    ensures forall i :: 0 <= i < |ss| ==> gs[i] == ToDomain(ss[i])
  {
    if ss == [] then [] else [ToDomain(ss[0])] + ToDomainAll(ss[1..])
  }

  /** `goals.map { it.toSerializable() }`. */
  function ToSerializableAll(gs: seq<WeightGoal>): (ss: seq<SerializableGoal>)
    ensures |ss| == |gs|
    ensures forall i :: 0 <= i < |gs| ==> ss[i] == ToSerializable(gs[i])
  {
    if gs == [] then [] else [ToSerializable(gs[0])] + ToSerializableAll(gs[1..])
  }

  /** Saving a list and reading it back gives the same list. */
  lemma ListRoundTrip(gs: seq<WeightGoal>)
    ensures ToDomainAll(ToSerializableAll(gs)) == gs
  {
    var back := ToDomainAll(ToSerializableAll(gs));
    assert forall i :: 0 <= i < |gs| ==> back[i] == ToDomain(ToSerializable(gs[i]));
  }

  /** `preferences[GOALS_KEY] ?: "[]"`, decoded: a missing value is the empty list. */
  function StoredGoals(stored: Option<seq<SerializableGoal>>): (ss: seq<SerializableGoal>)
    ensures stored.None? ==> ss == []
    ensures stored.Some? ==> ss == stored.value
  {
    match stored
    case None => []
    case Some(goals) => goals
  }

  // ---------------------------------------------------------------- list edits

  /** `currentGoals.map { if (it.id == goal.id) goal else it }`. */
  function Replaced(goals: seq<WeightGoal>, goal: WeightGoal): seq<WeightGoal> {
    if goals == [] then []
    else [if goals[0].id == goal.id then goal else goals[0]] + Replaced(goals[1..], goal)
  }

  /** `currentGoals.filterNot { it.id == id }`. */
  function Removed(goals: seq<WeightGoal>, id: string): seq<WeightGoal> {
    if goals == [] then []
    else (if goals[0].id == id then [] else [goals[0]]) + Removed(goals[1..], id)
  }

  predicate HasId(goals: seq<WeightGoal>, id: string) {
    exists i :: 0 <= i < |goals| && goals[i].id == id
  }

  /** Updating keeps the length; each goal with the given goal's id becomes that goal
      and every other goal stays where it was. */
  lemma {:induction false} ReplacedAt(goals: seq<WeightGoal>, goal: WeightGoal)
    ensures |Replaced(goals, goal)| == |goals|
    ensures forall i :: 0 <= i < |goals| ==>
      Replaced(goals, goal)[i] == if goals[i].id == goal.id then goal else goals[i]
  {
    if goals != [] {
      ReplacedAt(goals[1..], goal);
    }
  }

  /** Updating a goal whose id is not in the list changes nothing; nothing is inserted. */
  lemma ReplacedAbsent(goals: seq<WeightGoal>, goal: WeightGoal)
    requires !HasId(goals, goal.id)
    ensures Replaced(goals, goal) == goals
  {
    ReplacedAt(goals, goal);
  }

  /** Updating with a goal whose id is in the list puts that goal in the list. */
  lemma ReplacedPresent(goals: seq<WeightGoal>, goal: WeightGoal)
    requires HasId(goals, goal.id)
    ensures goal in Replaced(goals, goal)
  {
    ReplacedAt(goals, goal);
    var i :| 0 <= i < |goals| && goals[i].id == goal.id;
    assert Replaced(goals, goal)[i] == goal;
  }

  /** Updating twice with the same goal is the same as updating once. */
  lemma ReplacedIdempotent(goals: seq<WeightGoal>, goal: WeightGoal)
    ensures Replaced(Replaced(goals, goal), goal) == Replaced(goals, goal)
  {
    ReplacedAt(goals, goal);
    ReplacedAt(Replaced(goals, goal), goal);
  }

  /** `xs` is `ys` with some elements left out, the rest in their order. */
  predicate IsSubsequence(xs: seq<WeightGoal>, ys: seq<WeightGoal>)
    decreases |ys|
  {
    if xs == [] then true
    else if ys == [] then false
    else (xs[0] == ys[0] && IsSubsequence(xs[1..], ys[1..])) || IsSubsequence(xs, ys[1..])
  }

  /** After deleting, no goal has the deleted id. */
  lemma {:induction false} RemovedHasNoId(goals: seq<WeightGoal>, id: string)
    ensures !HasId(Removed(goals, id), id)
  {
    if goals != [] {
      RemovedHasNoId(goals[1..], id);
      var rest := Removed(goals[1..], id);
      var r := Removed(goals, id);
      if goals[0].id != id {
        assert r == [goals[0]] + rest;
        assert forall i :: 1 <= i < |r| ==> r[i] == rest[i - 1];
      }
    }
  }

  /** Deleting removes every copy of the goals with that id and keeps every other goal as
      often as it was there. */
  lemma {:induction false} RemovedCounts(goals: seq<WeightGoal>, id: string)
    ensures forall g :: multiset(Removed(goals, id))[g] == if g.id == id then 0 else multiset(goals)[g]
  {
    if goals != [] {
      RemovedCounts(goals[1..], id);
      assert goals == [goals[0]] + goals[1..];
    }
  }

  /** The remaining goals keep their relative order. */
  lemma {:induction false} RemovedIsSubsequence(goals: seq<WeightGoal>, id: string)
    ensures IsSubsequence(Removed(goals, id), goals)
  {
    if goals != [] {
      RemovedIsSubsequence(goals[1..], id);
      if goals[0].id != id {
        var r := Removed(goals, id);
        assert r[0] == goals[0] && r[1..] == Removed(goals[1..], id);
      } else {
        assert Removed(goals, id) == Removed(goals[1..], id);
        SubsequenceDropHead(Removed(goals[1..], id), goals);
      }
    }
  }

  lemma SubsequenceDropHead(xs: seq<WeightGoal>, ys: seq<WeightGoal>)
    requires ys != [] && IsSubsequence(xs, ys[1..])
    ensures IsSubsequence(xs, ys)
  {
  }

  /** Deleting an id that is not in the list changes nothing. */
  lemma {:induction false} RemovedAbsent(goals: seq<WeightGoal>, id: string)
    requires !HasId(goals, id)
    ensures Removed(goals, id) == goals
  {
    if goals != [] {
      assert goals[0].id != id;
      assert !HasId(goals[1..], id) by {
        forall i | 0 <= i < |goals[1..]| ensures goals[1..][i].id != id {
          assert goals[1..][i] == goals[i + 1];
        }
      }
      RemovedAbsent(goals[1..], id);
      assert goals == [goals[0]] + goals[1..];
    }
  }

  /** Deleting twice is the same as deleting once. */
  lemma RemovedIdempotent(goals: seq<WeightGoal>, id: string)
    ensures Removed(Removed(goals, id), id) == Removed(goals, id)
  {
    RemovedHasNoId(goals, id);
    RemovedAbsent(Removed(goals, id), id);
  }

  // ---------------------------------------------------------------- sortedBy { targetDate }

  predicate AscendingByDate(goals: seq<WeightGoal>) {
    forall i, j :: 0 <= i < j < |goals| ==> goals[i].targetDate <= goals[j].targetDate
  }

  /** The goals due on `day`, in list order. */
  function OnDate(goals: seq<WeightGoal>, day: int): seq<WeightGoal> {
    if goals == [] then []
    else (if goals[0].targetDate == day then [goals[0]] else []) + OnDate(goals[1..], day)
  }

  /** Inserts `g` before the first goal due no earlier than it. */
  function InsertByDate(sorted: seq<WeightGoal>, g: WeightGoal): seq<WeightGoal> {
    if sorted == [] then [g]
    else if g.targetDate <= sorted[0].targetDate then [g] + sorted
    else [sorted[0]] + InsertByDate(sorted[1..], g)
  }

  /** `sortedBy { it.targetDate }`, a stable sort: insertion from the back, each goal
      placed before the later goals due on the same day. */
  function SortedByDate(goals: seq<WeightGoal>): seq<WeightGoal> {
    if goals == [] then [] else InsertByDate(SortedByDate(goals[1..]), goals[0])
  }

  lemma {:induction false} InsertByDateCounts(sorted: seq<WeightGoal>, g: WeightGoal)
    ensures multiset(InsertByDate(sorted, g)) == multiset(sorted) + multiset{g}
  {
    if sorted != [] && g.targetDate > sorted[0].targetDate {
      InsertByDateCounts(sorted[1..], g);
      assert sorted == [sorted[0]] + sorted[1..];
    }
  }

  lemma {:induction false} InsertByDateAscending(sorted: seq<WeightGoal>, g: WeightGoal)
    requires AscendingByDate(sorted)
    ensures AscendingByDate(InsertByDate(sorted, g))
  {
    if sorted != [] && g.targetDate > sorted[0].targetDate {
      var tail := sorted[1..];
      assert forall k :: 0 <= k < |tail| ==> tail[k] == sorted[k + 1];
      InsertByDateAscending(tail, g);
      InsertByDateCounts(tail, g);
      var r := InsertByDate(tail, g);
      forall j | 0 <= j < |r| ensures sorted[0].targetDate <= r[j].targetDate {
        assert r[j] in multiset(r);
      }
    }
  }

  /** Inserting g puts it ahead of the goals already due on its day. */
  lemma {:induction false} InsertByDateOnDate(sorted: seq<WeightGoal>, g: WeightGoal, day: int)
    requires AscendingByDate(sorted)
    ensures OnDate(InsertByDate(sorted, g), day) ==
      if g.targetDate == day then [g] + OnDate(sorted, day) else OnDate(sorted, day)
  {
    if sorted != [] {
      var tail := sorted[1..];
      assert forall k :: 0 <= k < |tail| ==> tail[k] == sorted[k + 1];
      if g.targetDate > sorted[0].targetDate {
        InsertByDateOnDate(tail, g, day);
        assert InsertByDate(sorted, g) == [sorted[0]] + InsertByDate(tail, g);
        if g.targetDate == day {
          assert sorted[0].targetDate != day;
        }
      }
    }
  }

  /** The sorted list holds the same goals, each as often. */
  lemma {:induction false} SortedByDateCounts(goals: seq<WeightGoal>)
    ensures multiset(SortedByDate(goals)) == multiset(goals)
  {
    if goals != [] {
      SortedByDateCounts(goals[1..]);
      InsertByDateCounts(SortedByDate(goals[1..]), goals[0]);
      assert goals == [goals[0]] + goals[1..];
    }
  }

  /** The sorted list is ascending by target date. */
  lemma {:induction false} SortedByDateAscending(goals: seq<WeightGoal>)
    ensures AscendingByDate(SortedByDate(goals))
  {
    if goals != [] {
      SortedByDateAscending(goals[1..]);
      InsertByDateAscending(SortedByDate(goals[1..]), goals[0]);
    }
  }

  /** The sort is stable: the goals due on any one day keep their stored order. */
  lemma {:induction false} SortedByDateStable(goals: seq<WeightGoal>, day: int)
    ensures OnDate(SortedByDate(goals), day) == OnDate(goals, day)
  {
    if goals != [] {
      SortedByDateStable(goals[1..], day);
      SortedByDateAscending(goals[1..]);
      InsertByDateOnDate(SortedByDate(goals[1..]), goals[0], day);
    }
  }

  // ---------------------------------------------------------------- the repository

  /** `DataStoreGoalRepository`: `stored` is the decoded value of the "goals" key of the
      preferences file, `None` while the key is missing. */
  class DataStoreGoalRepository {
    var stored: Option<seq<SerializableGoal>>

    /** A repository over the "weight_goals" preferences file starts from what that file
        already holds under "goals": `None` for a fresh file, the saved list otherwise. */
    constructor (initial: Option<seq<SerializableGoal>>)
      ensures stored == initial
    {
      stored := initial;
    }

    /** `getCurrentGoalsList`. */
    function CurrentGoals(): (goals: seq<WeightGoal>)
      reads this
      ensures stored.None? ==> goals == []
      ensures |goals| == |StoredGoals(stored)|
    {
      ToDomainAll(StoredGoals(stored))
    }

    /** `goalsStream`: the stored goals, ascending by target date, each as often as it is
        stored, those due on the same day in stored order. */
    function GoalsStream(): (goals: seq<WeightGoal>)
      reads this
      ensures AscendingByDate(goals)
      ensures multiset(goals) == multiset(CurrentGoals())
      ensures forall day :: OnDate(goals, day) == OnDate(CurrentGoals(), day)
    {
      SortedByDateAscending(CurrentGoals());
      SortedByDateCounts(CurrentGoals());
      forall day ensures OnDate(SortedByDate(CurrentGoals()), day) == OnDate(CurrentGoals(), day) {
        SortedByDateStable(CurrentGoals(), day);
      }
      SortedByDate(CurrentGoals())
    }

    /** `saveGoalsList`: writes the list in stored form under the "goals" key. */
    method SaveGoalsList(goals: seq<WeightGoal>)
      modifies this
      ensures stored == Some(ToSerializableAll(goals))
      ensures CurrentGoals() == goals
    {
      stored := Some(ToSerializableAll(goals));
      ListRoundTrip(goals);
    }

    /** `getAllGoals`: the list current at the call. The source's private `first()` never
        stops collecting, so that call never returns; the model does not capture this. */
    method GetAllGoals() returns (goals: seq<WeightGoal>)
      ensures goals == CurrentGoals()
    {
      goals := ToDomainAll(StoredGoals(stored));
    }

    /** `addGoal`: appends, without checking whether the id is already there. */
    method AddGoal(goal: WeightGoal)
      modifies this
      ensures CurrentGoals() == old(CurrentGoals()) + [goal]
    {
      var currentGoals := CurrentGoals();
      SaveGoalsList(currentGoals + [goal]);
    }

    /** `updateGoal`. */
    method UpdateGoal(goal: WeightGoal)
      modifies this
      ensures CurrentGoals() == Replaced(old(CurrentGoals()), goal)
    {
      var currentGoals := CurrentGoals();
      SaveGoalsList(Replaced(currentGoals, goal));
    }

    /** `deleteGoal`. */
    method DeleteGoal(id: string)
      modifies this
      ensures CurrentGoals() == Removed(old(CurrentGoals()), id)
    {
      var currentGoals := CurrentGoals();
      SaveGoalsList(Removed(currentGoals, id));
    }
  }
}
