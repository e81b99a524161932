/**
 * The custom-goal list: user goals appended on creation, updated in place by id, completed,
 * deleted by id and filtered to the active ones.
 */
module CustomGoals {
  import opened Wrappers
  import Decimal

  datatype GoalUnit = Minutes | Hours | Days

  /** A custom goal; `deadline` and `createdAt` are timestamps in milliseconds. */
  datatype CustomGoal = CustomGoal(
    id: string,
    title: string,
    description: string,
    targetValue: int,
    currentValue: int,
    unit: GoalUnit,
    deadline: Option<int>,
    createdAt: int,
    completed: bool)

  /** What `createGoal` is given: a goal without its id, creation time and completion flag. */
  datatype GoalDraft = GoalDraft(
    title: string,
    description: string,
    targetValue: int,
    currentValue: int,
    unit: GoalUnit,
    deadline: Option<int>)

  /** `findIndex` on the id: the first goal with `id`, if there is one. */
  function FindGoal(goals: seq<CustomGoal>, id: string): (r: Option<nat>)
    ensures r.Some? ==> r.value < |goals| && goals[r.value].id == id
    ensures r.Some? ==> forall j :: 0 <= j < r.value ==> goals[j].id != id
    ensures r.None? ==> forall j :: 0 <= j < |goals| ==> goals[j].id != id
  {
    if |goals| == 0 then None
    else if goals[0].id == id then Some(0)
    else match FindGoal(goals[1..], id)
      case None => None
      case Some(i) => Some(i + 1)
  }

  /** `getActiveGoals`' filter: the goals that are not completed, in stored order. */
  function ActiveGoals(goals: seq<CustomGoal>): (active: seq<CustomGoal>)
    ensures |active| <= |goals|
  {
    if |goals| == 0 then []
    else (if goals[0].completed then [] else [goals[0]]) + ActiveGoals(goals[1..])
  }

  /** A goal is active exactly when it is stored and not completed. */
  lemma {:induction false} ActiveGoalsMembers(goals: seq<CustomGoal>)
    ensures forall g :: g in ActiveGoals(goals) <==> g in goals && !g.completed
  {
    if |goals| > 0 {
      ActiveGoalsMembers(goals[1..]);
      assert goals == [goals[0]] + goals[1..];
    }
  }

  /** Filtering keeps order: the active goals of a concatenation are concatenated. */
  lemma {:induction false} ActiveGoalsAppend(a: seq<CustomGoal>, b: seq<CustomGoal>)
    ensures ActiveGoals(a + b) == ActiveGoals(a) + ActiveGoals(b)
  {
    if |a| > 0 {
      var head: seq<CustomGoal> := if a[0].completed then [] else [a[0]];
      assert (a + b)[0] == a[0] && (a + b)[1..] == a[1..] + b;
      ActiveGoalsAppend(a[1..], b);
      calc {
        ActiveGoals(a + b);
        head + ActiveGoals(a[1..] + b);
        head + (ActiveGoals(a[1..]) + ActiveGoals(b));
        (head + ActiveGoals(a[1..])) + ActiveGoals(b);
      }
    } else {
      assert a + b == b;
    }
  }

  /** `deleteGoal`'s filter: every goal with `id` removed, the others kept in order. */
  function WithoutId(goals: seq<CustomGoal>, id: string): (rest: seq<CustomGoal>)
    ensures |rest| <= |goals|
    ensures FindGoal(goals, id).None? ==> rest == goals
  {
    if |goals| == 0 then []
    else (if goals[0].id == id then [] else [goals[0]]) + WithoutId(goals[1..], id)
  }

  /** A goal remains after the deletion exactly when it was stored and its id differs. */
  lemma {:induction false} WithoutIdMembers(goals: seq<CustomGoal>, id: string)
    ensures forall g :: g in WithoutId(goals, id) <==> g in goals && g.id != id
  {
    if |goals| > 0 {
      WithoutIdMembers(goals[1..], id);
      assert goals == [goals[0]] + goals[1..];
    }
  }

  /** Deleting keeps order: removing an id from a concatenation removes it from both parts. */
  lemma {:induction false} WithoutIdAppend(a: seq<CustomGoal>, b: seq<CustomGoal>, id: string)
    ensures WithoutId(a + b, id) == WithoutId(a, id) + WithoutId(b, id)
  {
    if |a| > 0 {
      var head: seq<CustomGoal> := if a[0].id == id then [] else [a[0]];
      assert (a + b)[0] == a[0] && (a + b)[1..] == a[1..] + b;
      WithoutIdAppend(a[1..], b, id);
      calc {
        WithoutId(a + b, id);
        head + WithoutId(a[1..] + b, id);
        head + (WithoutId(a[1..], id) + WithoutId(b, id));
        (head + WithoutId(a[1..], id)) + WithoutId(b, id);
      }
    } else {
      assert a + b == b;
    }
  }

  /** The goal `createGoal` builds from a draft, with its id and creation time. */
  function NewGoal(draft: GoalDraft, id: string, createdAt: int): (g: CustomGoal)
    ensures g.id == id && g.createdAt == createdAt && !g.completed
    ensures g.title == draft.title && g.description == draft.description && g.unit == draft.unit
    ensures g.targetValue == draft.targetValue && g.currentValue == draft.currentValue
    ensures g.deadline == draft.deadline
  {
    CustomGoal(id, draft.title, draft.description, draft.targetValue, draft.currentValue,
               draft.unit, draft.deadline, createdAt, false)
  }

  /**
   * `updateGoalProgress` on values: the first goal with `id` gets `newValue` as its current
   * value and is completed if it reaches its target; a completed goal stays completed.
   */
  function Progressed(goals: seq<CustomGoal>, id: string, newValue: int): (r: seq<CustomGoal>)
    ensures |r| == |goals|
    ensures FindGoal(goals, id).None? ==> r == goals
    ensures FindGoal(goals, id).Some? ==> var i := FindGoal(goals, id).value;
      && r[i] == goals[i].(currentValue := newValue,
                           completed := goals[i].completed || newValue >= goals[i].targetValue)
      && forall j :: 0 <= j < |goals| && j != i ==> r[j] == goals[j]
    ensures forall j :: 0 <= j < |goals| ==> goals[j].completed ==> r[j].completed
  {
    match FindGoal(goals, id)
    case None => goals
    case Some(i) =>
      var completed := goals[i].completed || newValue >= goals[i].targetValue;
      goals[i := goals[i].(currentValue := newValue, completed := completed)]
  }

  /** `completeGoal` on values: the first goal with `id` is completed, nothing else changes. */
  function MarkedComplete(goals: seq<CustomGoal>, id: string): (r: seq<CustomGoal>)
    ensures |r| == |goals|
    ensures FindGoal(goals, id).None? ==> r == goals
    ensures FindGoal(goals, id).Some? ==> var i := FindGoal(goals, id).value;
      && r[i] == goals[i].(completed := true)
      && forall j :: 0 <= j < |goals| && j != i ==> r[j] == goals[j]
  {
    match FindGoal(goals, id)
    case None => goals
    case Some(i) => goals[i := goals[i].(completed := true)]
  }

  /** Lists with the same ids in the same places find the same goal for every id. */
  lemma FindGoalAgrees(a: seq<CustomGoal>, b: seq<CustomGoal>, id: string)
    requires |a| == |b|
    requires forall i :: 0 <= i < |a| ==> a[i].id == b[i].id
    ensures FindGoal(a, id) == FindGoal(b, id)
    decreases |a|
  {
    if |a| > 0 && a[0].id != id {
      assert forall i :: 0 <= i < |a| - 1 ==> a[1..][i].id == b[1..][i].id;
      FindGoalAgrees(a[1..], b[1..], id);
    }
  }

  /** Completing a goal twice is completing it once. */
  lemma MarkCompleteIdempotent(goals: seq<CustomGoal>, id: string)
    ensures MarkedComplete(MarkedComplete(goals, id), id) == MarkedComplete(goals, id)
  {
    var once := MarkedComplete(goals, id);
    FindGoalAgrees(goals, once, id);
  }

  /** Completing a goal takes it out of the active goals and leaves the others there. */
  lemma CompletedGoalIsNotActive(goals: seq<CustomGoal>, id: string)
    requires FindGoal(goals, id).Some?
    ensures var i := FindGoal(goals, id).value;
      goals[i].(completed := true) !in ActiveGoals(MarkedComplete(goals, id))
    ensures forall j :: 0 <= j < |goals| && j != FindGoal(goals, id).value && !goals[j].completed ==>
      goals[j] in ActiveGoals(MarkedComplete(goals, id))
  {
    var done := MarkedComplete(goals, id);
    ActiveGoalsMembers(done);
    forall j | 0 <= j < |goals| && j != FindGoal(goals, id).value && !goals[j].completed
      ensures goals[j] in ActiveGoals(done)
    {
      assert done[j] == goals[j];
    }
  }

  /** The persisted custom-goal list; a missing list reads as empty. */
  class GoalStore {
    var goals: seq<CustomGoal>

    /** A store with nothing persisted yet. */
    constructor ()
      ensures goals == []
    {
      goals := [];
    }

    /** `getAllGoals`. */
    method GetAllGoals() returns (all: seq<CustomGoal>)
      ensures all == goals
    {
      all := goals;
    }

    /** `getActiveGoals`. */
    method GetActiveGoals() returns (active: seq<CustomGoal>)
      ensures active == ActiveGoals(goals)
    {
      active := ActiveGoals(goals);
    }

    /**
     * `createGoal(goal)`, with the two clock readings it takes: `idTime` from `Date.now()`,
     * written in decimal as the id, and `createdAt` from `new Date()`. The new goal is
     * appended after the existing ones.
     */
    method CreateGoal(draft: GoalDraft, idTime: nat, createdAt: int) returns (newGoal: CustomGoal)
      modifies this
      ensures newGoal == NewGoal(draft, Decimal.NatToString(idTime), createdAt)
      ensures goals == old(goals) + [newGoal]
    {
      newGoal := NewGoal(draft, Decimal.NatToString(idTime), createdAt);
      var existingGoals := GetAllGoals();
      goals := existingGoals + [newGoal];
    }

    /** `updateGoalProgress(goalId, newValue)`: updates the first matching goal in place. */
    method UpdateGoalProgress(goalId: string, newValue: int)
      modifies this
      ensures goals == Progressed(old(goals), goalId, newValue)
    {
      var goalIndex := FindGoal(goals, goalId);
      if goalIndex.Some? {
        var i := goalIndex.value;
        goals := goals[i := goals[i].(currentValue := newValue)];
        if newValue >= goals[i].targetValue {
          goals := goals[i := goals[i].(completed := true)];
        }
      }
    }

    /** `completeGoal(goalId)`: completes the first matching goal in place. */
    method CompleteGoal(goalId: string)
      modifies this
      ensures goals == MarkedComplete(old(goals), goalId)
    {
      var goalIndex := FindGoal(goals, goalId);
      if goalIndex.Some? {
        goals := goals[goalIndex.value := goals[goalIndex.value].(completed := true)];
      }
    }

    /** `deleteGoal(goalId)`. */
    method DeleteGoal(goalId: string)
      modifies this
      ensures goals == WithoutId(old(goals), goalId)
    {
      goals := WithoutId(goals, goalId);
    }

    /** `resetAllGoals`: the list is removed, so it reads as empty. */
    method ResetAllGoals()
      modifies this
      ensures goals == []
    {
      goals := [];
    }
  }
}
