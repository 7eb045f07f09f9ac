/**
 * The agent's goal list as values: a goal, the rules for choosing which one to
 * work on, and the replies that count as progress.
 */
module Goals {
  import opened Wrappers
  import opened Text

  datatype GoalStatus = Active | Completed

  /** A goal record; its `created`/`completed` timestamps and empty `notes` are not modelled. */
  datatype Goal = Goal(
    id: string,
    description: string,
    category: string,
    priority: int,
    progress: int,
    status: GoalStatus,
    steps: seq<string>,
    outcome: Option<string>)

  const MaxGoals: nat := 10
  const ProgressStep: int := 10
  const FullProgress: int := 100
  const AchievedOutcome: string := "Goal achieved through autonomous work"

  /** An active goal on the list: progress in [0, 100) (at 100 it is moved off the list). */
  predicate ActiveGoal(g: Goal)
  {
    g.status == Active && 0 <= g.progress < FullProgress
  }

  /** `goal_{int(time.time())}_{len(goals)}`. */
  function GoalId(now: real, count: nat): (id: string)
    ensures StartsWith(id, "goal_")
  {
    "goal_" + IntToString(Trunc(now)) + "_" + NatToString(count)
  }

  /** The record `create_goal` appends. */
  function NewGoal(id: string, description: string, category: string, priority: int): (g: Goal)
    ensures ActiveGoal(g) && g.progress == 0 && g.steps == [] && g.outcome.None?
  {
    Goal(id, description, category, priority, 0, Active, [], None)
  }

  /** The position of the first goal with this id, as the `for` loop of `complete_goal` finds it. */
  function GoalIndex(goals: seq<Goal>, id: string): (r: Option<nat>)
    ensures r.Some? ==> r.value < |goals| && goals[r.value].id == id
    ensures r.Some? ==> forall j :: 0 <= j < r.value ==> goals[j].id != id
    ensures r.None? ==> forall j :: 0 <= j < |goals| ==> goals[j].id != id
    decreases |goals|
  {
    if goals == [] then None
    else if goals[0].id == id then Some(0)
    else match GoalIndex(goals[1..], id)
      case None => None
      case Some(j) => Some(j + 1)
  }

  /** The goal `max(active_goals, key=priority)` picks: the first one of highest priority. */
  function BestGoal(goals: seq<Goal>): (r: nat)
    requires goals != []
    ensures r < |goals|
    ensures forall j :: 0 <= j < |goals| ==> goals[j].priority <= goals[r].priority
    ensures forall j :: 0 <= j < r ==> goals[j].priority < goals[r].priority
    decreases |goals|
  {
    if |goals| == 1 then 0
    else
      var k := BestGoal(goals[..|goals| - 1]);
      if goals[|goals| - 1].priority > goals[k].priority then |goals| - 1 else k
  }

  /** A reply that names a step: longer than 10 characters and not starting with "none". */
  predicate IsStep(reply: string)
  {
    |reply| > 10 && !StartsWith(Lower(reply), "none")
  }

  /** One step of progress on a goal: the step is logged (first 100 characters) and progress
      rises by 10, capped at 100. */
  function Advance(g: Goal, step: string): (r: Goal)
    requires 0 <= g.progress <= FullProgress
    ensures r.id == g.id && r.priority == g.priority && r.status == g.status
    ensures 0 <= r.progress <= FullProgress
    ensures r.progress == if g.progress + ProgressStep <= FullProgress then g.progress + ProgressStep else FullProgress
    ensures |r.steps| == |g.steps| + 1 && r.steps[..|g.steps|] == g.steps
    ensures var logged := r.steps[|g.steps|];
      |logged| == (if |step| <= 100 then |step| else 100) && logged == step[..|logged|]
  {
    var p := g.progress + ProgressStep;
    g.(steps := g.steps + [Prefix(step, 100)], progress := if p <= FullProgress then p else FullProgress)
  }

  /** A fresh goal reaches 100 after exactly ten steps, and not before. */
  lemma TenStepsComplete(g: Goal, steps: seq<string>)
    requires g.progress == 0 && |steps| <= 10
    ensures AdvanceAll(g, steps).progress == ProgressStep * |steps|
    ensures AdvanceAll(g, steps).progress >= FullProgress <==> |steps| == 10
  {
    AdvanceAllProgress(g, steps);
  }

  function AdvanceAll(g: Goal, steps: seq<string>): Goal
    requires 0 <= g.progress <= FullProgress
    decreases |steps|
  {
    if steps == [] then g else AdvanceAll(Advance(g, steps[0]), steps[1..])
  }

  lemma {:induction false} AdvanceAllProgress(g: Goal, steps: seq<string>)
    requires 0 <= g.progress && g.progress + ProgressStep * |steps| <= FullProgress
    ensures AdvanceAll(g, steps).progress == g.progress + ProgressStep * |steps|
    decreases |steps|
  {
    if steps != [] {
      AdvanceAllProgress(Advance(g, steps[0]), steps[1..]);
    }
  }

  /** The list without its `j`-th goal (`goals.remove(goal)` on the goal found at `j`). */
  function RemoveAt(goals: seq<Goal>, j: nat): (r: seq<Goal>)
    requires j < |goals|
    ensures |r| == |goals| - 1
    ensures forall i :: 0 <= i < j ==> r[i] == goals[i]
    ensures forall i :: j <= i < |r| ==> r[i] == goals[i + 1]
  {
    goals[..j] + goals[j + 1..]
  }
}
