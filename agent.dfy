/**
 * The autonomous agent: its task registry, circuit breaker, performance
 * records, bounded logs and goals, with one pass of the scheduling loop as
 * `Tick`. Task bodies, the model's replies, the clock and `random.random()`
 * are inputs.
 */
module AutonomousAgent {
  import opened Wrappers
  import opened Text
  import opened Slices
  import opened OrderedMap
  import opened Scheduler
  import opened Goals

  /** An entry of the learning log (its timestamp is not modelled). */
  datatype LogEntry = LogEntry(source: string, summary: string, userId: Option<string>)

  const MaxLogEntries: nat := 1000
  const MaxSummary: nat := 200
  const RecentActions: nat := 10

  /** The snapshot `get_status` returns. */
  datatype Status = Status(
    running: bool,
    activeTasks: nat,
    disabledTasks: nat,
    currentlyRunning: nat,
    runningTaskNames: seq<string>,
    totalTasks: nat,
    recentActions: seq<Action>,
    circuitBreakerOpen: bool,
    failedTasks: map<TaskId, nat>)

  function DefaultTask(id: TaskId, name: string, interval: real, priority: int): Task
  {
    Task(id, name, interval, 0.0, true, priority, false, 0)
  }

  /** The nine built-in tasks, in registration order. */
  function DefaultTasks(): OMap<TaskId, Task>
  {
    [ ("research_topics", DefaultTask("research_topics", "Research Interesting Topics", 1800.0, 3)),
      ("summarize_conversations", DefaultTask("summarize_conversations", "Summarize Long Conversations", 3600.0, 2)),
      ("extract_learnings", DefaultTask("extract_learnings", "Extract Learning Points", 600.0, 5)),
      ("monitor_screen", DefaultTask("monitor_screen", "Monitor Screen Activity", 60.0, 4)),
      ("offer_suggestions", DefaultTask("offer_suggestions", "Offer Proactive Suggestions", 900.0, 3)),
      ("consolidate_knowledge", DefaultTask("consolidate_knowledge", "Consolidate Knowledge", 3600.0, 2)),
      ("self_test", DefaultTask("self_test", "Test Own Capabilities", 7200.0, 1)),
      ("monitor_network", DefaultTask("monitor_network", "Monitor Network Activity", 300.0, 4)),
      ("track_goals", DefaultTask("track_goals", "Track and Pursue Goals", 1800.0, 5)) ]
  }

  /** Every task is filed under its own id. */
  predicate KeyedById(tasks: OMap<TaskId, Task>)
  {
    forall i :: 0 <= i < |tasks| ==> tasks[i].1.id == tasks[i].0
  }

  lemma DefaultTasksWellFormed()
    ensures |DefaultTasks()| == 9 && Distinct(DefaultTasks()) && KeyedById(DefaultTasks())
    ensures forall i :: 0 <= i < 9 ==>
      var t := DefaultTasks()[i].1; t.enabled && !t.isRunning && t.failureCount == 0 && t.lastRun == 0.0
  {
    var ts := DefaultTasks();
    forall i, j | 0 <= i < j < |ts| ensures ts[i].0 != ts[j].0 {
      var a, b := ts[i].0, ts[j].0;
      if |a| == |b| {
        // equal lengths: the names still differ in one of their first four letters
        assert a[..4] != b[..4] || a[8] != b[8];
      }
    }
  }

  function EnabledTasks(tasks: OMap<TaskId, Task>): seq<Task>
  {
    Filter(Values(tasks), (t: Task) => t.enabled)
  }

  function DisabledTasks(tasks: OMap<TaskId, Task>): seq<Task>
  {
    Filter(Values(tasks), (t: Task) => !t.enabled)
  }

  /** The tasks whose bodies are in flight, in registry order. */
  function RunningTasks(tasks: OMap<TaskId, Task>): seq<Task>
  {
    Filter(Values(tasks), (t: Task) => t.isRunning)
  }

  function NameOf(t: Task): string { t.name }

  /** The names of the running tasks list every running task, and nothing else. */
  lemma RunningNamesListed(tasks: OMap<TaskId, Task>)
    ensures forall i :: 0 <= i < |tasks| && tasks[i].1.isRunning ==>
      tasks[i].1.name in MapSeq(RunningTasks(tasks), NameOf)
    ensures forall n :: n in MapSeq(RunningTasks(tasks), NameOf) ==>
      exists i :: 0 <= i < |tasks| && tasks[i].1.isRunning && tasks[i].1.name == n
  {
    var vs, busy := Values(tasks), RunningTasks(tasks);
    var names := MapSeq(busy, NameOf);
    forall i | 0 <= i < |tasks| && tasks[i].1.isRunning
      ensures tasks[i].1.name in names
    {
      assert vs[i] == tasks[i].1;
      var k :| 0 <= k < |busy| && busy[k] == vs[i];
      MapSeqAt(busy, NameOf, k);
    }
    forall n | n in names
      ensures exists i :: 0 <= i < |tasks| && tasks[i].1.isRunning && tasks[i].1.name == n
    {
      var k :| 0 <= k < |names| && names[k] == n;
      MapSeqAt(busy, NameOf, k);
      assert busy[k] in vs;
      var i :| 0 <= i < |vs| && vs[i] == busy[k];
      assert tasks[i].1 == busy[k];
    }
  }

  /** The learning-log entries `create_goal` and `complete_goal` write; the second argument
      of their `_log_learning` calls lands in `user_id`. */
  function GoalCreatedEntry(description: string): LogEntry
  {
    LogEntry("autonomous", Prefix("Goal created: " + description, MaxSummary), Some("goal_system"))
  }

  function GoalCompletedEntry(description: string, outcome: string): LogEntry
  {
    LogEntry("autonomous", Prefix("Goal completed: " + description + " - " + outcome, MaxSummary), Some("goal_system"))
  }

  /** The failure count of the task filed under `id`, or 0. */
  function FailuresOf(tasks: OMap<TaskId, Task>, id: TaskId): nat
  {
    match Get(tasks, id)
    case Some(t) => t.failureCount
    case None => 0
  }

  /** `reset_task_failures()` with no id: every task not currently running is re-enabled
      with a clean failure count. */
  function ResetAll(tasks: OMap<TaskId, Task>): (r: OMap<TaskId, Task>)
    ensures |r| == |tasks| && Keys(r) == Keys(tasks)
    ensures forall i :: 0 <= i < |tasks| && tasks[i].1.isRunning ==> r[i] == tasks[i]
    ensures forall i :: 0 <= i < |tasks| && !tasks[i].1.isRunning ==>
      r[i].1 == tasks[i].1.(failureCount := 0, enabled := true)
  {
    seq(|tasks|, i requires 0 <= i < |tasks| =>
      if tasks[i].1.isRunning then tasks[i] else (tasks[i].0, tasks[i].1.(failureCount := 0, enabled := true)))
  }

  lemma ResetAllKeepsValid(s: Sched)
    requires SchedValid(s)
    ensures SchedValid(s.(tasks := ResetAll(s.tasks)))
  {
    var r := ResetAll(s.tasks);
    forall j, k | 0 <= j < k < |r| ensures r[j].0 != r[k].0 {
      assert r[j].0 == s.tasks[j].0 && r[k].0 == s.tasks[k].0;
    }
  }

  /** After a reset, no task the reset touched is disabled by the next pass: none of them has
      failures left to count. */
  lemma ResetAllThenPassKeepsEnabled(s: Sched, j: nat, now: real, turn: TaskId -> Turn)
    requires j < |s.tasks| && !s.tasks[j].1.isRunning
    ensures Pass(s.(tasks := ResetAll(s.tasks)), now, turn).tasks[j].1.enabled
  {
    var s' := s.(tasks := ResetAll(s.tasks));
    PassAt(s', j, now, turn);
    ScanTaskEffect(Scanned(s', j, now, turn), j, now, turn(s'.tasks[j].0));
  }

  class Agent {
    var running: bool
    var tasks: OMap<TaskId, Task>
    var lastDecision: real
    var actionHistory: seq<Action>
    var breaker: Breaker
    var goals: seq<Goal>
    var completedGoals: seq<Goal>
    var perf: map<TaskId, Perf>
    var optimizationEnabled: bool
    var learningLog: seq<LogEntry>

    ghost predicate Valid()
      reads this
    {
      SchedValid(State()) && GoalsValid()
    }

    /** The bounds on the logs and goals, and the status every goal list keeps. */
    ghost predicate GoalsValid()
      reads this`learningLog, this`goals, this`completedGoals
    {
      && |learningLog| <= MaxLogEntries
      && |goals| <= MaxGoals
      && (forall i :: 0 <= i < |goals| ==> goals[i].status == Active && 0 <= goals[i].progress <= FullProgress)
      && (forall i :: 0 <= i < |completedGoals| ==> completedGoals[i].status == Completed)
    }

    /** The part of the state the scheduling loop reads and writes. */
    function State(): Sched
      reads this`tasks, this`breaker, this`perf, this`actionHistory
    {
      Sched(tasks, breaker, perf, actionHistory)
    }

    twostate predicate GoalsUnchanged()
      reads this
    {
      goals == old(goals) && completedGoals == old(completedGoals) && learningLog == old(learningLog)
    }

    twostate predicate SettingsUnchanged()
      reads this
    {
      running == old(running) && lastDecision == old(lastDecision) && optimizationEnabled == old(optimizationEnabled)
    }

    constructor()
      ensures Valid()
      ensures tasks == DefaultTasks() && breaker == Breaker(0, false, 0.0) && perf == map[]
      ensures actionHistory == [] && learningLog == [] && goals == [] && completedGoals == []
      ensures !running && lastDecision == 0.0 && optimizationEnabled
    {
      running := false;
      tasks := DefaultTasks();
      lastDecision := 0.0;
      actionHistory := [];
      breaker := Breaker(0, false, 0.0);
      goals := [];
      completedGoals := [];
      perf := map[];
      optimizationEnabled := true;
      learningLog := [];
      DefaultTasksWellFormed();
    }

    /** `register_task`: files the task under its id, replacing any task with that id in place. */
    method RegisterTask(t: Task)
      requires Valid()
      modifies this
      ensures Valid()
      ensures tasks == Put(old(tasks), t.id, t)
      ensures breaker == old(breaker) && perf == old(perf) && actionHistory == old(actionHistory)
      ensures GoalsUnchanged() && SettingsUnchanged()
    {
      tasks := Put(tasks, t.id, t);
    }

    /** `remove_task`: drops the task filed under `id`; an unknown id changes nothing. */
    method RemoveTask(id: TaskId)
      requires Valid()
      modifies this
      ensures Valid()
      ensures tasks == Remove(old(tasks), id)
      ensures breaker == old(breaker) && perf == old(perf) && actionHistory == old(actionHistory)
      ensures GoalsUnchanged() && SettingsUnchanged()
    {
      tasks := Remove(tasks, id);
    }

    /** `_check_circuit_breaker`. */
    method CheckCircuitBreaker(now: real)
      modifies this`breaker
      ensures breaker == CheckBreaker(old(breaker), now)
      ensures tasks == old(tasks) && perf == old(perf) && actionHistory == old(actionHistory)
      ensures GoalsUnchanged() && SettingsUnchanged()
    {
      if breaker.failures >= BreakerThreshold {
        breaker := breaker.(open := true);
        breaker := breaker.(resetTime := now + BreakerCooldown);
      }
    }

    /** `_update_task_performance`: a new record starts at zero, then the run is added. */
    method UpdateTaskPerformance(id: TaskId, success: bool, duration: real)
      modifies this`perf
      ensures perf == old(perf)[id := UpdatePerf(PerfOf(old(perf), id), success, duration)]
      ensures tasks == old(tasks) && breaker == old(breaker) && actionHistory == old(actionHistory)
      ensures GoalsUnchanged() && SettingsUnchanged()
    {
      if id !in perf {
        perf := perf[id := NoRuns];
      }
      perf := perf[id := UpdatePerf(perf[id], success, duration)];
    }

    /** `_record_action`: append, then keep the newest 100. */
    method RecordAction(a: Action)
      modifies this`actionHistory
      ensures actionHistory == Push(old(actionHistory), a, MaxHistory)
      ensures tasks == old(tasks) && breaker == old(breaker) && perf == old(perf)
      ensures GoalsUnchanged() && SettingsUnchanged()
    {
      actionHistory := actionHistory + [a];
      if |actionHistory| > MaxHistory {
        actionHistory := actionHistory[|actionHistory| - MaxHistory..];
      }
    }

    /** `_log_learning`: the summary is cut to 200 characters; append, then keep the newest 1000. */
    method LogLearning(summary: string, userId: Option<string>, source: string)
      modifies this`learningLog
      ensures learningLog == Push(old(learningLog), LogEntry(source, Prefix(summary, MaxSummary), userId), MaxLogEntries)
      ensures tasks == old(tasks) && breaker == old(breaker) && perf == old(perf) && actionHistory == old(actionHistory)
      ensures goals == old(goals) && completedGoals == old(completedGoals) && SettingsUnchanged()
    {
      learningLog := learningLog + [LogEntry(source, Prefix(summary, MaxSummary), userId)];
      if |learningLog| > MaxLogEntries {
        learningLog := learningLog[|learningLog| - MaxLogEntries..];
      }
    }

    /** `_optimize_task_interval`: retunes the interval of a known task with a record. */
    method OptimizeTaskInterval(id: TaskId)
      requires Valid()
      modifies this
      ensures Valid()
      ensures id in old(perf) && HasKey(old(tasks), id) ==>
        var t := Get(old(tasks), id).value;
        tasks == Put(old(tasks), id, t.(interval := TunedInterval(optimizationEnabled, old(perf)[id], t.interval)))
      ensures !(id in old(perf) && HasKey(old(tasks), id)) ==> tasks == old(tasks)
      ensures breaker == old(breaker) && perf == old(perf) && actionHistory == old(actionHistory)
      ensures GoalsUnchanged() && SettingsUnchanged()
    {
      if !optimizationEnabled || id !in perf || !HasKey(tasks, id) {
        if id in perf && HasKey(tasks, id) {
          PutCurrent(tasks, id);
        }
        return;
      }
      var t := Get(tasks, id).value;
      tasks := Put(tasks, id, t.(interval := TunedInterval(true, perf[id], t.interval)));
    }

    /** The breaker side of the `except` branches: a timeout, and an error that mentions
        Ollama or the connection, count one more failure and re-check the breaker; a
        success zeroes the counter. */
    method ChargeBreaker(o: Outcome)
      modifies this`breaker
      ensures breaker == BreakerAfterRun(old(breaker), o)
    {
      match o {
        case Returned(_) =>
          breaker := breaker.(failures := 0);
        case TimedOut(clock) =>
          breaker := breaker.(failures := breaker.failures + 1);
          CheckCircuitBreaker(clock);
        case Raised(e, _, clock) =>
          if IsOllamaError(e) {
            breaker := breaker.(failures := breaker.failures + 1);
            CheckCircuitBreaker(clock);
          }
      }
    }

    /** The body of `t`, a due task now marked running at index `i`, ran after the breaker
        check let it through and ended with `o`; the `except` branches and the `finally`
        block have run. */
    method RunTask(i: nat, t: Task, now: real, o: Outcome)
      requires i < |tasks| && tasks[i].1 == t.(isRunning := true)
      modifies this`tasks, this`breaker, this`perf, this`actionHistory
      ensures tasks == old(tasks)[i := (old(tasks)[i].0, TaskAfterRun(t, now, o))]
      ensures breaker == BreakerAfterRun(old(breaker), o)
      ensures perf == PerfAfterRun(old(perf), t.id, o)
      ensures actionHistory == Push(old(actionHistory), ActionFor(t.name, o), MaxHistory)
    {
      var id := tasks[i].0;
      var task := tasks[i].1;
      var success: bool, duration: real, action: Action;
      match o {
        case Returned(d) =>
          task := task.(failureCount := 0);
          success, duration, action := true, d, Action(task.name, ActionStatus.Success, None, None);
        case TimedOut(_) =>
          task := task.(failureCount := task.failureCount + 1);
          success, duration, action := false, TaskTimeout, Action(task.name, Timeout, Some(TimeoutMessage), None);
        case Raised(e, d, _) =>
          task := task.(failureCount := task.failureCount + 1);
          success, duration, action := false, d, Action(task.name, Failed, Some(e), None);
      }
      assert success == RunRecord(o).0 && duration == RunRecord(o).1;
      assert action == ActionFor(t.name, o) && task.id == t.id;
      assert task.(lastRun := now, isRunning := false) == TaskAfterRun(t, now, o);
      ChargeBreaker(o);
      UpdateTaskPerformance(task.id, success, duration);
      RecordAction(action);
      task := task.(lastRun := now, isRunning := false);
      tasks := tasks[i := (id, task)];
    }

    /** A due task that the breaker lets through: marked running, an expired breaker closed
        and zeroed, then the body's outcome `o` handled by the `except` and `finally` blocks. */
    method ExecuteDue(i: nat, now: real, o: Outcome)
      requires i < |tasks|
      modifies this`tasks, this`breaker, this`perf, this`actionHistory
      ensures tasks == SetTask(old(tasks), i, TaskAfterRun(old(tasks)[i].1, now, o))
      ensures breaker == BreakerAfterRun(BreakerBeforeRun(old(breaker)), o)
      ensures perf == PerfAfterRun(old(perf), old(tasks)[i].1.id, o)
      ensures actionHistory == Push(old(actionHistory), ActionFor(old(tasks)[i].1.name, o), MaxHistory)
    {
      var t := tasks[i].1;
      MarkForRun(i);
      RunTask(i, t, now, o);
    }

    /** The start of the `try` block: the task is marked running, and a breaker whose
        cooldown has passed is closed and its failure count zeroed. */
    method MarkForRun(i: nat)
      requires i < |tasks|
      modifies this`tasks, this`breaker
      ensures tasks == old(tasks)[i := (old(tasks)[i].0, old(tasks)[i].1.(isRunning := true))]
      ensures breaker == BreakerBeforeRun(old(breaker))
    {
      var id, t := tasks[i].0, tasks[i].1;
      tasks := tasks[i := (id, t.(isRunning := true))];
      if breaker.open {
        breaker := breaker.(open := false);
        breaker := breaker.(failures := 0);
      }
    }

    /** A due task that meets an open breaker: it was marked running, and the `finally`
        block stamps it and clears the mark without running the body. */
    method SkipDue(i: nat, now: real)
      requires i < |tasks|
      modifies this`tasks
      ensures tasks == SetTask(old(tasks), i, old(tasks)[i].1.(isRunning := false, lastRun := now))
    {
      var id, t := tasks[i].0, tasks[i].1;
      tasks := tasks[i := (id, t.(isRunning := true))];
      tasks := tasks[i := (id, t.(isRunning := false, lastRun := now))];
    }

    /** The loop body for a task that is due: test the breaker against a fresh reading of
        the clock, then run the body or skip it; the task is stamped either way. */
    method RunDue(i: nat, now: real, u: Turn)
      requires i < |tasks|
      requires VerdictOf(tasks[i].1, breaker, now, u.clock) in {BreakerSkip, Run}
      modifies this`tasks, this`breaker, this`perf, this`actionHistory
      ensures State() == ScanTask(old(State()), i, now, u)
    {
      ghost var s := State();
      if breaker.open && !(u.clock > breaker.resetTime) {
        assert VerdictOf(s.tasks[i].1, s.breaker, now, u.clock) == BreakerSkip;
        SkipDue(i, now);
      } else {
        assert VerdictOf(s.tasks[i].1, s.breaker, now, u.clock) == Run;
        ExecuteDue(i, now, u.outcome);
        assert State() == Execute(s, i, BreakerBeforeRun(s.breaker), now, u.outcome);
      }
    }

    /** The loop body for the `i`-th task of the registry. */
    method ScanOne(i: nat, now: real, u: Turn)
      requires SchedValid(State()) && i < |tasks|
      modifies this`tasks, this`breaker, this`perf, this`actionHistory
      ensures SchedValid(State())
      ensures State() == ScanTask(old(State()), i, now, u)
    {
      ghost var s := State();
      var t := tasks[i].1;
      if !t.enabled {
        // not enabled: skipped
      } else if t.isRunning {
        // still running from an earlier pass: skipped
      } else if t.failureCount >= MaxFailures {
        tasks := tasks[i := (tasks[i].0, t.(enabled := false, lastRun := now))];
      } else if now - t.lastRun >= t.interval {
        RunDue(i, now, u);
      }
      assert SchedValid(State()) by {
        ScanTaskKeepsValid(s, i, now, u);
      }
    }

    /** The `for task in self.tasks.values()` loop of one pass started at `now`. */
    method ScanAll(now: real, turn: TaskId -> Turn)
      requires Valid()
      modifies this`tasks, this`breaker, this`perf, this`actionHistory
      ensures Valid()
      ensures State() == Pass(old(State()), now, turn)
    {
      ghost var s0 := State();
      var i := 0;
      while i < |tasks|
        invariant 0 <= i <= |tasks| == |s0.tasks|
        invariant State() == Scanned(s0, i, now, turn)
        invariant SchedValid(State())
      {
        ghost var before := State();
        ScanOne(i, now, turn(tasks[i].0));
        assert State() == Scanned(s0, i + 1, now, turn) by {
          assert before == Scanned(s0, i, now, turn) && before.tasks[i].0 == tasks[i].0;
        }
        i := i + 1;
      }
    }

    /** One pass of the scheduling loop that starts at `now`. `turn(id)` is what the loop body
        of the task filed under `id` meets: the clock the breaker test reads and how the body
        ends if it runs. `decisionInFlight` is whether the decision lock is held. Returns
        whether a new decision is launched. */
    method Tick(now: real, turn: TaskId -> Turn, decisionInFlight: bool) returns (launched: bool)
      requires Valid()
      modifies this`tasks, this`breaker, this`perf, this`actionHistory, this`lastDecision
      ensures Valid()
      ensures State() == Pass(old(State()), now, turn)
      ensures launched <==> now - old(lastDecision) >= DecisionInterval && !decisionInFlight
      ensures lastDecision == if now - old(lastDecision) >= DecisionInterval then now else old(lastDecision)
    {
      ScanAll(now, turn);
      launched := false;
      if now - lastDecision >= DecisionInterval {
        if !decisionInFlight {
          launched := true;
        }
        lastDecision := now;
      }
    }

    /** `_make_autonomous_decision` once the model has answered (`None`: it timed out or
        failed). Only a concrete choice is logged, and nothing at all is asked while no task is
        enabled or the breaker is open. */
    method MakeDecision(reply: Option<string>)
      requires Valid()
      modifies this
      ensures Valid()
      ensures actionHistory ==
        if EnabledTasks(old(tasks)) != [] && !old(breaker).open && reply.Some? && WorthRecording(reply.value)
        then Push(old(actionHistory), DecisionAction(reply.value), MaxHistory)
        else old(actionHistory)
      ensures tasks == old(tasks) && breaker == old(breaker) && perf == old(perf)
      ensures GoalsUnchanged() && SettingsUnchanged()
    {
      if EnabledTasks(tasks) == [] || breaker.open || reply.None? {
        return;
      }
      var decision := reply.value;
      if !Contains(Strip(Lower(decision)), "nothing") && |decision| > 10 {
        RecordAction(Action("autonomous_decision", Decided, None, Some(Prefix(decision, 200))));
      }
    }

    /** `get_status`. */
    function GetStatus(): (st: Status)
      reads this
      ensures st.totalTasks == |tasks| && st.activeTasks + st.disabledTasks == st.totalTasks
      ensures st.activeTasks == |EnabledTasks(tasks)| && st.disabledTasks == |DisabledTasks(tasks)|
      ensures st.currentlyRunning == |st.runningTaskNames| <= |tasks|
      ensures st.runningTaskNames == MapSeq(RunningTasks(tasks), NameOf)
      ensures forall i :: 0 <= i < |tasks| && tasks[i].1.isRunning ==> tasks[i].1.name in st.runningTaskNames
      ensures |st.recentActions| == (if |actionHistory| <= RecentActions then |actionHistory| else RecentActions)
      ensures st.recentActions == actionHistory[|actionHistory| - |st.recentActions|..]
      ensures st.circuitBreakerOpen == breaker.open && st.running == running
      ensures forall id :: id in st.failedTasks ==> HasKey(tasks, id) && st.failedTasks[id] == FailuresOf(tasks, id) > 0
    {
      var enabled, disabled, busy := EnabledTasks(tasks), DisabledTasks(tasks), RunningTasks(tasks);
      FilterSplits(Values(tasks), (t: Task) => t.enabled, (t: Task) => !t.enabled);
      RunningNamesListed(tasks);
      Status(
        running,
        |enabled|,
        |disabled|,
        |busy|,
        MapSeq(busy, NameOf),
        |tasks|,
        KeepLast(actionHistory, RecentActions),
        breaker.open,
        map id | id in Keys(tasks) && FailuresOf(tasks, id) > 0 :: FailuresOf(tasks, id))
    }

    /** `get_status` lists every running task's name, and only running tasks'. */
    lemma RunningNamesExact(name: string)
      ensures name in GetStatus().runningTaskNames <==>
        exists i :: 0 <= i < |tasks| && tasks[i].1.isRunning && tasks[i].1.name == name
    {
      RunningNamesListed(tasks);
    }

    /** `get_status` lists every task with failures, with its count, and no other. */
    lemma FailedTasksExact(i: nat)
      requires Valid() && i < |tasks|
      ensures tasks[i].0 in GetStatus().failedTasks <==> tasks[i].1.failureCount > 0
      ensures tasks[i].1.failureCount > 0 ==> GetStatus().failedTasks[tasks[i].0] == tasks[i].1.failureCount
    {
      GetAt(tasks, i);
      assert tasks[i].0 in Keys(tasks);
    }

    /** `reset_task_failures`: with an id (a non-empty string), that task unless it is running;
        without one, every task not running. */
    method ResetTaskFailures(id: Option<TaskId>)
      requires Valid()
      modifies this
      ensures Valid()
      ensures id.Some? && id.value != "" ==>
        tasks == if HasKey(old(tasks), id.value) && !Get(old(tasks), id.value).value.isRunning
          then Put(old(tasks), id.value, Get(old(tasks), id.value).value.(failureCount := 0, enabled := true))
          else old(tasks)
      ensures id.None? || id.value == "" ==> tasks == ResetAll(old(tasks))
      ensures breaker == old(breaker) && perf == old(perf) && actionHistory == old(actionHistory)
      ensures GoalsUnchanged() && SettingsUnchanged()
    {
      if id.Some? && id.value != "" {
        if HasKey(tasks, id.value) {
          var t := Get(tasks, id.value).value;
          if t.isRunning {
            return;
          }
          tasks := Put(tasks, id.value, t.(failureCount := 0, enabled := true));
        }
      } else {
        ResetAllTasks();
      }
    }

    /** The reset-all loop of `reset_task_failures`. */
    method ResetAllTasks()
      requires Valid()
      modifies this
      ensures Valid()
      ensures tasks == ResetAll(old(tasks))
      ensures breaker == old(breaker) && perf == old(perf) && actionHistory == old(actionHistory)
      ensures GoalsUnchanged() && SettingsUnchanged()
    {
      ghost var s0 := State();
      ghost var r := ResetAll(tasks);
      var i := 0;
      while i < |tasks|
        invariant 0 <= i <= |tasks| == |r|
        invariant forall j :: 0 <= j < i ==> tasks[j] == r[j]
        invariant forall j :: i <= j < |tasks| ==> tasks[j] == s0.tasks[j]
        invariant breaker == old(breaker) && perf == old(perf) && actionHistory == old(actionHistory)
        invariant GoalsUnchanged() && SettingsUnchanged()
      {
        if !tasks[i].1.isRunning {
          tasks := tasks[i := (tasks[i].0, tasks[i].1.(failureCount := 0, enabled := true))];
        }
        i := i + 1;
      }
      assert tasks == r;
      ResetAllKeepsValid(s0);
    }

    /** `create_goal` at time `now`: refused once ten goals are active. */
    method CreateGoal(description: string, category: string, priority: int, now: real) returns (id: Option<string>)
      requires Valid()
      modifies this
      ensures Valid()
      ensures |old(goals)| >= MaxGoals ==> id.None? && goals == old(goals) && learningLog == old(learningLog)
      ensures |old(goals)| < MaxGoals ==>
        && id == Some(GoalId(now, |old(goals)|))
        && goals == old(goals) + [NewGoal(id.value, description, category, priority)]
        && learningLog == Push(old(learningLog), GoalCreatedEntry(description), MaxLogEntries)
      ensures completedGoals == old(completedGoals)
      ensures tasks == old(tasks) && breaker == old(breaker) && perf == old(perf) && actionHistory == old(actionHistory)
      ensures SettingsUnchanged()
    {
      if |goals| >= MaxGoals {
        return None;
      }
      var goalId := GoalId(now, |goals|);
      goals := goals + [NewGoal(goalId, description, category, priority)];
      // the second argument lands in `user_id`; the source stays "autonomous"
      LogLearning("Goal created: " + description, Some("goal_system"), "autonomous");
      id := Some(goalId);
    }

    /** `complete_goal`: the first goal with this id moves to the completed list. */
    method CompleteGoal(goalId: string, outcome: string) returns (found: bool)
      requires Valid()
      modifies this
      ensures Valid()
      ensures found <==> GoalIndex(old(goals), goalId).Some?
      ensures !found ==> goals == old(goals) && completedGoals == old(completedGoals) && learningLog == old(learningLog)
      ensures found ==>
        var j := GoalIndex(old(goals), goalId).value;
        var g := old(goals)[j];
        && goals == RemoveAt(old(goals), j)
        && completedGoals == old(completedGoals) + [g.(status := Completed, outcome := Some(outcome))]
        && learningLog == Push(old(learningLog), GoalCompletedEntry(g.description, outcome), MaxLogEntries)
      ensures tasks == old(tasks) && breaker == old(breaker) && perf == old(perf) && actionHistory == old(actionHistory)
      ensures SettingsUnchanged()
    {
      var j := 0;
      while j < |goals|
        invariant 0 <= j <= |goals|
        invariant forall k :: 0 <= k < j ==> goals[k].id != goalId
      {
        if goals[j].id == goalId {
          var g := goals[j].(status := Completed, outcome := Some(outcome));
          completedGoals := completedGoals + [g];
          goals := RemoveAt(goals, j);
          LogLearning("Goal completed: " + g.description + " - " + outcome, Some("goal_system"), "autonomous");
          return true;
        }
        j := j + 1;
      }
      return false;
    }

    /** `_create_autonomous_goal` once the model has answered with `reply`. */
    method CreateAutonomousGoal(reply: Option<string>, now: real)
      requires Valid()
      modifies this
      ensures Valid()
      ensures reply.Some? && IsStep(reply.value) && |old(goals)| < MaxGoals ==>
        && goals == old(goals) + [NewGoal(GoalId(now, |old(goals)|), Strip(reply.value), "autonomous", 3)]
        && learningLog == Push(old(learningLog), GoalCreatedEntry(Strip(reply.value)), MaxLogEntries)
      ensures !(reply.Some? && IsStep(reply.value) && |old(goals)| < MaxGoals) ==>
        goals == old(goals) && learningLog == old(learningLog)
      ensures completedGoals == old(completedGoals)
      ensures tasks == old(tasks) && breaker == old(breaker) && perf == old(perf) && actionHistory == old(actionHistory)
      ensures SettingsUnchanged()
    {
      if reply.Some? && |reply.value| > 10 && !StartsWith(Lower(reply.value), "none") {
        var _ := CreateGoal(Strip(reply.value), "autonomous", 3, now);
      }
    }

    /** The body of the `track_goals` task: `coin` is `random.random()`, `reply` the model's
        answer (`None`: it timed out or failed). */
    method TrackGoals(coin: real, reply: Option<string>, now: real)
      requires Valid()
      modifies this
      ensures Valid()
      // no goals: with probability 0.3 a goal is created from the reply, as `_create_autonomous_goal` does
      ensures old(goals) == [] ==> completedGoals == old(completedGoals)
      ensures old(goals) == [] && coin < 0.3 && reply.Some? && IsStep(reply.value) ==>
        && goals == [NewGoal(GoalId(now, 0), Strip(reply.value), "autonomous", 3)]
        && learningLog == Push(old(learningLog), GoalCreatedEntry(Strip(reply.value)), MaxLogEntries)
      ensures old(goals) == [] && !(coin < 0.3 && reply.Some? && IsStep(reply.value)) ==>
        goals == [] && learningLog == old(learningLog)
      // goals but no usable step: nothing changes
      ensures old(goals) != [] && !(reply.Some? && IsStep(reply.value)) ==>
        goals == old(goals) && completedGoals == old(completedGoals) && learningLog == old(learningLog)
      // a usable step advances the best goal; at 100 the first goal with its id is completed
      ensures old(goals) != [] && reply.Some? && IsStep(reply.value) ==>
        var j := BestGoal(old(goals));
        var g := Advance(old(goals)[j], reply.value);
        if g.progress < FullProgress then
          goals == old(goals)[j := g] && completedGoals == old(completedGoals) && learningLog == old(learningLog)
        else
          var k := GoalIndex(old(goals)[j := g], g.id);
          && k.Some?
          && goals == RemoveAt(old(goals)[j := g], k.value)
          && completedGoals == old(completedGoals) + [old(goals)[j := g][k.value].(status := Completed, outcome := Some(AchievedOutcome))]
          && learningLog == Push(old(learningLog),
               GoalCompletedEntry(old(goals)[j := g][k.value].description, AchievedOutcome), MaxLogEntries)
      ensures tasks == old(tasks) && breaker == old(breaker) && perf == old(perf) && actionHistory == old(actionHistory)
      ensures SettingsUnchanged()
    {
      if goals == [] {
        if coin < 0.3 {
          CreateAutonomousGoal(reply, now);
        }
        return;
      }
      var j := BestGoal(goals);
      if reply.Some? && |reply.value| > 10 && !StartsWith(Lower(reply.value), "none") {
        var g := Advance(goals[j], reply.value);
        goals := goals[j := g];
        if g.progress >= FullProgress {
          assert goals[j].id == g.id;
          var found := CompleteGoal(g.id, AchievedOutcome);
          assert found;
        }
      }
    }

    /** `!autonomous enable|disable <id>`: flips only that task's flag; an unknown id changes
        nothing. */
    method SetTaskEnabled(id: TaskId, enabled: bool) returns (found: bool)
      requires Valid()
      modifies this`tasks
      ensures Valid()
      ensures found <==> HasKey(old(tasks), id)
      ensures found ==> tasks == Put(old(tasks), id, Get(old(tasks), id).value.(enabled := enabled))
      ensures !found ==> tasks == old(tasks)
      ensures breaker == old(breaker) && perf == old(perf) && actionHistory == old(actionHistory)
      ensures GoalsUnchanged() && SettingsUnchanged()
    {
      if !HasKey(tasks, id) {
        return false;
      }
      var t := Get(tasks, id).value;
      tasks := Put(tasks, id, t.(enabled := enabled));
      return true;
    }
  }
}
