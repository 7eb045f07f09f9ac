/**
 * The autonomous scheduler of the agent as values: tasks, the Ollama circuit
 * breaker, the per-task performance record, the action history, and one pass
 * of the scheduling loop over the task registry.
 */
module Scheduler {
  import opened Wrappers
  import opened Text
  import opened Slices
  import opened OrderedMap

  type TaskId = string

  /** A registered recurring task; its body is not part of the value (see `Outcome`). */
  datatype Task = Task(
    id: TaskId,
    name: string,
    interval: real,     // seconds between runs; the tuner makes it fractional
    lastRun: real,
    enabled: bool,
    priority: int,
    isRunning: bool,
    failureCount: nat)

  /** How one execution of a task body ended, as the loop observes it. A `duration` is
      the loop's own `time.time() - task_start_time` once the body is over; a `clock` is the
      `time.time()` that `_check_circuit_breaker` reads after the failure. */
  datatype Outcome =
    | Returned(duration: real)                           // returned within the timeout
    | TimedOut(clock: real)                              // `asyncio.wait_for` gave up after 120 s
    | Raised(error: string, duration: real, clock: real) // any other exception, with `str(e)`

  /** What one loop body meets: the fresh `time.time()` the breaker test reads before the
      body, and how the body ends if it runs. */
  datatype Turn = Turn(clock: real, outcome: Outcome)

  /** The Ollama circuit breaker: consecutive failures, open flag, reset deadline. */
  datatype Breaker = Breaker(failures: nat, open: bool, resetTime: real)

  /** The record `_update_task_performance` keeps per task. */
  datatype Perf = Perf(successes: nat, failures: nat, total: nat, avgDuration: real)

  datatype ActionStatus = Success | Timeout | Failed | Decided

  /** One entry of the action history (its ISO timestamp is not modelled). */
  datatype Action = Action(task: string, status: ActionStatus, error: Option<string>, decision: Option<string>)

  /** What the loop reads and writes while it scans the registry. */
  datatype Sched = Sched(
    tasks: OMap<TaskId, Task>,
    breaker: Breaker,
    perf: map<TaskId, Perf>,
    history: seq<Action>)

  const MaxFailures: nat := 3
  const BreakerThreshold: nat := 5
  const BreakerCooldown: real := 300.0
  const TaskTimeout: real := 120.0
  const MaxHistory: nat := 100
  const TimeoutMessage: string := "Task exceeded 120s timeout"

  // ---------------------------------------------------------------- breaker

  /** The breaker is open exactly when the failure counter has reached the threshold. */
  predicate BreakerValid(b: Breaker)
  {
    b.open <==> b.failures >= BreakerThreshold
  }

  /** `_check_circuit_breaker`: opens at the threshold with a deadline 300 s ahead. */
  function CheckBreaker(b: Breaker, now: real): (r: Breaker)
    ensures r.failures == b.failures
    ensures b.failures >= BreakerThreshold ==> r.open && r.resetTime == now + BreakerCooldown
    ensures b.failures < BreakerThreshold ==> r == b
  {
    if b.failures >= BreakerThreshold then Breaker(b.failures, true, now + BreakerCooldown) else b
  }

  /** The error texts the loop charges to Ollama. */
  predicate IsOllamaError(error: string)
  {
    Contains(Lower(error), "ollama") || Contains(Lower(error), "connection")
  }

  // ------------------------------------------------------------ performance

  const NoRuns: Perf := Perf(0, 0, 0, 0.0)

  /** `_update_task_performance`: one more run, counted once, and the running mean of durations. */
  function UpdatePerf(p: Perf, success: bool, duration: real): (r: Perf)
    ensures r.total == p.total + 1
    ensures success ==> r.successes == p.successes + 1 && r.failures == p.failures
    ensures !success ==> r.failures == p.failures + 1 && r.successes == p.successes
    ensures r.avgDuration * r.total as real == p.avgDuration * p.total as real + duration
  {
    var total := p.total + 1;
    Perf(
      if success then p.successes + 1 else p.successes,
      if success then p.failures else p.failures + 1,
      total,
      (p.avgDuration * (total - 1) as real + duration) / total as real)
  }

  function PerfOf(perf: map<TaskId, Perf>, id: TaskId): Perf
  {
    if id in perf then perf[id] else NoRuns
  }

  /** A record whose counters agree: every run was a success or a failure. */
  predicate PerfValid(p: Perf)
  {
    p.total == p.successes + p.failures
  }

  // ------------------------------------------------------------------ tuner

  const MinRunsToTune: nat := 5
  const MinInterval: real := 300.0
  const MaxInterval: real := 86400.0

  function Max(a: real, b: real): real { if a >= b then a else b }
  function Min(a: real, b: real): real { if a <= b then a else b }

  /** The interval `_optimize_task_interval` leaves behind for a task with record `p`. */
  function TunedInterval(enabled: bool, p: Perf, interval: real): (r: real)
    requires PerfValid(p)
  {
    if !enabled || p.total < MinRunsToTune then interval
    else
      var rate := p.successes as real / p.total as real;
      if rate >= 0.7 then (if p.avgDuration < 5.0 then Max(MinInterval, interval * 0.8) else interval)
      else if rate < 0.5 then Min(MaxInterval, interval * 1.5)
      else interval
  }

  /** The three outcomes of the tuner, stated on counts rather than on the rate. */
  lemma TunedIntervalCases(enabled: bool, p: Perf, interval: real)
    requires PerfValid(p)
    ensures !enabled || p.total < MinRunsToTune ==> TunedInterval(enabled, p, interval) == interval
    ensures enabled && p.total >= MinRunsToTune && 10 * p.successes >= 7 * p.total && p.avgDuration < 5.0
      ==> TunedInterval(enabled, p, interval) == Max(MinInterval, 0.8 * interval)
    ensures enabled && p.total >= MinRunsToTune && 2 * p.successes < p.total
      ==> TunedInterval(enabled, p, interval) == Min(MaxInterval, 1.5 * interval)
    ensures enabled && p.total >= MinRunsToTune && 2 * p.successes >= p.total && 10 * p.successes < 7 * p.total
      ==> TunedInterval(enabled, p, interval) == interval
  {
    if enabled && p.total >= MinRunsToTune {
      RateCompare(p.successes, p.total, 0.7);
      RateCompare(p.successes, p.total, 0.5);
    }
  }

  /** Comparing a success rate with a bound is comparing counts. */
  lemma RateCompare(successes: nat, total: nat, c: real)
    requires total > 0
    ensures (successes as real / total as real >= c) == (successes as real >= c * total as real)
  {
    var t := total as real;
    var rate := successes as real / t;
    assert rate * t == successes as real;
    if rate >= c {
      assert rate * t >= c * t;
    } else {
      assert rate * t < c * t;
    }
  }

  /** An interval already inside [300, 86400] stays there however the tuner acts. */
  lemma TunedIntervalStaysInBand(enabled: bool, p: Perf, interval: real)
    requires PerfValid(p) && MinInterval <= interval <= MaxInterval
    ensures MinInterval <= TunedInterval(enabled, p, interval) <= MaxInterval
  {
  }

  /** The self-tuning scenario: five runs, four successes, 2 s on average, shrink by 20 %. */
  lemma TunerShrinksFastReliableTask(interval: real)
    requires interval >= 375.0
    ensures TunedInterval(true, Perf(4, 1, 5, 2.0), interval) == 0.8 * interval
  {
    TunedIntervalCases(true, Perf(4, 1, 5, 2.0), interval);
  }

  // ----------------------------------------------------------------- a pass

  /** Which branch of the loop body a task takes, in the order the loop tests them. */
  datatype Verdict = NotEnabled | Overlap | Disable | NotDue | BreakerSkip | Run

  /** `now` is the pass's `current_time`; `clock` is the reading the breaker test takes. */
  function VerdictOf(t: Task, b: Breaker, now: real, clock: real): Verdict
  {
    if !t.enabled then NotEnabled
    else if t.isRunning then Overlap
    else if t.failureCount >= MaxFailures then Disable
    else if now - t.lastRun < t.interval then NotDue
    else if b.open && !(clock > b.resetTime) then BreakerSkip
    else Run
  }

  /** The breaker a runnable task meets: an expired open breaker is closed and zeroed first. */
  function BreakerBeforeRun(b: Breaker): Breaker
  {
    if b.open then Breaker(0, false, b.resetTime) else b
  }

  function ActionFor(name: string, o: Outcome): Action
  {
    match o
    case Returned(_) => Action(name, ActionStatus.Success, None, None)
    case TimedOut(_) => Action(name, Timeout, Some(TimeoutMessage), None)
    case Raised(e, _, _) => Action(name, Failed, Some(e), None)
  }

  function SetTask(tasks: OMap<TaskId, Task>, i: nat, t: Task): (r: OMap<TaskId, Task>)
    requires i < |tasks|
    ensures |r| == |tasks| && Keys(r) == Keys(tasks)
    ensures r[i] == (tasks[i].0, t)
    ensures forall j :: 0 <= j < |tasks| && j != i ==> r[j] == tasks[j]
  {
    tasks[i := (tasks[i].0, t)]
  }

  /** The task after its body ended with `o` and the `finally` block ran. */
  function TaskAfterRun(t: Task, now: real, o: Outcome): Task
  {
    t.(failureCount := if o.Returned? then 0 else t.failureCount + 1, lastRun := now, isRunning := false)
  }

  /** The breaker after a body ended with `o`: timeouts and Ollama errors count against it,
      and a breaker that opens then takes its deadline from the clock read after the failure. */
  function BreakerAfterRun(b: Breaker, o: Outcome): Breaker
  {
    match o
    case Returned(_) => b.(failures := 0)
    case TimedOut(c) => CheckBreaker(b.(failures := b.failures + 1), c)
    case Raised(e, _, c) => if IsOllamaError(e) then CheckBreaker(b.(failures := b.failures + 1), c) else b
  }

  /** Whether the run counts as a success, and the duration recorded for it. */
  function RunRecord(o: Outcome): (bool, real)
  {
    match o
    case Returned(d) => (true, d)
    case TimedOut(_) => (false, TaskTimeout)
    case Raised(_, d, _) => (false, d)
  }

  function PerfAfterRun(perf: map<TaskId, Perf>, id: TaskId, o: Outcome): map<TaskId, Perf>
  {
    perf[id := UpdatePerf(PerfOf(perf, id), RunRecord(o).0, RunRecord(o).1)]
  }

  /** The task body ran with breaker `b` and ended with `o`; the `finally` block has run. */
  function Execute(s: Sched, i: nat, b: Breaker, now: real, o: Outcome): (r: Sched)
    requires i < |s.tasks|
  {
    var t := s.tasks[i].1;
    Sched(
      SetTask(s.tasks, i, TaskAfterRun(t, now, o)),
      BreakerAfterRun(b, o),
      PerfAfterRun(s.perf, t.id, o),
      Push(s.history, ActionFor(t.name, o), MaxHistory))
  }

  /** The loop body for the `i`-th task of the registry. */
  function ScanTask(s: Sched, i: nat, now: real, u: Turn): (r: Sched)
    requires i < |s.tasks|
    ensures |r.tasks| == |s.tasks|
  {
    var t := s.tasks[i].1;
    match VerdictOf(t, s.breaker, now, u.clock)
    case NotEnabled => s
    case Overlap => s
    case Disable => s.(tasks := SetTask(s.tasks, i, t.(enabled := false, lastRun := now)))
    case NotDue => s
    case BreakerSkip => s.(tasks := SetTask(s.tasks, i, t.(isRunning := false, lastRun := now)))
    case Run => Execute(s, i, BreakerBeforeRun(s.breaker), now, u.outcome)
  }

  /** One loop body changes only its own task, keeps the registry's keys, and keeps the
      task's id, name, interval and priority. */
  lemma ScanTaskFrame(s: Sched, i: nat, now: real, u: Turn)
    requires i < |s.tasks|
    ensures var r := ScanTask(s, i, now, u); Keys(r.tasks) == Keys(s.tasks)
    ensures var r := ScanTask(s, i, now, u); forall j :: 0 <= j < |s.tasks| && j != i ==> r.tasks[j] == s.tasks[j]
    ensures var t, t' := s.tasks[i].1, ScanTask(s, i, now, u).tasks[i].1;
      t'.id == t.id && t'.name == t.name && t'.interval == t.interval && t'.priority == t.priority
  {
  }

  /** What the loop body does to its task, branch by branch. */
  lemma ScanTaskEffect(s: Sched, i: nat, now: real, u: Turn)
    requires i < |s.tasks|
    // skipped tasks: nothing changes at all
    ensures var r := ScanTask(s, i, now, u);
      VerdictOf(s.tasks[i].1, s.breaker, now, u.clock) in {NotEnabled, Overlap, NotDue} ==> r == s
    // too many failures: disabled and stamped, not executed
    ensures var r := ScanTask(s, i, now, u); VerdictOf(s.tasks[i].1, s.breaker, now, u.clock) == Disable ==>
      r == s.(tasks := SetTask(s.tasks, i, s.tasks[i].1.(enabled := false, lastRun := now)))
    // open breaker whose deadline the fresh reading has not passed: stamped, not executed
    ensures var r := ScanTask(s, i, now, u); VerdictOf(s.tasks[i].1, s.breaker, now, u.clock) == BreakerSkip ==>
      r == s.(tasks := SetTask(s.tasks, i, s.tasks[i].1.(lastRun := now)))
    // executed: stamped with the pass time and no longer running, whatever the outcome
    ensures var r := ScanTask(s, i, now, u); VerdictOf(s.tasks[i].1, s.breaker, now, u.clock) == Run ==>
      var t, t' := s.tasks[i].1, r.tasks[i].1;
      && t'.lastRun == now && !t'.isRunning && t'.enabled
      && t'.failureCount == (if u.outcome.Returned? then 0 else t.failureCount + 1)
      && |r.history| > 0 && r.history[|r.history| - 1] == ActionFor(t.name, u.outcome)
      && PerfOf(r.perf, t.id).total == PerfOf(s.perf, t.id).total + 1
  {
  }

  /** The breaker branch is decided by the fresh reading alone: a due task meets an open
      breaker exactly when that reading has not passed the deadline, whenever the pass began. */
  lemma BreakerTestUsesFreshClock(s: Sched, i: nat, now: real, u: Turn)
    requires i < |s.tasks|
    requires var t := s.tasks[i].1;
      t.enabled && !t.isRunning && t.failureCount < MaxFailures && now - t.lastRun >= t.interval
    ensures VerdictOf(s.tasks[i].1, s.breaker, now, u.clock) == BreakerSkip
      <==> s.breaker.open && u.clock <= s.breaker.resetTime
    ensures VerdictOf(s.tasks[i].1, s.breaker, now, u.clock) == Run
      <==> !s.breaker.open || u.clock > s.breaker.resetTime
  {
  }

  /** How an executed task's outcome moves the Ollama failure counter. */
  lemma RunCounters(s: Sched, i: nat, now: real, u: Turn)
    requires i < |s.tasks| && VerdictOf(s.tasks[i].1, s.breaker, now, u.clock) == Run
    ensures var before := BreakerBeforeRun(s.breaker).failures;
      var after := ScanTask(s, i, now, u).breaker.failures;
      match u.outcome
      case Returned(_) => after == 0
      case TimedOut(_) => after == before + 1
      case Raised(e, _, _) => after == if IsOllamaError(e) then before + 1 else before
  {
  }

  /** An open breaker whose deadline the fresh reading has passed is closed and zeroed before
      the task runs; a task that then succeeds leaves it closed. */
  lemma ExpiredBreakerCloses(s: Sched, i: nat, now: real, clock: real, d: real)
    requires i < |s.tasks| && s.breaker.open && clock > s.breaker.resetTime
    requires VerdictOf(s.tasks[i].1, s.breaker, now, clock) == Run
    ensures BreakerBeforeRun(s.breaker) == Breaker(0, false, s.breaker.resetTime)
    ensures ScanTask(s, i, now, Turn(clock, Returned(d))).breaker == Breaker(0, false, s.breaker.resetTime)
  {
  }

  /** The loop body keeps the breaker invariant; a breaker it opens has its deadline 300 s
      after the clock reading taken once the failure was seen. */
  lemma ScanTaskKeepsBreakerValid(s: Sched, i: nat, now: real, u: Turn)
    requires i < |s.tasks| && BreakerValid(s.breaker)
    ensures BreakerValid(ScanTask(s, i, now, u).breaker)
    ensures var r := ScanTask(s, i, now, u).breaker;
      r.open && !s.breaker.open ==>
        && !u.outcome.Returned?
        && r.failures == BreakerThreshold && r.resetTime == u.outcome.clock + BreakerCooldown
  {
    if VerdictOf(s.tasks[i].1, s.breaker, now, u.clock) == Run {
      var b := BreakerBeforeRun(s.breaker);
      assert ScanTask(s, i, now, u).breaker == BreakerAfterRun(b, u.outcome);
      BreakerAfterRunValid(b, u.outcome);
    } else {
      assert ScanTask(s, i, now, u).breaker == s.breaker;
    }
  }

  /** What the scheduler's state keeps between loop bodies. */
  ghost predicate SchedValid(s: Sched)
  {
    && Distinct(s.tasks)
    && (forall i :: 0 <= i < |s.tasks| ==> s.tasks[i].1.id == s.tasks[i].0)
    && BreakerValid(s.breaker)
    && (forall id :: id in s.perf ==> PerfValid(s.perf[id]))
    && |s.history| <= MaxHistory
  }

  /** Replacing a task by one with the same id keeps the scheduler's invariant. */
  lemma SetTaskKeepsValid(s: Sched, i: nat, t: Task)
    requires i < |s.tasks| && SchedValid(s) && t.id == s.tasks[i].1.id
    ensures SchedValid(s.(tasks := SetTask(s.tasks, i, t)))
  {
    var r := SetTask(s.tasks, i, t);
    forall j, k | 0 <= j < k < |r| ensures r[j].0 != r[k].0 {
      assert r[j].0 == s.tasks[j].0 && r[k].0 == s.tasks[k].0;
    }
  }

  /** Counting a run and its outcome keeps the invariant of a breaker that was closed
      before the run. */
  lemma BreakerAfterRunValid(b: Breaker, o: Outcome)
    requires BreakerValid(b) && !b.open
    ensures BreakerValid(BreakerAfterRun(b, o))
    ensures var r := BreakerAfterRun(b, o);
      r.open ==> !o.Returned? && r.failures == BreakerThreshold && r.resetTime == o.clock + BreakerCooldown
  {
  }

  /** An executed body keeps the scheduler's invariant. */
  lemma ExecuteKeepsValid(s: Sched, i: nat, now: real, o: Outcome)
    requires i < |s.tasks| && SchedValid(s)
    ensures SchedValid(Execute(s, i, BreakerBeforeRun(s.breaker), now, o))
  {
    var t := s.tasks[i].1;
    SetTaskKeepsValid(s, i, TaskAfterRun(t, now, o));
    BreakerAfterRunValid(BreakerBeforeRun(s.breaker), o);
    var perf := PerfAfterRun(s.perf, t.id, o);
    forall id | id in perf ensures PerfValid(perf[id]) {
      if id != t.id {
        assert perf[id] == s.perf[id];
      }
    }
  }

  /** The loop body keeps the scheduler's invariant. */
  lemma ScanTaskKeepsValid(s: Sched, i: nat, now: real, u: Turn)
    requires i < |s.tasks| && SchedValid(s)
    ensures SchedValid(ScanTask(s, i, now, u))
  {
    var t := s.tasks[i].1;
    match VerdictOf(t, s.breaker, now, u.clock)
    case NotEnabled =>
    case Overlap =>
    case NotDue =>
    case Disable => SetTaskKeepsValid(s, i, t.(enabled := false, lastRun := now));
    case BreakerSkip => SetTaskKeepsValid(s, i, t.(isRunning := false, lastRun := now));
    case Run => ExecuteKeepsValid(s, i, now, u.outcome);
  }

  /** The first `k` loop bodies of a pass started at `now`; `turn(id)` is what the loop body
      of the task filed under `id` meets. */
  function Scanned(s: Sched, k: nat, now: real, turn: TaskId -> Turn): (r: Sched)
    requires k <= |s.tasks|
    ensures |r.tasks| == |s.tasks|
    decreases k
  {
    if k == 0 then s
    else
      var p := Scanned(s, k - 1, now, turn);
      ScanTask(p, k - 1, now, turn(p.tasks[k - 1].0))
  }

  /** After the first `k` loop bodies the registry has the same keys, and the tasks from
      position `k` on are untouched. */
  lemma {:induction false} ScannedFrame(s: Sched, k: nat, now: real, turn: TaskId -> Turn)
    requires k <= |s.tasks|
    ensures Keys(Scanned(s, k, now, turn).tasks) == Keys(s.tasks)
    ensures forall j :: k <= j < |s.tasks| ==> Scanned(s, k, now, turn).tasks[j] == s.tasks[j]
    decreases k
  {
    if k > 0 {
      var p := Scanned(s, k - 1, now, turn);
      ScannedFrame(s, k - 1, now, turn);
      ScanTaskFrame(p, k - 1, now, turn(p.tasks[k - 1].0));
    }
  }

  /** One pass of the `while self.running` loop over every registered task, in registry order. */
  function Pass(s: Sched, now: real, turn: TaskId -> Turn): Sched
  {
    Scanned(s, |s.tasks|, now, turn)
  }

  /** Once the loop has passed the `j`-th task, later loop bodies leave it alone. */
  lemma {:induction false} ScannedSettled(s: Sched, j: nat, k: nat, now: real, turn: TaskId -> Turn)
    requires j < k <= |s.tasks|
    ensures Scanned(s, k, now, turn).tasks[j] == Scanned(s, j + 1, now, turn).tasks[j]
    decreases k
  {
    if k > j + 1 {
      ScannedSettled(s, j, k - 1, now, turn);
    }
  }

  /** What a pass does to the `j`-th task is what its own loop body does, with the breaker
      as the earlier tasks left it. */
  lemma PassAt(s: Sched, j: nat, now: real, turn: TaskId -> Turn)
    requires j < |s.tasks|
    ensures var p := Scanned(s, j, now, turn);
      p.tasks[j] == s.tasks[j]
      && Pass(s, now, turn).tasks[j] == ScanTask(p, j, now, turn(s.tasks[j].0)).tasks[j]
  {
    ScannedSettled(s, j, |s.tasks|, now, turn);
    ScannedFrame(s, j, now, turn);
  }

  /** A disabled or already-running task leaves the pass exactly as it entered it. */
  lemma PassSkipsIdleTasks(s: Sched, j: nat, now: real, turn: TaskId -> Turn)
    requires j < |s.tasks| && (!s.tasks[j].1.enabled || s.tasks[j].1.isRunning)
    ensures Pass(s, now, turn).tasks[j] == s.tasks[j]
  {
    PassAt(s, j, now, turn);
    ScanTaskEffect(Scanned(s, j, now, turn), j, now, turn(s.tasks[j].0));
  }

  /** A task with three or more failures is disabled and stamped, and never executed. */
  lemma PassDisablesFailingTask(s: Sched, j: nat, now: real, turn: TaskId -> Turn)
    requires j < |s.tasks|
    requires var t := s.tasks[j].1; t.enabled && !t.isRunning && t.failureCount >= MaxFailures
    ensures Pass(s, now, turn).tasks[j].1 == s.tasks[j].1.(enabled := false, lastRun := now)
  {
    PassAt(s, j, now, turn);
    ScanTaskEffect(Scanned(s, j, now, turn), j, now, turn(s.tasks[j].0));
  }

  /** A due task leaves the pass stamped with the pass time and not running, whether it ran,
      failed, timed out or met an open breaker. */
  lemma PassStampsDueTask(s: Sched, j: nat, now: real, turn: TaskId -> Turn)
    requires j < |s.tasks|
    requires var t := s.tasks[j].1;
      t.enabled && !t.isRunning && t.failureCount < MaxFailures && now - t.lastRun >= t.interval
    ensures var t' := Pass(s, now, turn).tasks[j].1; t'.lastRun == now && !t'.isRunning
  {
    PassAt(s, j, now, turn);
    ScanTaskEffect(Scanned(s, j, now, turn), j, now, turn(s.tasks[j].0));
  }

  /** A task that is not due is left alone. */
  lemma PassLeavesTaskNotDue(s: Sched, j: nat, now: real, turn: TaskId -> Turn)
    requires j < |s.tasks|
    requires var t := s.tasks[j].1;
      t.enabled && !t.isRunning && t.failureCount < MaxFailures && now - t.lastRun < t.interval
    ensures Pass(s, now, turn).tasks[j] == s.tasks[j]
  {
    PassAt(s, j, now, turn);
    ScanTaskEffect(Scanned(s, j, now, turn), j, now, turn(s.tasks[j].0));
  }

  /** One pass as the loop meets it: its `current_time` and what each task's body meets. */
  datatype PassInput = PassInput(now: real, turn: TaskId -> Turn)

  /** Consecutive passes, each with its own start time and its own turns. */
  function Passes(s: Sched, runs: seq<PassInput>): (r: Sched)
    ensures |r.tasks| == |s.tasks|
  {
    if runs == [] then s
    else
      var last := runs[|runs| - 1];
      Pass(Passes(s, runs[..|runs| - 1]), last.now, last.turn)
  }

  /** A disabled task stays disabled through any number of passes: no execution until a reset. */
  lemma {:induction false} DisabledStaysDisabled(s: Sched, j: nat, runs: seq<PassInput>)
    requires j < |s.tasks| && !s.tasks[j].1.enabled
    ensures var r := Passes(s, runs); |r.tasks| == |s.tasks| && r.tasks[j] == s.tasks[j]
    decreases |runs|
  {
    if runs != [] {
      var p := Passes(s, runs[..|runs| - 1]);
      var last := runs[|runs| - 1];
      DisabledStaysDisabled(s, j, runs[..|runs| - 1]);
      PassSkipsIdleTasks(p, j, last.now, last.turn);
    }
  }

  /** A pass keeps the breaker invariant. */
  lemma {:induction false} ScannedKeepsBreakerValid(s: Sched, k: nat, now: real, turn: TaskId -> Turn)
    requires k <= |s.tasks| && BreakerValid(s.breaker)
    ensures BreakerValid(Scanned(s, k, now, turn).breaker)
    decreases k
  {
    if k > 0 {
      var p := Scanned(s, k - 1, now, turn);
      ScannedKeepsBreakerValid(s, k - 1, now, turn);
      ScanTaskKeepsBreakerValid(p, k - 1, now, turn(p.tasks[k - 1].0));
    }
  }

  /** A pass keeps the history within its bound. */
  lemma {:induction false} ScannedKeepsHistoryBounded(s: Sched, k: nat, now: real, turn: TaskId -> Turn)
    requires k <= |s.tasks| && |s.history| <= MaxHistory
    ensures |Scanned(s, k, now, turn).history| <= MaxHistory
    decreases k
  {
    if k > 0 {
      ScannedKeepsHistoryBounded(s, k - 1, now, turn);
    }
  }

  // ------------------------------------------------------- decision sub-flow

  const DecisionInterval: real := 30.0

  /** The reply filter of `_make_autonomous_decision`: a concrete choice is logged. */
  predicate WorthRecording(reply: string)
  {
    !Contains(Strip(Lower(reply)), "nothing") && |reply| > 10
  }

  function DecisionAction(reply: string): (a: Action)
    ensures a.status == Decided && a.decision.Some?
    ensures |a.decision.value| == if |reply| <= 200 then |reply| else 200
    ensures a.decision.value == reply[..|a.decision.value|]
  {
    Action("autonomous_decision", Decided, None, Some(Prefix(reply, 200)))
  }
}
