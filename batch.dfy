/** The batch supervisor of youtubeaudit/batch.py: one task attempt (`_execute_task`), the
    bounded retry loop, the wave loop of `run` with its saves and rate-limit sleeps, and
    `get_results`.

    The thread pool is modelled as waves run one task after the other in submission
    order. What the auditor does in one attempt is an input: the progress events it
    passes to `on_progress` and how the attempt ended. The random sleep of each wave is
    an input too. */
module Batch {
  import opened Common
  import opened WatchTime
  import opened Session
  import opened Status
  import opened Storage
  import opened Config
  import Auditor

  // ---------------------------------------------------------------- task ids

  function DigitChar(d: nat): char
    requires d < 10
  {
    (('0' as int) + d) as char
  }

  function DigitValue(c: char): int
  {
    (c as int) - ('0' as int)
  }

  /** The decimal digits of `n`, without leading zeros. */
  function Digits(n: nat): string
    decreases n
  {
    if n < 10 then [DigitChar(n)] else Digits(n / 10) + [DigitChar(n % 10)]
  }

  /** `s` left-padded with '0' to width `w`. */
  function ZeroPad(s: string, w: nat): string
    decreases w - |s|
  {
    if |s| >= w then s else ZeroPad("0" + s, w)
  }

  /** `f"task_{idx:04d}"`. */
  function TaskId(idx: nat): string
  {
    "task_" + ZeroPad(Digits(idx), 4)
  }

  /** The number a string of digits spells, read left to right from `acc`. */
  function ValueFrom(acc: int, s: string): int
    decreases |s|
  {
    if s == [] then acc else ValueFrom(acc * 10 + DigitValue(s[0]), s[1..])
  }

  /** The index a task id was made from. */
  function IndexOf(id: string): int
  {
    if |id| < 5 then -1 else ValueFrom(0, id[5..])
  }

  lemma {:induction false} ValueSnoc(acc: int, s: string, c: char)
    ensures ValueFrom(acc, s + [c]) == ValueFrom(acc, s) * 10 + DigitValue(c)
    decreases |s|
  {
    if s == [] {
      assert ([] + [c])[1..] == [];
    } else {
      assert (s + [c])[1..] == s[1..] + [c];
      ValueSnoc(acc * 10 + DigitValue(s[0]), s[1..], c);
    }
  }

  lemma {:induction false} DigitsValue(n: nat)
    ensures ValueFrom(0, Digits(n)) == n
    ensures 1 <= |Digits(n)|
    ensures (n < 10 ==> |Digits(n)| == 1) && (n < 100 ==> |Digits(n)| <= 2)
    ensures (n < 1000 ==> |Digits(n)| <= 3) && (n < 10000 ==> |Digits(n)| <= 4)
    decreases n
  {
    if n >= 10 {
      DigitsValue(n / 10);
      ValueSnoc(0, Digits(n / 10), DigitChar(n % 10));
    }
  }

  lemma {:induction false} ZeroPadValue(s: string, w: nat)
    ensures ValueFrom(0, ZeroPad(s, w)) == ValueFrom(0, s)
    ensures |ZeroPad(s, w)| == if |s| >= w then |s| else w
    decreases w - |s|
  {
    if |s| < w {
      assert ("0" + s)[1..] == s;
      ZeroPadValue("0" + s, w);
    }
  }

  /** A task id gives back its index, so two tasks never share an id; below 10000 every
      id is "task_" and exactly four digits. */
  lemma TaskIdRoundTrip(idx: nat, other: nat)
    ensures IndexOf(TaskId(idx)) == idx
    ensures TaskId(idx) == TaskId(other) ==> idx == other
    ensures TaskId(idx)[..5] == "task_"
    ensures idx < 10000 ==> |TaskId(idx)| == 9
  {
    DigitsValue(idx);
    DigitsValue(other);
    ZeroPadValue(Digits(idx), 4);
    ZeroPadValue(Digits(other), 4);
    assert TaskId(idx)[5..] == ZeroPad(Digits(idx), 4);
    assert TaskId(other)[5..] == ZeroPad(Digits(other), 4);
  }

  // ---------------------------------------------------------------- one attempt

  /** How the auditor's part of an attempt ended: `InitDriver` reported failure, `Train`
      reported failure, `Run` returned -1, the report was built, or an exception escaped
      from training, collection or the report with the given message. */
  datatype Ending = InitFailed | TrainFailed | CollectFailed | Succeeded(report: Report) | Crashed(error: string)

  /** What one call of `_execute_task` sees of the auditor: the progress events it
      emits after the driver is up, and how it ended. */
  datatype Attempt = Attempt(progress: seq<Event>, ending: Ending)

  /** What `_execute_task` gives its caller: a result (None for a failure), or an
      exception that escapes it. */
  datatype Outcome = Done(result: Option<Report>) | Error(message: string)

  /** The events passed to the `on_event` callback (timestamps and the experiment id left out). */
  datatype BatchEvent =
    | ExperimentStarted(totalTasks: nat)
    | TaskStarted(taskIdx: nat, taskId: string, mode: string)
    | TaskFailed(taskIdx: nat, error: string)
    | TaskCompleted(taskIdx: nat, taskId: string)
    | TaskRetry(taskIdx: nat, attempt: nat)
    | BatchSleep(duration: int)
    | ExperimentCompleted(totalTasks: nat)

  /** The messages of the exceptions an attempt can raise outside its own `try`. */
  const BudgetMessage: string := "max_duration must be greater than 0"
  const ModeMessage: string := "mode must be either 'long' or 'short'"
  const IndexMessage: string := "list index out of range"
  const CleanUpMessage: string := "Driver is not initialized"
  const EmptySeedsMessage: string := "seed_ids must not be empty"

  function ModeOf(mode: string): Option<Mode>
  {
    if mode == "long" then Some(Long) else if mode == "short" then Some(Short) else None
  }

  /** `task.seed_id or task.video_ids[-1]`: an empty seed id counts as missing. */
  function SeedOf(task: ExperimentTask): Option<string>
  {
    if task.seedId.Some? && task.seedId.value != "" then task.seedId
    else if task.videoIds != [] then Some(task.videoIds[|task.videoIds| - 1])
    else None
  }

  /** How far an attempt gets before its `try`: an assertion of `InitDriver` or the
      IndexError of the seed lookup escapes, the driver fails to start, or the task is
      registered with the given seed id. */
  datatype Stage = Aborted(message: string) | DriverFailed | Registered(seed: string)

  function StageOf(cfg: ExperimentConfig, task: ExperimentTask, a: Attempt): Stage
  {
    if !Positive(cfg.watchTime) then Aborted(BudgetMessage)
    else if ModeOf(task.mode).None? then Aborted(ModeMessage)
    else if a.ending.InitFailed? then DriverFailed
    else if SeedOf(task).None? then Aborted(IndexMessage)
    else Registered(SeedOf(task).value)
  }

  /** How the auditor's part ends; `Train` rejects an empty list with an assertion,
      which the `try` catches. */
  function EndingOf(task: ExperimentTask, a: Attempt): Ending
  {
    if task.videoIds == [] then Crashed(EmptySeedsMessage) else a.ending
  }

  /** The progress events that reach the callback (none when `Train` rejects its list). */
  function ProgressOf(task: ExperimentTask, a: Attempt): seq<Event>
  {
    if task.videoIds == [] then [] else a.progress
  }

  /** The two `CleanUp(kill=True)` calls after a failed training or collection phase,
      on the initialized auditor of the attempt: the call inside the `try` cleans up,
      and the one in `finally` then fails the assertion of an auditor that is no longer
      initialized. That exception is `Error(CleanUpMessage)` below. */
  method FailedPhaseCleanUps(a: Auditor.YouTubeAuditor) returns (inner: Call<()>, inFinally: Call<()>)
    requires a.initialized
    modifies a
    ensures inner == Returned(()) && inFinally.Raised? && !a.initialized
  {
    inner := a.CleanUp(true);
    inFinally := a.CleanUp(true);
  }

  /** What the attempt returns, or the exception that escapes it. With `innerCleanUp`
      (the code as written) a training or collection failure calls `CleanUp` inside the
      `try` and again in `finally`; the second call fails its assertion, as
      `FailedPhaseCleanUps` shows on the modelled auditor. */
  function AttemptOutcome(cfg: ExperimentConfig, task: ExperimentTask, a: Attempt, innerCleanUp: bool): Outcome
  {
    match StageOf(cfg, task, a)
    case Aborted(m) => Error(m)
    case DriverFailed => Done(None)
    case Registered(_) =>
      match EndingOf(task, a)
      case TrainFailed => if innerCleanUp then Error(CleanUpMessage) else Done(None)
      case CollectFailed => if innerCleanUp then Error(CleanUpMessage) else Done(None)
      case Succeeded(r) => Done(Some(r))
      case Crashed(_) => Done(None)
      case InitFailed => Done(None)
  }

  /** The progress record `_execute_task` registers for its task. */
  function Registration(cfg: ExperimentConfig, task: ExperimentTask, seed: string): map<string, TaskProgress>
  {
    map[task.mode := TaskProgress(seed, task.mode, "pending", (0, |task.videoIds|), (0, cfg.hops), "running", None)]
  }

  /** The `on_progress` callback: training and collection progress update the task's
      progress record, a restricted video counts in the health metrics, and every other
      event is ignored. */
  function OnProgress(s: ExperimentState, taskId: string, mode: string, e: Event): ExperimentState
  {
    match e
    case TrainingProgress(current, total, _) => WithTaskProgress(s, taskId, mode, "training", current, total)
    case CollectionProgress(current, total) => WithTaskProgress(s, taskId, mode, "collection", current, total)
    case RestrictedVideo(_, _) => HealthIncremented(s, "restricted_videos", 1)
    case _ => s
  }

  /** The callback applied to each event in turn. */
  function Progressed(s: ExperimentState, taskId: string, mode: string, evs: seq<Event>): ExperimentState
    decreases |evs|
  {
    if evs == [] then s else OnProgress(Progressed(s, taskId, mode, evs[..|evs| - 1]), taskId, mode, evs[|evs| - 1])
  }

  /** The keyword arguments of `update_data_collected` for a report. */
  function ReportCounts(r: Report): seq<(string, int)>
  {
    [("autoplay_paths", |r.recommendations.path|),
     ("sidebar_recs", TotalLength(r.recommendations.sidebars)),
     ("preload_recs", TotalLength(r.recommendations.preloads))]
  }

  /** A failed attempt: `increment_failed` and one more failed run. */
  function FailureRecorded(s: ExperimentState): ExperimentState
  {
    HealthIncremented(FailedIncremented(s), "failed_runs", 1)
  }

  /** A successful attempt: `increment_completed`, one more successful run, and the sizes
      of the report's lists added to the collected data. */
  function SuccessRecorded(s: ExperimentState, r: Report): ExperimentState
  {
    DataAdded(HealthIncremented(CompletedIncremented(s), "successful_runs", 1), ReportCounts(r))
  }

  /** How a registered attempt's ending moves the tracker. */
  function Ended(s: ExperimentState, e: Ending): ExperimentState
  {
    match e
    case Succeeded(r) => SuccessRecorded(s, r)
    case InitFailed => s
    case _ => FailureRecorded(s)
  }

  /** The tracker after one attempt (the same with or without the inner `CleanUp`). */
  function AttemptState(cfg: ExperimentConfig, idx: nat, task: ExperimentTask, a: Attempt, s: ExperimentState): ExperimentState
  {
    match StageOf(cfg, task, a)
    case Registered(seed) =>
      var id := TaskId(idx);
      var s1 := Progressed(WithCurrentTask(s, idx, id, Registration(cfg, task, seed)), id, task.mode, ProgressOf(task, a));
      Ended(s1, EndingOf(task, a))
    case _ => s
  }

  /** The events of one attempt. */
  function AttemptEvents(cfg: ExperimentConfig, idx: nat, task: ExperimentTask, a: Attempt, ev: seq<BatchEvent>): seq<BatchEvent>
  {
    var started := ev + [TaskStarted(idx, TaskId(idx), task.mode)];
    match StageOf(cfg, task, a)
    case Aborted(_) => started
    case DriverFailed => started + [TaskFailed(idx, "driver_init_failed")]
    case Registered(_) =>
      match EndingOf(task, a)
      case Crashed(m) => started + [TaskFailed(idx, m)]
      case Succeeded(_) => started + [TaskCompleted(idx, TaskId(idx))]
      case _ => started
  }

  /** Whether an attempt counts as a failed run, and as a successful one. */
  predicate CountsFailure(cfg: ExperimentConfig, task: ExperimentTask, a: Attempt)
  {
    StageOf(cfg, task, a).Registered? && !EndingOf(task, a).Succeeded? && !EndingOf(task, a).InitFailed?
  }

  predicate CountsSuccess(cfg: ExperimentConfig, task: ExperimentTask, a: Attempt)
  {
    StageOf(cfg, task, a).Registered? && EndingOf(task, a).Succeeded?
  }

  /** The counters the batch keeps for each task. */
  predicate SameCounters(s: ExperimentState, r: ExperimentState)
  {
    && r.batch.totalTasks == s.batch.totalTasks
    && r.batch.completedTasks == s.batch.completedTasks
    && r.batch.failedTasks == s.batch.failedTasks
    && r.health.Keys == s.health.Keys
    && (forall k | k in s.health && k != "restricted_videos" :: r.health[k] == s.health[k])
  }

  lemma {:induction false} ProgressKeepsCounters(s: ExperimentState, taskId: string, mode: string, evs: seq<Event>)
    ensures var r := Progressed(s, taskId, mode, evs);
      SameCounters(s, r) && r.dataCollected == s.dataCollected && (WellFormed(s) ==> WellFormed(r))
    decreases |evs|
  {
    if evs != [] {
      var s1 := Progressed(s, taskId, mode, evs[..|evs| - 1]);
      ProgressKeepsCounters(s, taskId, mode, evs[..|evs| - 1]);
      OnProgressKeepsCounters(s1, taskId, mode, evs[|evs| - 1]);
      SameCountersChain(s, s1, Progressed(s, taskId, mode, evs));
    }
  }

  lemma OnProgressKeepsCounters(s: ExperimentState, taskId: string, mode: string, e: Event)
    ensures var r := OnProgress(s, taskId, mode, e);
      SameCounters(s, r) && r.dataCollected == s.dataCollected && (WellFormed(s) ==> WellFormed(r))
  {
    match e
    case TrainingProgress(c, t, _) => TaskProgressFrame(s, taskId, mode, "training", c, t);
    case CollectionProgress(c, t) => TaskProgressFrame(s, taskId, mode, "collection", c, t);
    case _ =>
  }

  lemma SameCountersChain(a: ExperimentState, b: ExperimentState, c: ExperimentState)
    requires SameCounters(a, b) && SameCounters(b, c)
    ensures SameCounters(a, c)
  {
  }

  /** From `s` to `r` the tracker stays well formed, and the task counters and the run
      metrics move by exactly `failures`, `successes` and `retries`. */
  predicate CountersMoved(s: ExperimentState, r: ExperimentState, failures: nat, successes: nat, retries: nat)
    requires WellFormed(s)
  {
    && WellFormed(r)
    && r.batch.totalTasks == s.batch.totalTasks
    && r.batch.failedTasks == s.batch.failedTasks + failures
    && r.batch.completedTasks == s.batch.completedTasks + successes
    && r.health["failed_runs"] == s.health["failed_runs"] + failures
    && r.health["successful_runs"] == s.health["successful_runs"] + successes
    && r.health["retries"] == s.health["retries"] + retries
  }

  lemma CountersChain(a: ExperimentState, b: ExperimentState, c: ExperimentState,
                      f1: nat, c1: nat, r1: nat, f2: nat, c2: nat, r2: nat)
    requires WellFormed(a) && CountersMoved(a, b, f1, c1, r1) && CountersMoved(b, c, f2, c2, r2)
    ensures CountersMoved(a, c, f1 + f2, c1 + c2, r1 + r2)
  {
  }

  /** A driver-init failure, an assertion or the seed lookup leave the tracker as it was.
      Otherwise a failed attempt adds one failed task and one failed run, a successful
      one adds one completed task and one successful run, and nothing else touches
      these counters or the `retries` metric. */
  lemma AttemptCounters(cfg: ExperimentConfig, idx: nat, task: ExperimentTask, a: Attempt, s: ExperimentState)
    requires WellFormed(s)
    ensures var r := AttemptState(cfg, idx, task, a, s);
      && (!StageOf(cfg, task, a).Registered? ==> r == s)
      && CountersMoved(s, r, if CountsFailure(cfg, task, a) then 1 else 0, if CountsSuccess(cfg, task, a) then 1 else 0, 0)
  {
    if StageOf(cfg, task, a).Registered? {
      var seed := StageOf(cfg, task, a).seed;
      var id := TaskId(idx);
      var s0 := WithCurrentTask(s, idx, id, Registration(cfg, task, seed));
      assert CountersMoved(s, s0, 0, 0, 0);
      var s1 := Progressed(s0, id, task.mode, ProgressOf(task, a));
      ProgressKeepsCounters(s0, id, task.mode, ProgressOf(task, a));
      assert CountersMoved(s0, s1, 0, 0, 0);
      CountersChain(s, s0, s1, 0, 0, 0, 0, 0, 0);
      var s2 := AttemptState(cfg, idx, task, a, s);
      var f := if CountsFailure(cfg, task, a) then 1 else 0;
      var c := if CountsSuccess(cfg, task, a) then 1 else 0;
      EndingCounters(s1, EndingOf(task, a));
      assert s2 == Ended(s1, EndingOf(task, a));
      CountersChain(s, s1, s2, 0, 0, 0, f, c, 0);
    } else {
      assert CountersMoved(s, s, 0, 0, 0);
    }
  }

  /** How the ending of a registered attempt moves the counters. */
  lemma EndingCounters(s: ExperimentState, e: Ending)
    requires WellFormed(s)
    ensures CountersMoved(s, Ended(s, e), if !e.Succeeded? && !e.InitFailed? then 1 else 0, if e.Succeeded? then 1 else 0, 0)
  {
    if e.Succeeded? {
      var s2 := HealthIncremented(CompletedIncremented(s), "successful_runs", 1);
      DataAddedProperties(s2, ReportCounts(e.report));
    }
  }

  /** A success counts one completed task and one successful run, and adds the length
      of `autoplay_rec`, the entries of all sidebars and of all preload batches to the
      collected data; the total recommendations are left alone. */
  lemma SuccessCounts(s: ExperimentState, r: Report)
    requires WellFormed(s)
    ensures var t := Ended(s, Succeeded(r));
      && WellFormed(t)
      && t.batch == s.batch.(completedTasks := s.batch.completedTasks + 1)
      && t.health == s.health["successful_runs" := s.health["successful_runs"] + 1]
      && t.dataCollected["autoplay_paths"] == s.dataCollected["autoplay_paths"] + |r.recommendations.path|
      && t.dataCollected["sidebar_recs"] == s.dataCollected["sidebar_recs"] + TotalLength(r.recommendations.sidebars)
      && t.dataCollected["preload_recs"] == s.dataCollected["preload_recs"] + TotalLength(r.recommendations.preloads)
      && t.dataCollected["total_recommendations"] == s.dataCollected["total_recommendations"]
  {
    var s2 := HealthIncremented(CompletedIncremented(s), "successful_runs", 1);
    var kw := ReportCounts(r);
    DataAddedProperties(s2, kw);
    forall key ensures SumFor(kw, key) == (if key == "autoplay_paths" then |r.recommendations.path| else 0)
                                        + (if key == "sidebar_recs" then TotalLength(r.recommendations.sidebars) else 0)
                                        + (if key == "preload_recs" then TotalLength(r.recommendations.preloads) else 0) {
      SumForThree(kw, key);
    }
  }

  lemma SumForThree(kw: seq<(string, int)>, key: string)
    requires |kw| == 3
    ensures SumFor(kw, key) == (if kw[0].0 == key then kw[0].1 else 0) + (if kw[1].0 == key then kw[1].1 else 0)
                             + (if kw[2].0 == key then kw[2].1 else 0)
  {
    var t1 := kw[1..];
    var t2 := t1[1..];
    assert t2[1..] == [] && t1[0] == kw[1] && t2[0] == kw[2];
    assert SumFor(t2, key) == (if kw[2].0 == key then kw[2].1 else 0) + SumFor(t2[1..], key);
    assert SumFor(t1, key) == (if kw[1].0 == key then kw[1].1 else 0) + SumFor(t2, key);
  }

  /** The number of restricted-video events among `evs`. */
  function RestrictedCount(evs: seq<Event>): nat
    decreases |evs|
  {
    if evs == [] then 0
    else RestrictedCount(evs[..|evs| - 1]) + (if evs[|evs| - 1].RestrictedVideo? then 1 else 0)
  }

  /** The progress callbacks add one to `restricted_videos` per restricted-video event. */
  lemma {:induction false} ProgressCountsRestricted(s: ExperimentState, taskId: string, mode: string, evs: seq<Event>)
    requires WellFormed(s)
    ensures var t := Progressed(s, taskId, mode, evs);
      && WellFormed(t)
      && t.health["restricted_videos"] == s.health["restricted_videos"] + RestrictedCount(evs)
    decreases |evs|
  {
    ProgressKeepsCounters(s, taskId, mode, evs);
    if evs != [] {
      var init := evs[..|evs| - 1];
      var s1 := Progressed(s, taskId, mode, init);
      ProgressCountsRestricted(s, taskId, mode, init);
      match evs[|evs| - 1]
      case TrainingProgress(c, t, _) => TaskProgressFrame(s1, taskId, mode, "training", c, t);
      case CollectionProgress(c, t) => TaskProgressFrame(s1, taskId, mode, "collection", c, t);
      case _ =>
    }
  }

  // ---------------------------------------------------------------- retries

  /** What the attempts so far have done: the tracker and the events, and the outcome. */
  datatype Effect = Effect(outcome: Outcome, state: ExperimentState, emitted: seq<BatchEvent>)

  /** `_execute_task_with_retry` from attempt `k` on: every attempt after the first is
      announced and counted as a retry; the loop stops at the first result, and an
      exception ends it at once. */
  function RetryFrom(cfg: ExperimentConfig, maxRetries: int, idx: nat, task: ExperimentTask, attempts: nat -> Attempt,
                     k: nat, s: ExperimentState, ev: seq<BatchEvent>, innerCleanUp: bool): Effect
    decreases maxRetries - k
  {
    if k >= maxRetries then Effect(Done(None), s, ev)
    else
      var s1 := if k > 0 then HealthIncremented(s, "retries", 1) else s;
      var ev1 := if k > 0 then ev + [TaskRetry(idx, k)] else ev;
      var o := AttemptOutcome(cfg, task, attempts(k), innerCleanUp);
      var s2 := AttemptState(cfg, idx, task, attempts(k), s1);
      var ev2 := AttemptEvents(cfg, idx, task, attempts(k), ev1);
      if o == Done(None) then RetryFrom(cfg, maxRetries, idx, task, attempts, k + 1, s2, ev2, innerCleanUp)
      else Effect(o, s2, ev2)
  }

  /** The outcome of the retry loop from attempt `k` on, which does not depend on the tracker. */
  function RetryOutcome(cfg: ExperimentConfig, maxRetries: int, task: ExperimentTask, attempts: nat -> Attempt,
                        k: nat, innerCleanUp: bool): Outcome
    decreases maxRetries - k
  {
    if k >= maxRetries then Done(None)
    else
      var o := AttemptOutcome(cfg, task, attempts(k), innerCleanUp);
      if o == Done(None) then RetryOutcome(cfg, maxRetries, task, attempts, k + 1, innerCleanUp) else o
  }

  /** What the retry loop from attempt `k` on counts: attempts made, retries announced,
      failed runs and successful runs. */
  datatype Counts = Counts(tried: nat, retries: nat, failures: nat, successes: nat)

  function RetryCounts(cfg: ExperimentConfig, maxRetries: int, task: ExperimentTask, attempts: nat -> Attempt,
                       k: nat, innerCleanUp: bool): Counts
    decreases maxRetries - k
  {
    if k >= maxRetries then Counts(0, 0, 0, 0)
    else
      var a := attempts(k);
      var here := Counts(1, if k > 0 then 1 else 0,
                         if CountsFailure(cfg, task, a) then 1 else 0,
                         if CountsSuccess(cfg, task, a) then 1 else 0);
      if AttemptOutcome(cfg, task, a, innerCleanUp) == Done(None) then
        var rest := RetryCounts(cfg, maxRetries, task, attempts, k + 1, innerCleanUp);
        Counts(here.tried + rest.tried, here.retries + rest.retries,
               here.failures + rest.failures, here.successes + rest.successes)
      else here
  }

  /** The loop's outcome is the first attempt outcome that is not None, and None only
      when every attempt from `k` to `maxRetries - 1` gave None. */
  lemma {:induction false} RetryOutcomeProperties(cfg: ExperimentConfig, maxRetries: int, task: ExperimentTask,
                                                  attempts: nat -> Attempt, k: nat, innerCleanUp: bool)
    ensures var o := RetryOutcome(cfg, maxRetries, task, attempts, k, innerCleanUp);
      && (o == Done(None) <==>
            forall j: nat | k <= j < maxRetries :: AttemptOutcome(cfg, task, attempts(j), innerCleanUp) == Done(None))
      && (o != Done(None) ==>
            exists j: nat | k <= j < maxRetries ::
              && AttemptOutcome(cfg, task, attempts(j), innerCleanUp) == o
              && forall i: nat | k <= i < j :: AttemptOutcome(cfg, task, attempts(i), innerCleanUp) == Done(None))
    decreases maxRetries - k
  {
    if k < maxRetries {
      RetryOutcomeProperties(cfg, maxRetries, task, attempts, k + 1, innerCleanUp);
    }
  }

  /** The outcome of the retry loop does not depend on the tracker or the events. */
  lemma {:induction false} RetryOutcomeOf(cfg: ExperimentConfig, maxRetries: int, idx: nat, task: ExperimentTask,
                                          attempts: nat -> Attempt, k: nat, s: ExperimentState, ev: seq<BatchEvent>,
                                          innerCleanUp: bool)
    ensures RetryFrom(cfg, maxRetries, idx, task, attempts, k, s, ev, innerCleanUp).outcome
         == RetryOutcome(cfg, maxRetries, task, attempts, k, innerCleanUp)
    decreases maxRetries - k
  {
    if k < maxRetries && AttemptOutcome(cfg, task, attempts(k), innerCleanUp) == Done(None) {
      var s1 := if k > 0 then HealthIncremented(s, "retries", 1) else s;
      var ev1 := if k > 0 then ev + [TaskRetry(idx, k)] else ev;
      RetryOutcomeOf(cfg, maxRetries, idx, task, attempts, k + 1, AttemptState(cfg, idx, task, attempts(k), s1),
                     AttemptEvents(cfg, idx, task, attempts(k), ev1), innerCleanUp);
    }
  }

  /** The retry loop moves the counters by exactly what `RetryCounts` counts. */
  lemma {:induction false} RetryEffect(cfg: ExperimentConfig, maxRetries: int, idx: nat, task: ExperimentTask,
                                      attempts: nat -> Attempt, k: nat, s: ExperimentState, ev: seq<BatchEvent>,
                                      innerCleanUp: bool)
    requires WellFormed(s)
    ensures var e := RetryFrom(cfg, maxRetries, idx, task, attempts, k, s, ev, innerCleanUp);
      var n := RetryCounts(cfg, maxRetries, task, attempts, k, innerCleanUp);
      CountersMoved(s, e.state, n.failures, n.successes, n.retries)
    decreases maxRetries - k
  {
    if k < maxRetries {
      var a := attempts(k);
      var s1 := if k > 0 then HealthIncremented(s, "retries", 1) else s;
      var retried := if k > 0 then 1 else 0;
      assert CountersMoved(s, s1, 0, 0, retried);
      AttemptCounters(cfg, idx, task, a, s1);
      var f := if CountsFailure(cfg, task, a) then 1 else 0;
      var c := if CountsSuccess(cfg, task, a) then 1 else 0;
      var s2 := AttemptState(cfg, idx, task, a, s1);
      assert CountersMoved(s1, s2, f, c, 0);
      CountersChain(s, s1, s2, 0, 0, retried, f, c, 0);
      var ev1 := if k > 0 then ev + [TaskRetry(idx, k)] else ev;
      var ev2 := AttemptEvents(cfg, idx, task, a, ev1);
      if AttemptOutcome(cfg, task, a, innerCleanUp) == Done(None) {
        RetryEffect(cfg, maxRetries, idx, task, attempts, k + 1, s2, ev2, innerCleanUp);
        var n := RetryCounts(cfg, maxRetries, task, attempts, k + 1, innerCleanUp);
        var e := RetryFrom(cfg, maxRetries, idx, task, attempts, k + 1, s2, ev2, innerCleanUp);
        CountersChain(s, s2, e.state, f, c, retried, n.failures, n.successes, n.retries);
      }
    } else {
      assert CountersMoved(s, s, 0, 0, 0);
    }
  }

  /** With or without the inner `CleanUp`: at most `maxRetries` attempts are made, a retry
      is counted for every attempt after the first, at most one attempt succeeds and it is
      the last one made, and a result comes back exactly when an attempt succeeded. */
  lemma {:induction false} RetryCountsProperties(cfg: ExperimentConfig, maxRetries: int, task: ExperimentTask,
                                                attempts: nat -> Attempt, k: nat, innerCleanUp: bool)
    ensures var n := RetryCounts(cfg, maxRetries, task, attempts, k, innerCleanUp);
      var o := RetryOutcome(cfg, maxRetries, task, attempts, k, innerCleanUp);
      && n.tried <= (if maxRetries > k then maxRetries - k else 0)
      && (maxRetries > k ==> n.tried >= 1)
      && n.retries == (if k > 0 then n.tried else if n.tried > 0 then n.tried - 1 else 0)
      && n.successes <= 1
      && n.failures + n.successes <= n.tried
      && (o.Done? && o.result.Some? <==> n.successes == 1)
    decreases maxRetries - k
  {
    if k < maxRetries && AttemptOutcome(cfg, task, attempts(k), innerCleanUp) == Done(None) {
      RetryCountsProperties(cfg, maxRetries, task, attempts, k + 1, innerCleanUp);
    }
  }

  /** With the code as written, a first attempt whose training fails ends the retry loop
      with the assertion of the second `CleanUp`, though attempts remain and the next one
      would have succeeded; without the inner `CleanUp` the loop goes on to that result. */
  lemma DoubleCleanUpAborts(cfg: ExperimentConfig, task: ExperimentTask, r: Report, idx: nat, s: ExperimentState)
    requires Positive(cfg.watchTime) && (task.mode == "long" || task.mode == "short") && task.videoIds != []
    ensures var attempts := (k: nat) => if k == 0 then Attempt([], TrainFailed) else Attempt([], Succeeded(r));
      && RetryFrom(cfg, 3, idx, task, attempts, 0, s, [], true).outcome == Error(CleanUpMessage)
      && RetryCounts(cfg, 3, task, attempts, 0, true).tried == 1
      && RetryFrom(cfg, 3, idx, task, attempts, 0, s, [], false).outcome == Done(Some(r))
      && RetryCounts(cfg, 3, task, attempts, 0, false).tried == 2
  {
    var attempts := (k: nat) => if k == 0 then Attempt([], TrainFailed) else Attempt([], Succeeded(r));
    assert StageOf(cfg, task, attempts(0)).Registered?;
    assert StageOf(cfg, task, attempts(1)).Registered?;
    RetryOutcomeOf(cfg, 3, idx, task, attempts, 0, s, [], true);
    RetryOutcomeOf(cfg, 3, idx, task, attempts, 0, s, [], false);
  }

  // ---------------------------------------------------------------- the wave loop

  /** A metadata value of a saved result. */
  datatype MetaValue = Str(text: string) | Num(index: int) | Ids(ids: seq<string>)

  /** The metadata `run` saves with a task's result. */
  function Metadata(cfg: ExperimentConfig, idx: nat, task: ExperimentTask): map<string, MetaValue>
  {
    map["experiment_id" := Str(cfg.name), "task_index" := Num(idx), "mode" := Str(task.mode),
        "seed_ids" := Ids(task.videoIds)]
  }

  /** The record `run` saves for a task that returned a result. */
  function SavedFor(cfg: ExperimentConfig, idx: nat, r: Report): SavedRecord<Report, MetaValue>
    requires idx < |cfg.tasks|
  {
    MakeRecord(TaskId(idx), r, Some(Metadata(cfg, idx, cfg.tasks[idx])))
  }

  /** Everything a batch run changes: the tracker, the stored files, the emitted events
      and the sleeps taken. */
  datatype World = World(state: ExperimentState, files: map<string, SavedRecord<Report, MetaValue>>,
                         emitted: seq<BatchEvent>, slept: seq<int>)

  /** One task of a wave: the retry loop, then the save of its result, or the
      `task_failed` event of an exception that escaped the loop. */
  function TaskStep(cfg: ExperimentConfig, maxRetries: int, innerCleanUp: bool, idx: nat, attempts: nat -> Attempt, w: World): World
    requires idx < |cfg.tasks|
  {
    var e := RetryFrom(cfg, maxRetries, idx, cfg.tasks[idx], attempts, 0, w.state, w.emitted, innerCleanUp);
    var w1 := w.(state := e.state, emitted := e.emitted);
    match e.outcome
    case Done(Some(r)) => w1.(files := w.files[TaskId(idx) := SavedFor(cfg, idx, r)])
    case Done(None) => w1
    case Error(m) => w1.(emitted := w1.emitted + [TaskFailed(idx, m)])
  }

  /** `step(k, _)` for `k` from `i` to `end - 1`, in that order. */
  function Iterate(step: (nat, World) -> World, i: nat, end: nat, w: World): World
    decreases end - i
  {
    if i >= end then w else Iterate(step, i + 1, end, step(i, w))
  }

  /** The same steps from `start` to `i - 1`, as the world after the last of them. */
  function IterateUpTo(step: (nat, World) -> World, start: nat, i: nat, w: World): World
    decreases i
  {
    if i <= start then w else step(i - 1, IterateUpTo(step, start, i - 1, w))
  }

  /** The steps from `start` to `end - 1` are the steps before `i` followed by the rest. */
  lemma {:induction false} IterateSplit(step: (nat, World) -> World, start: nat, i: nat, end: nat, w: World)
    requires start <= i <= end
    ensures Iterate(step, start, end, w) == Iterate(step, i, end, IterateUpTo(step, start, i, w))
    decreases i
  {
    if start < i {
      IterateSplit(step, start, i - 1, end, w);
    }
  }

  /** Task `k` of the configuration as a step of a wave. */
  function TaskSteps(cfg: ExperimentConfig, maxRetries: int, innerCleanUp: bool, attempts: nat -> nat -> Attempt):
    (nat, World) -> World
  {
    (k: nat, w: World) => if k < |cfg.tasks| then TaskStep(cfg, maxRetries, innerCleanUp, k, attempts(k), w) else w
  }

  /** The tasks `i` to `end - 1` of a wave, in submission order. */
  function WaveFrom(cfg: ExperimentConfig, maxRetries: int, innerCleanUp: bool, attempts: nat -> nat -> Attempt, i: nat, end: nat, w: World): World
    requires end <= |cfg.tasks|
  {
    Iterate(TaskSteps(cfg, maxRetries, innerCleanUp, attempts), i, end, w)
  }

  lemma WaveStep(cfg: ExperimentConfig, maxRetries: int, innerCleanUp: bool, attempts: nat -> nat -> Attempt, i: nat, end: nat, w: World)
    requires i < end <= |cfg.tasks|
    ensures WaveFrom(cfg, maxRetries, innerCleanUp, attempts, i, end, w)
         == WaveFrom(cfg, maxRetries, innerCleanUp, attempts, i + 1, end, TaskStep(cfg, maxRetries, innerCleanUp, i, attempts(i), w))
  {
  }

  /** The tasks `start` to `i - 1` of a wave, as the world after them. */
  function WaveUpTo(cfg: ExperimentConfig, maxRetries: int, innerCleanUp: bool, attempts: nat -> nat -> Attempt,
                    start: nat, i: nat, w: World): World
  {
    IterateUpTo(TaskSteps(cfg, maxRetries, innerCleanUp, attempts), start, i, w)
  }

  /** Running a wave's first tasks and then the rest is running the wave. */
  lemma WaveUpToThenFrom(cfg: ExperimentConfig, maxRetries: int, innerCleanUp: bool,
                         attempts: nat -> nat -> Attempt, start: nat, i: nat, end: nat, w: World)
    requires start <= i <= end <= |cfg.tasks|
    ensures WaveFrom(cfg, maxRetries, innerCleanUp, attempts, start, end, w)
         == WaveFrom(cfg, maxRetries, innerCleanUp, attempts, i, end, WaveUpTo(cfg, maxRetries, innerCleanUp, attempts, start, i, w))
  {
    IterateSplit(TaskSteps(cfg, maxRetries, innerCleanUp, attempts), start, i, end, w);
  }

  /** `batch_end = min(batch_start + threads, total)`. */
  function WaveEnd(cfg: ExperimentConfig, start: nat): nat
    requires cfg.threads > 0
  {
    if start + cfg.threads < |cfg.tasks| then start + cfg.threads else |cfg.tasks|
  }

  /** `randint(lo, hi)` for a non-empty range: `lo` plus the drawn number modulo the
      width of the range, so every value of the range, ends included, can come out. */
  function RandInt(lo: int, hi: int, x: nat): (d: int)
    requires lo <= hi
    ensures lo <= d <= hi
    ensures x < hi - lo + 1 ==> d == lo + x
  {
    lo + x % (hi - lo + 1)
  }

  /** The sleep after the wave starting at `start`: `randint` raises on an empty range,
      and the event is emitted before `time.sleep`, which raises on a negative length. */
  function SleepStep(cfg: ExperimentConfig, draws: nat -> nat, start: nat, w: World): (Call<()>, World)
  {
    var (lo, hi) := cfg.sleepRange;
    if lo > hi then (Raised, w)
    else
      var d := RandInt(lo, hi, draws(start));
      var w1 := w.(emitted := w.emitted + [BatchSleep(d)]);
      if d < 0 then (Raised, w1) else (Returned(()), w1.(slept := w1.slept + [d]))
  }

  /** With a valid non-negative range the sleep does not raise, touches only the events
      and the sleeps, and sleeps once for a length within the range. */
  lemma SleepInRange(cfg: ExperimentConfig, draws: nat -> nat, start: nat, w: World)
    requires 0 <= cfg.sleepRange.0 <= cfg.sleepRange.1
    ensures var (r, w1) := SleepStep(cfg, draws, start, w);
      && r.Returned? && w1.files == w.files && w1.state == w.state
      && |w1.slept| == |w.slept| + 1 && w1.slept[..|w.slept|] == w.slept
      && cfg.sleepRange.0 <= w1.slept[|w.slept|] <= cfg.sleepRange.1
  {
  }

  /** The waves from `start` on: each wave, then a sleep unless it was the last. */
  function WavesFrom(cfg: ExperimentConfig, maxRetries: int, innerCleanUp: bool, attempts: nat -> nat -> Attempt, draws: nat -> nat,
                     start: nat, w: World): (Call<()>, World)
    requires cfg.threads > 0
    decreases |cfg.tasks| - start
  {
    if start >= |cfg.tasks| then (Returned(()), w)
    else
      var end := WaveEnd(cfg, start);
      var w1 := WaveFrom(cfg, maxRetries, innerCleanUp, attempts, start, end, w);
      if end < |cfg.tasks| then
        var sl := SleepStep(cfg, draws, start, w1);
        if sl.0.Raised? then sl else WavesFrom(cfg, maxRetries, innerCleanUp, attempts, draws, start + cfg.threads, sl.1)
      else WavesFrom(cfg, maxRetries, innerCleanUp, attempts, draws, start + cfg.threads, w1)
  }

  /** `run`: the tracker is started, the pool with `threads` workers runs the waves
      (a pool with no workers raises), and the tracker is completed. */
  function RunSpec(cfg: ExperimentConfig, maxRetries: int, innerCleanUp: bool, attempts: nat -> nat -> Attempt, draws: nat -> nat,
                   w: World): (Call<()>, World)
  {
    var total := |cfg.tasks|;
    var w1 := w.(state := Started(w.state, total), emitted := w.emitted + [ExperimentStarted(total)]);
    if cfg.threads <= 0 then (Raised, w1)
    else
      var (r, w2) := WavesFrom(cfg, maxRetries, innerCleanUp, attempts, draws, 0, w1);
      if r.Raised? then (Raised, w2)
      else (Returned(()), w2.(state := Finished(w2.state), emitted := w2.emitted + [ExperimentCompleted(total)]))
  }

  /** The waves of `range(start, total, width)`: consecutive slices of at most `width` tasks. */
  function Waves(total: nat, width: nat, start: nat): seq<(nat, nat)>
    requires width > 0
    decreases total - start
  {
    if start >= total then []
    else [(start, if start + width < total then start + width else total)] + Waves(total, width, start + width)
  }

  /** The waves cover the tasks from `start` to `total - 1` once each, in order: the
      first starts at `start`, each ends where the next begins, the last ends at
      `total`, every wave is non-empty and at most `width` long, and every wave but the
      last is exactly `width` long. */
  lemma {:induction false} WavesPartition(total: nat, width: nat, start: nat)
    requires width > 0
    ensures var ws := Waves(total, width, start);
      && (start >= total <==> ws == [])
      && (forall k | 0 <= k < |ws| :: ws[k].0 < ws[k].1 <= ws[k].0 + width)
      && (forall k | 0 <= k < |ws| - 1 :: ws[k].1 == ws[k + 1].0 && ws[k].1 == ws[k].0 + width)
      && (ws != [] ==> ws[0].0 == start && ws[|ws| - 1].1 == total)
    decreases total - start
  {
    var ws := Waves(total, width, start);
    if start < total {
      var rest := Waves(total, width, start + width);
      WavesPartition(total, width, start + width);
      assert ws == [ws[0]] + rest;
      assert forall k | 1 <= k < |ws| :: ws[k] == rest[k - 1];
    }
  }

  /** A wave stores results only, and touches neither the sleeps nor earlier events. */
  lemma {:induction false} WaveKeepsSleeps(cfg: ExperimentConfig, maxRetries: int, innerCleanUp: bool, attempts: nat -> nat -> Attempt,
                                          i: nat, end: nat, w: World)
    requires end <= |cfg.tasks|
    ensures WaveFrom(cfg, maxRetries, innerCleanUp, attempts, i, end, w).slept == w.slept
    decreases end - i
  {
    if i < end {
      WaveKeepsSleeps(cfg, maxRetries, innerCleanUp, attempts, i + 1, end, TaskStep(cfg, maxRetries, innerCleanUp, i, attempts(i), w));
    }
  }

  /** `after` is `before` followed by `n` sleeps, each within `lo` to `hi`. */
  predicate SleptWithin(lo: int, hi: int, before: seq<int>, after: seq<int>, n: nat)
  {
    && |after| == |before| + n
    && after[..|before|] == before
    && forall k | |before| <= k < |after| :: lo <= after[k] <= hi
  }

  lemma SleptChain(lo: int, hi: int, a: seq<int>, b: seq<int>, c: seq<int>, m: nat)
    requires SleptWithin(lo, hi, a, b, 1) && SleptWithin(lo, hi, b, c, m)
    ensures SleptWithin(lo, hi, a, c, 1 + m)
  {
    assert c[..|a|] == c[..|b|][..|a|];
  }

  /** With a valid non-negative sleep range the waves never raise, and they sleep once
      between each two waves, each time for a length within the range. */
  lemma {:induction false} WavesSleep(cfg: ExperimentConfig, maxRetries: int, innerCleanUp: bool, attempts: nat -> nat -> Attempt,
                                     draws: nat -> nat, start: nat, w: World)
    requires cfg.threads > 0 && 0 <= cfg.sleepRange.0 <= cfg.sleepRange.1
    ensures var (r, w1) := WavesFrom(cfg, maxRetries, innerCleanUp, attempts, draws, start, w);
      var n := |Waves(|cfg.tasks|, cfg.threads, start)|;
      r.Returned? && SleptWithin(cfg.sleepRange.0, cfg.sleepRange.1, w.slept, w1.slept, if n > 0 then n - 1 else 0)
    decreases |cfg.tasks| - start
  {
    var (lo, hi) := cfg.sleepRange;
    var total := |cfg.tasks|;
    if start < total {
      var end := WaveEnd(cfg, start);
      var w1 := WaveFrom(cfg, maxRetries, innerCleanUp, attempts, start, end, w);
      var rest := start + cfg.threads;
      var n := |Waves(total, cfg.threads, rest)|;
      assert Waves(total, cfg.threads, start) == [(start, end)] + Waves(total, cfg.threads, rest);
      WaveKeepsSleeps(cfg, maxRetries, innerCleanUp, attempts, start, end, w);
      if end < total {
        var w2 := SleepStep(cfg, draws, start, w1).1;
        SleepInRange(cfg, draws, start, w1);
        assert WavesFrom(cfg, maxRetries, innerCleanUp, attempts, draws, start, w) == WavesFrom(cfg, maxRetries, innerCleanUp, attempts, draws, rest, w2);
        WavesSleep(cfg, maxRetries, innerCleanUp, attempts, draws, rest, w2);
        assert n > 0;
        SleptChain(lo, hi, w.slept, w2.slept, WavesFrom(cfg, maxRetries, innerCleanUp, attempts, draws, rest, w2).1.slept, n - 1);
      } else {
        assert WavesFrom(cfg, maxRetries, innerCleanUp, attempts, draws, start, w) == WavesFrom(cfg, maxRetries, innerCleanUp, attempts, draws, rest, w1);
        assert WavesFrom(cfg, maxRetries, innerCleanUp, attempts, draws, rest, w1) == (Returned(()), w1);
        assert n == 0;
        assert w.slept[..|w.slept|] == w.slept;
      }
    } else {
      assert w.slept[..|w.slept|] == w.slept;
    }
  }

  /** The result the retry loop of task `idx` returns, if any. */
  function Success(cfg: ExperimentConfig, maxRetries: int, innerCleanUp: bool, attempts: nat -> nat -> Attempt, idx: nat): Option<Report>
    requires idx < |cfg.tasks|
  {
    var o := RetryOutcome(cfg, maxRetries, cfg.tasks[idx], attempts(idx), 0, innerCleanUp);
    if o.Done? && o.result.Some? then o.result else None
  }

  /** What each task's retry loop returns, as one function of the task index. */
  function Successes(cfg: ExperimentConfig, maxRetries: int, innerCleanUp: bool, attempts: nat -> nat -> Attempt):
    nat -> Option<Report>
  {
    (j: nat) => if j < |cfg.tasks| then Success(cfg, maxRetries, innerCleanUp, attempts, j) else None
  }

  /** The files the tasks `lo` to `hi - 1` save, when `succ(j)` is what task `j`
      returned: one per task that returned a result. */
  function Saves(cfg: ExperimentConfig, succ: nat -> Option<Report>, lo: nat, hi: nat):
    map<string, SavedRecord<Report, MetaValue>>
    requires hi <= |cfg.tasks|
    decreases hi - lo
  {
    if lo >= hi then map[]
    else
      var rest := Saves(cfg, succ, lo + 1, hi);
      match succ(lo)
      case Some(r) => rest[TaskId(lo) := SavedFor(cfg, lo, r)]
      case None => rest
  }

  /** Task `j` of the range has a file exactly when it returned a result, and the file
      holds that result with its metadata; no other id is touched. */
  lemma {:induction false} SavesProperties(cfg: ExperimentConfig, succ: nat -> Option<Report>, lo: nat, hi: nat)
    requires hi <= |cfg.tasks|
    ensures var m := Saves(cfg, succ, lo, hi);
      && (forall j: nat | lo <= j < hi :: (TaskId(j) in m <==> succ(j).Some?))
      && (forall j: nat | lo <= j < hi && succ(j).Some? ::
            m[TaskId(j)] == SavedFor(cfg, j, succ(j).value))
      && (forall id | id in m :: exists j: nat | lo <= j < hi :: id == TaskId(j))
  {
    SavesFiles(cfg, succ, lo, hi);
    SavesWithin(cfg, succ, lo, hi);
  }

  /** The ids of the range: present exactly for the tasks that returned a result, with
      that result. */
  lemma {:induction false} SavesFiles(cfg: ExperimentConfig, succ: nat -> Option<Report>, lo: nat, hi: nat)
    requires hi <= |cfg.tasks|
    ensures var m := Saves(cfg, succ, lo, hi);
      forall j: nat | lo <= j < hi ::
        && (TaskId(j) in m <==> succ(j).Some?)
        && (succ(j).Some? ==> m[TaskId(j)] == SavedFor(cfg, j, succ(j).value))
    decreases hi - lo
  {
    if lo < hi {
      var m := Saves(cfg, succ, lo, hi);
      var rest := Saves(cfg, succ, lo + 1, hi);
      SavesFiles(cfg, succ, lo + 1, hi);
      SavesWithin(cfg, succ, lo + 1, hi);
      assert TaskId(lo) !in rest by {
        if TaskId(lo) in rest {
          var j: nat :| lo + 1 <= j < hi && TaskId(lo) == TaskId(j);
          DistinctIds(lo, j);
        }
      }
      forall j: nat | lo < j < hi
        ensures (TaskId(j) in m <==> TaskId(j) in rest) && (TaskId(j) in rest ==> m[TaskId(j)] == rest[TaskId(j)])
      {
        DistinctIds(lo, j);
      }
    }
  }

  /** Every id in the files of the range belongs to a task of the range. */
  lemma {:induction false} SavesWithin(cfg: ExperimentConfig, succ: nat -> Option<Report>, lo: nat, hi: nat)
    requires hi <= |cfg.tasks|
    ensures forall id | id in Saves(cfg, succ, lo, hi) :: exists j: nat | lo <= j < hi :: id == TaskId(j)
    decreases hi - lo
  {
    if lo < hi {
      var m := Saves(cfg, succ, lo, hi);
      SavesWithin(cfg, succ, lo + 1, hi);
      forall id | id in m ensures exists j: nat | lo <= j < hi :: id == TaskId(j) {
        if id != TaskId(lo) {
          assert id in Saves(cfg, succ, lo + 1, hi);
        }
      }
    }
  }

  /** The double `CleanUp` at the level of a task of `run`: as written, a first attempt
      whose training fails loses the second attempt's report, `run` reports the
      assertion as `task_failed` and saves nothing; the corrected runner saves the report. */
  lemma DoubleCleanUpLosesResult(cfg: ExperimentConfig, r: Report, w: World)
    requires |cfg.tasks| > 0 && Positive(cfg.watchTime)
    requires (cfg.tasks[0].mode == "long" || cfg.tasks[0].mode == "short") && cfg.tasks[0].videoIds != []
    ensures var attempts := (i: nat) => (k: nat) => if k == 0 then Attempt([], TrainFailed) else Attempt([], Succeeded(r));
      var asWritten := TaskStep(cfg, 3, true, 0, attempts(0), w);
      && asWritten.files == w.files
      && |asWritten.emitted| > 0 && asWritten.emitted[|asWritten.emitted| - 1] == TaskFailed(0, CleanUpMessage)
      && TaskStep(cfg, 3, false, 0, attempts(0), w).files == w.files[TaskId(0) := SavedFor(cfg, 0, r)]
  {
    var attempts := (i: nat) => (k: nat) => if k == 0 then Attempt([], TrainFailed) else Attempt([], Succeeded(r));
    DoubleCleanUpAborts(cfg, cfg.tasks[0], r, 0, w.state);
    RetryOutcomeOf(cfg, 3, 0, cfg.tasks[0], attempts(0), 0, w.state, w.emitted, true);
    RetryOutcomeOf(cfg, 3, 0, cfg.tasks[0], attempts(0), 0, w.state, [], true);
    TaskStepFiles(cfg, 3, false, attempts, 0, w);
    RetryOutcomeOf(cfg, 3, 0, cfg.tasks[0], attempts(0), 0, w.state, [], false);
  }

  /** The files of a range hold no id of a task before it. */
  lemma SavesOutside(cfg: ExperimentConfig, succ: nat -> Option<Report>, lo: nat, hi: nat, i: nat)
    requires hi <= |cfg.tasks| && i < lo
    ensures TaskId(i) !in Saves(cfg, succ, lo, hi)
  {
    SavesProperties(cfg, succ, lo, hi);
    if TaskId(i) in Saves(cfg, succ, lo, hi) {
      var j: nat :| lo <= j < hi && TaskId(i) == TaskId(j);
      DistinctIds(i, j);
    }
  }

  lemma DistinctIds(i: nat, j: nat)
    requires i != j
    ensures TaskId(i) != TaskId(j)
  {
    TaskIdRoundTrip(i, j);
  }

  /** A task writes the file of its own id exactly when its retry loop returned a result. */
  lemma TaskStepFiles(cfg: ExperimentConfig, maxRetries: int, innerCleanUp: bool, attempts: nat -> nat -> Attempt, idx: nat, w: World)
    requires idx < |cfg.tasks|
    ensures TaskStep(cfg, maxRetries, innerCleanUp, idx, attempts(idx), w).files
         == match Success(cfg, maxRetries, innerCleanUp, attempts, idx)
            case Some(r) => w.files[TaskId(idx) := SavedFor(cfg, idx, r)]
            case None => w.files
  {
    RetryOutcomeOf(cfg, maxRetries, idx, cfg.tasks[idx], attempts(idx), 0, w.state, w.emitted, innerCleanUp);
  }

  /** A wave leaves every file it does not write as it was, and its saves override. */
  lemma {:induction false} WaveSaves(cfg: ExperimentConfig, maxRetries: int, innerCleanUp: bool, attempts: nat -> nat -> Attempt,
                                    i: nat, end: nat, w: World)
    requires end <= |cfg.tasks|
    ensures WaveFrom(cfg, maxRetries, innerCleanUp, attempts, i, end, w).files
         == w.files + Saves(cfg, Successes(cfg, maxRetries, innerCleanUp, attempts), i, end)
    decreases end - i
  {
    var succ := Successes(cfg, maxRetries, innerCleanUp, attempts);
    if i < end {
      var w1 := TaskStep(cfg, maxRetries, innerCleanUp, i, attempts(i), w);
      WaveStep(cfg, maxRetries, innerCleanUp, attempts, i, end, w);
      WaveSaves(cfg, maxRetries, innerCleanUp, attempts, i + 1, end, w1);
      TaskStepFiles(cfg, maxRetries, innerCleanUp, attempts, i, w);
      var rest := Saves(cfg, succ, i + 1, end);
      assert succ(i) == Success(cfg, maxRetries, innerCleanUp, attempts, i);
      match succ(i)
      case Some(r) =>
        var rec := SavedFor(cfg, i, r);
        assert Saves(cfg, succ, i, end) == rest[TaskId(i) := rec];
        SavesOutside(cfg, succ, i + 1, end, i);
        UpdateThenUnion(w.files, rest, TaskId(i), rec);
      case None =>
        assert Saves(cfg, succ, i, end) == rest;
    } else {
      assert Saves(cfg, succ, i, end) == map[];
      assert w.files + map[] == w.files;
    }
  }

  lemma UpdateThenUnion<K, V>(a: map<K, V>, b: map<K, V>, k: K, v: V)
    requires k !in b
    ensures a[k := v] + b == a + b[k := v] && (a + b)[k := v] == a[k := v] + b
  {
  }

  /** The files after waves from `start` on, for a run that does not raise. */
  lemma {:induction false} WavesSave(cfg: ExperimentConfig, maxRetries: int, innerCleanUp: bool, attempts: nat -> nat -> Attempt,
                                    draws: nat -> nat, start: nat, w: World)
    requires cfg.threads > 0 && 0 <= cfg.sleepRange.0 <= cfg.sleepRange.1
    ensures start <= |cfg.tasks| ==>
      WavesFrom(cfg, maxRetries, innerCleanUp, attempts, draws, start, w).1.files
        == w.files + Saves(cfg, Successes(cfg, maxRetries, innerCleanUp, attempts), start, |cfg.tasks|)
    decreases |cfg.tasks| - start
  {
    if start < |cfg.tasks| {
      var total := |cfg.tasks|;
      var end := WaveEnd(cfg, start);
      var w1 := WaveFrom(cfg, maxRetries, innerCleanUp, attempts, start, end, w);
      var here := Saves(cfg, Successes(cfg, maxRetries, innerCleanUp, attempts), start, end);
      var later := Saves(cfg, Successes(cfg, maxRetries, innerCleanUp, attempts), end, total);
      WaveSaves(cfg, maxRetries, innerCleanUp, attempts, start, end, w);
      SavesSplit(cfg, Successes(cfg, maxRetries, innerCleanUp, attempts), start, end, total);
      assert w1.files == w.files + here;
      assert Saves(cfg, Successes(cfg, maxRetries, innerCleanUp, attempts), start, total) == here + later;
      if end < total {
        var w2 := SleepStep(cfg, draws, start, w1).1;
        SleepInRange(cfg, draws, start, w1);
        assert WavesFrom(cfg, maxRetries, innerCleanUp, attempts, draws, start, w) == WavesFrom(cfg, maxRetries, innerCleanUp, attempts, draws, end, w2);
        WavesSave(cfg, maxRetries, innerCleanUp, attempts, draws, end, w2);
        UnionAssoc(w.files, here, later);
      } else {
        assert WavesFrom(cfg, maxRetries, innerCleanUp, attempts, draws, start, w) == WavesFrom(cfg, maxRetries, innerCleanUp, attempts, draws, start + cfg.threads, w1);
        assert WavesFrom(cfg, maxRetries, innerCleanUp, attempts, draws, start + cfg.threads, w1).1 == w1;
        assert later == map[];
        assert here + map[] == here;
      }
    } else {
      assert Saves(cfg, Successes(cfg, maxRetries, innerCleanUp, attempts), start, |cfg.tasks|) == map[];
      assert w.files + map[] == w.files;
    }
  }

  lemma UnionAssoc<K, V>(a: map<K, V>, b: map<K, V>, c: map<K, V>)
    ensures a + (b + c) == (a + b) + c
  {
  }

  lemma {:induction false} SavesSplit(cfg: ExperimentConfig, succ: nat -> Option<Report>,
                                     lo: nat, mid: nat, hi: nat)
    requires lo <= mid <= hi <= |cfg.tasks|
    ensures Saves(cfg, succ, lo, hi)
         == Saves(cfg, succ, lo, mid) + Saves(cfg, succ, mid, hi)
    decreases mid - lo
  {
    if lo < mid {
      SavesSplit(cfg, succ, lo + 1, mid, hi);
      var a := Saves(cfg, succ, lo + 1, mid);
      var b := Saves(cfg, succ, mid, hi);
      if succ(lo).Some? {
        var rec := SavedFor(cfg, lo, succ(lo).value);
        SavesOutside(cfg, succ, mid, hi, lo);
        UpdateThenUnion(a, b, TaskId(lo), rec);
      }
    } else {
      assert Saves(cfg, succ, lo, mid) == map[];
      assert map[] + Saves(cfg, succ, mid, hi) == Saves(cfg, succ, mid, hi);
    }
  }

  /** A run with workers and a valid non-negative sleep range completes; it saves a file
      for exactly the tasks whose retry loop returned a result, leaves every other file
      as it was, and sleeps once between each two waves for a length within the range. */
  lemma RunProperties(cfg: ExperimentConfig, maxRetries: int, innerCleanUp: bool, attempts: nat -> nat -> Attempt, draws: nat -> nat, w: World)
    requires cfg.threads > 0 && 0 <= cfg.sleepRange.0 <= cfg.sleepRange.1
    ensures var (r, w1) := RunSpec(cfg, maxRetries, innerCleanUp, attempts, draws, w);
      var n := |Waves(|cfg.tasks|, cfg.threads, 0)|;
      && r.Returned? && w1.state.status == Completed
      && w1.files == w.files + Saves(cfg, Successes(cfg, maxRetries, innerCleanUp, attempts), 0, |cfg.tasks|)
      && |w1.slept| == |w.slept| + (if n > 0 then n - 1 else 0)
      && w1.slept[..|w.slept|] == w.slept
      && (forall k | |w.slept| <= k < |w1.slept| :: cfg.sleepRange.0 <= w1.slept[k] <= cfg.sleepRange.1)
  {
    var total := |cfg.tasks|;
    var w0 := w.(state := Started(w.state, total), emitted := w.emitted + [ExperimentStarted(total)]);
    WavesSleep(cfg, maxRetries, innerCleanUp, attempts, draws, 0, w0);
    WavesSave(cfg, maxRetries, innerCleanUp, attempts, draws, 0, w0);
  }

  // ---------------------------------------------------------------- sorted ids

  /** Python's `<` on strings: code point by code point, a proper prefix first. */
  predicate Before(a: string, b: string)
    decreases |a|
  {
    if a == [] then b != []
    else if b == [] then false
    else a[0] < b[0] || (a[0] == b[0] && Before(a[1..], b[1..]))
  }

  /** The order is strict, total on distinct strings, and transitive. */
  lemma {:induction false} BeforeOrder(a: string, b: string, c: string)
    ensures !Before(a, a)
    ensures a != b ==> Before(a, b) || Before(b, a)
    ensures Before(a, b) ==> !Before(b, a)
    ensures Before(a, b) && Before(b, c) ==> Before(a, c)
    decreases |a|
  {
    if a != [] && b != [] && c != [] {
      BeforeOrder(a[1..], b[1..], c[1..]);
      if a[0] == b[0] && a != b {
        assert a == [a[0]] + a[1..] && b == [b[0]] + b[1..];
      }
    } else if a != [] && b != [] {
      BeforeOrder(a[1..], b[1..], a[1..]);
      if a[0] == b[0] && a != b {
        assert a == [a[0]] + a[1..] && b == [b[0]] + b[1..];
      }
    } else if a != [] {
      BeforeOrder(a[1..], a[1..], a[1..]);
    }
  }

  predicate Ascending(s: seq<string>)
  {
    forall j, k | 0 <= j < k < |s| :: Before(s[j], s[k])
  }

  /** `x` put into an ascending list before the first element not below it. */
  function Insert(x: string, s: seq<string>): seq<string>
    decreases |s|
  {
    if s == [] || !Before(s[0], x) then [x] + s else [s[0]] + Insert(x, s[1..])
  }

  /** `sorted(ids)`, as an insertion sort. */
  function SortIds(ids: seq<string>): seq<string>
    decreases |ids|
  {
    if ids == [] then [] else Insert(ids[0], SortIds(ids[1..]))
  }

  lemma {:induction false} InsertProperties(x: string, s: seq<string>)
    requires Ascending(s) && x !in s
    ensures Ascending(Insert(x, s)) && multiset(Insert(x, s)) == multiset(s) + multiset{x}
    decreases |s|
  {
    if s == [] || !Before(s[0], x) {
      InsertFront(x, s);
    } else {
      InsertProperties(x, s[1..]);
      InsertLater(x, s);
    }
  }

  lemma PrependAscending(y: string, t: seq<string>)
    requires Ascending(t) && forall k | 0 <= k < |t| :: Before(y, t[k])
    ensures Ascending([y] + t)
  {
    var r := [y] + t;
    forall j, k | 0 <= j < k < |r| ensures Before(r[j], r[k]) {
      assert r[k] == t[k - 1];
      if j > 0 {
        assert r[j] == t[j - 1];
      }
    }
  }

  lemma InsertFront(x: string, s: seq<string>)
    requires Ascending(s) && x !in s && (s == [] || !Before(s[0], x))
    ensures Ascending(Insert(x, s)) && multiset(Insert(x, s)) == multiset(s) + multiset{x}
  {
    if s != [] {
      BeforeOrder(x, s[0], x);
      forall k | 0 <= k < |s| ensures Before(x, s[k]) {
        BeforeOrder(x, s[0], s[k]);
      }
    }
    PrependAscending(x, s);
  }

  lemma InsertLater(x: string, s: seq<string>)
    requires Ascending(s) && x !in s && s != [] && Before(s[0], x)
    requires var t := Insert(x, s[1..]); Ascending(t) && multiset(t) == multiset(s[1..]) + multiset{x}
    ensures Ascending(Insert(x, s)) && multiset(Insert(x, s)) == multiset(s) + multiset{x}
  {
    var t := Insert(x, s[1..]);
    assert Insert(x, s) == [s[0]] + t;
    assert s == [s[0]] + s[1..];
    forall k | 0 <= k < |t| ensures Before(s[0], t[k]) {
      AboveHead(x, s, t[k]);
    }
    PrependAscending(s[0], t);
  }

  lemma AboveHead(x: string, s: seq<string>, y: string)
    requires Ascending(s) && s != [] && Before(s[0], x)
    requires y in multiset(s[1..]) + multiset{x}
    ensures Before(s[0], y)
  {
    if y != x {
      assert y in s[1..];
      var j :| 0 <= j < |s[1..]| && s[1..][j] == y;
      assert s[j + 1] == y;
    }
  }

  /** Sorting a list without duplicates gives an ascending list of the same elements. */
  lemma {:induction false} SortIdsProperties(ids: seq<string>)
    requires forall j, k | 0 <= j < k < |ids| :: ids[j] != ids[k]
    ensures Ascending(SortIds(ids)) && multiset(SortIds(ids)) == multiset(ids)
    decreases |ids|
  {
    if ids != [] {
      SortIdsProperties(ids[1..]);
      assert ids == [ids[0]] + ids[1..];
      forall k | 0 <= k < |ids[1..]| ensures ids[1..][k] != ids[0] {
        assert ids[1..][k] == ids[k + 1];
      }
      assert ids[0] !in multiset(SortIds(ids[1..]));
      InsertProperties(ids[0], SortIds(ids[1..]));
    }
  }

  // ---------------------------------------------------------------- the runner

  /** `BatchRunner` with its default `FileStorage`; the experiment directory and the
      log file are not modelled. With `innerCleanUp` the runner is `batch.py` as written,
      whose failed phases call `CleanUp` inside the `try` and again in `finally`; without
      it, the runner makes only the `finally` call. */
  class BatchRunner {
    const config: ExperimentConfig
    const maxRetries: int
    const innerCleanUp: bool
    const status: StatusTracker
    const storage: FileStorage<Report, MetaValue>
    var emitted: seq<BatchEvent>
    var slept: seq<int>

    /** `existing` is what the experiment's results directory already holds. */
    constructor (config: ExperimentConfig, maxRetries: int, innerCleanUp: bool,
                 existing: map<string, SavedRecord<Report, MetaValue>>)
      ensures this.config == config && this.maxRetries == maxRetries && this.innerCleanUp == innerCleanUp
      ensures fresh(status) && fresh(storage)
      ensures status.state == Initial(config.name) && storage.files == existing
      ensures emitted == [] && slept == []
    {
      this.config := config;
      this.maxRetries := maxRetries;
      this.innerCleanUp := innerCleanUp;
      status := new StatusTracker(config.name);
      storage := new FileStorage(existing);
      emitted := [];
      slept := [];
    }

    function Current(): World
      reads this, status, storage
    {
      World(status.state, storage.files, emitted, slept)
    }

    /** `_emit_event`. */
    method Emit(e: BatchEvent)
      modifies this
      ensures emitted == old(emitted) + [e] && slept == old(slept)
    {
      emitted := emitted + [e];
    }

    /** The `on_progress` callback of a task. */
    method OnProgressCallback(taskId: string, mode: string, e: Event)
      modifies status
      ensures status.state == OnProgress(old(status.state), taskId, mode, e)
    {
      match e
      case TrainingProgress(current, total, _) =>
        status.UpdateTaskProgress(taskId, mode, "training", current, total);
      case CollectionProgress(current, total) =>
        status.UpdateTaskProgress(taskId, mode, "collection", current, total);
      case RestrictedVideo(_, _) =>
        status.IncrementHealth("restricted_videos", 1);
      case _ =>
    }

    /** `_execute_task`: one attempt, reported through the tracker and the events. */
    method ExecuteTask(idx: nat, task: ExperimentTask, a: Attempt) returns (r: Outcome)
      modifies this, status
      ensures r == AttemptOutcome(config, task, a, innerCleanUp)
      ensures status.state == AttemptState(config, idx, task, a, old(status.state))
      ensures emitted == AttemptEvents(config, idx, task, a, old(emitted))
      ensures slept == old(slept)
    {
      var id := TaskId(idx);
      Emit(TaskStarted(idx, id, task.mode));
      if !Positive(config.watchTime) {
        return Error(BudgetMessage);
      }
      if ModeOf(task.mode).None? {
        return Error(ModeMessage);
      }
      if a.ending.InitFailed? {
        Emit(TaskFailed(idx, "driver_init_failed"));
        return Done(None);
      }
      var seed := SeedOf(task);
      if seed.None? {
        return Error(IndexMessage);
      }
      status.UpdateCurrentTask(idx, id, Registration(config, task, seed.value));
      ReplayProgress(id, task.mode, ProgressOf(task, a));
      r := RecordEnding(idx, id, EndingOf(task, a));
    }

    /** The callback applied to the progress events of an attempt, in order. */
    method ReplayProgress(id: string, mode: string, progress: seq<Event>)
      modifies status
      ensures status.state == Progressed(old(status.state), id, mode, progress)
    {
      var k := 0;
      while k < |progress|
        invariant 0 <= k <= |progress|
        invariant status.state == Progressed(old(status.state), id, mode, progress[..k])
      {
        OnProgressCallback(id, mode, progress[k]);
        assert progress[..k + 1][..k] == progress[..k];
        k := k + 1;
      }
      assert progress[..k] == progress;
    }

    /** How an attempt that registered its task ends: the counters, the health metrics,
        the collected data and the closing event. */
    method RecordEnding(idx: nat, id: string, ending: Ending) returns (r: Outcome)
      requires id == TaskId(idx)
      modifies this, status
      ensures var end := ending;
        && status.state == Ended(old(status.state), end)
        && emitted == old(emitted) + (match end
                                      case Crashed(m) => [TaskFailed(idx, m)]
                                      case Succeeded(_) => [TaskCompleted(idx, id)]
                                      case _ => [])
        && r == (match end
                 case Succeeded(rep) => Done(Some(rep))
                 case TrainFailed | CollectFailed => if innerCleanUp then Error(CleanUpMessage) else Done(None)
                 case _ => Done(None))
      ensures slept == old(slept)
    {
      match ending
      case Succeeded(rep) =>
        status.IncrementCompleted();
        status.IncrementHealth("successful_runs", 1);
        status.UpdateDataCollected(ReportCounts(rep));
        Emit(TaskCompleted(idx, id));
        r := Done(Some(rep));
      case Crashed(m) =>
        Emit(TaskFailed(idx, m));
        status.IncrementFailed();
        status.IncrementHealth("failed_runs", 1);
        r := Done(None);
      case TrainFailed =>
        status.IncrementFailed();
        status.IncrementHealth("failed_runs", 1);
        r := FailedPhase();
      case CollectFailed =>
        status.IncrementFailed();
        status.IncrementHealth("failed_runs", 1);
        r := FailedPhase();
      case InitFailed =>
        r := Done(None);
    }

    /** The return after a failed phase. As written, the `CleanUp` inside the `try` has
        closed the driver, so the one in `finally` fails its assertion, and that
        exception replaces the return. */
    function FailedPhase(): (r: Outcome)
      ensures r.Done? <==> !innerCleanUp
      ensures r == Done(None) || r == Error(CleanUpMessage)
    {
      if innerCleanUp then Error(CleanUpMessage) else Done(None)
    }

    /** `_execute_task_with_retry`. */
    method ExecuteTaskWithRetry(idx: nat, task: ExperimentTask, attempts: nat -> Attempt) returns (r: Outcome)
      modifies this, status
      ensures var e := RetryFrom(config, maxRetries, idx, task, attempts, 0, old(status.state), old(emitted), innerCleanUp);
        r == e.outcome && status.state == e.state && emitted == e.emitted
      ensures slept == old(slept)
    {
      ghost var target := RetryFrom(config, maxRetries, idx, task, attempts, 0, status.state, emitted, innerCleanUp);
      var k: nat := 0;
      while k < maxRetries
        invariant RetryFrom(config, maxRetries, idx, task, attempts, k, status.state, emitted, innerCleanUp) == target
        invariant slept == old(slept)
        decreases maxRetries - k
      {
        if k > 0 {
          Emit(TaskRetry(idx, k));
          status.IncrementHealth("retries", 1);
        }
        r := ExecuteTask(idx, task, attempts(k));
        if r != Done(None) {
          return;
        }
        k := k + 1;
      }
      return Done(None);
    }

    /** One task of a wave: its retry loop, then the save of its result, or the event of
        an exception that escaped. */
    method RunTask(idx: nat, attempts: nat -> Attempt)
      requires idx < |config.tasks|
      modifies this, status, storage
      ensures Current() == TaskStep(config, maxRetries, innerCleanUp, idx, attempts, old(Current()))
    {
      var task := config.tasks[idx];
      var r := ExecuteTaskWithRetry(idx, task, attempts);
      match r
      case Done(Some(rep)) =>
        storage.Save(TaskId(idx), rep, Some(Metadata(config, idx, task)));
      case Done(None) =>
      case Error(m) =>
        Emit(TaskFailed(idx, m));
    }

    /** The rate-limit sleep after the wave that started at `start`. */
    method Pause(start: nat, draws: nat -> nat) returns (r: Call<()>)
      modifies this
      ensures (r, Current()) == SleepStep(config, draws, start, old(Current()))
    {
      var (lo, hi) := config.sleepRange;
      if lo > hi {
        return Raised;
      }
      var d := RandInt(lo, hi, draws(start));
      Emit(BatchSleep(d));
      if d < 0 {
        return Raised;
      }
      slept := slept + [d];
      return Returned(());
    }

    /** The tasks `start` to `end - 1` of one wave, in submission order. */
    method RunWave(start: nat, end: nat, attempts: nat -> nat -> Attempt)
      requires start <= end <= |config.tasks|
      modifies this, status, storage
      ensures Current() == WaveFrom(config, maxRetries, innerCleanUp, attempts, start, end, old(Current()))
    {
      ghost var w0 := Current();
      var i := start;
      while i < end
        invariant start <= i <= end
        invariant Current() == WaveUpTo(config, maxRetries, innerCleanUp, attempts, start, i, w0)
        decreases end - i
      {
        RunTask(i, attempts(i));
        i := i + 1;
      }
      WaveUpToThenFrom(config, maxRetries, innerCleanUp, attempts, start, end, end, w0);
    }

    /** The waves of `run`, with the sleep between consecutive waves. */
    method RunWaves(attempts: nat -> nat -> Attempt, draws: nat -> nat) returns (r: Call<()>)
      requires config.threads > 0
      modifies this, status, storage
      ensures (r, Current()) == WavesFrom(config, maxRetries, innerCleanUp, attempts, draws, 0, old(Current()))
    {
      ghost var target := WavesFrom(config, maxRetries, innerCleanUp, attempts, draws, 0, Current());
      var total := |config.tasks|;
      var start: nat := 0;
      var raised := false;
      while start < total && !raised
        invariant !raised ==> WavesFrom(config, maxRetries, innerCleanUp, attempts, draws, start, Current()) == target
        invariant raised ==> target == (Raised, Current())
        decreases total - start
      {
        raised := RunWaveAndPause(start, attempts, draws);
        start := start + config.threads;
      }
      r := if raised then Raised else Returned(());
    }

    /** One pass of the wave loop: the wave starting at `start`, then the sleep unless it
        was the last wave. Either the sleep raised, and that is the end of the waves, or
        the waves go on from the next start. */
    method RunWaveAndPause(start: nat, attempts: nat -> nat -> Attempt, draws: nat -> nat) returns (raised: bool)
      requires config.threads > 0 && start < |config.tasks|
      modifies this, status, storage
      ensures var here := WavesFrom(config, maxRetries, innerCleanUp, attempts, draws, start, old(Current()));
        if raised then here == (Raised, Current())
        else here == WavesFrom(config, maxRetries, innerCleanUp, attempts, draws, start + config.threads, Current())
    {
      var end := WaveEnd(config, start);
      RunWave(start, end, attempts);
      raised := false;
      if end < |config.tasks| {
        var p := Pause(start, draws);
        raised := p.Raised?;
      }
    }

    /** `run`. `attempts(i)(k)` is attempt `k` of task `i`; `draws(s)` is the number the
        sleep after the wave starting at task `s` is drawn from. */
    method Run(attempts: nat -> nat -> Attempt, draws: nat -> nat) returns (r: Call<()>)
      modifies this, status, storage
      ensures (r, Current()) == RunSpec(config, maxRetries, innerCleanUp, attempts, draws, old(Current()))
    {
      var total := |config.tasks|;
      Emit(ExperimentStarted(total));
      status.Start(total);
      if config.threads <= 0 {
        return Raised;
      }
      r := RunWaves(attempts, draws);
      if r.Raised? {
        return Raised;
      }
      status.Complete();
      Emit(ExperimentCompleted(total));
      return Returned(());
    }

    /** `get_results`: the saved results in ascending order of task id. */
    method GetResults() returns (results: seq<Report>)
      ensures var ids := SortedKeys(storage.files.Keys);
        |results| == |ids| && forall k | 0 <= k < |ids| :: results[k] == storage.files[ids[k]].result
    {
      var listed := storage.List();
      SortIdsProperties(listed);
      var sorted := SortIds(listed);
      SortedIdsSaved(listed, sorted, storage.files);
      results := LoadAll(sorted);
      AscendingUnique(sorted, SortedKeys(storage.files.Keys));
    }

    /** The loop of `get_results` over ids that all have a file. */
    method LoadAll(sorted: seq<string>) returns (results: seq<Report>)
      requires forall k | 0 <= k < |sorted| :: sorted[k] in storage.files
      ensures |results| == |sorted| && forall k | 0 <= k < |sorted| :: results[k] == storage.files[sorted[k]].result
    {
      results := [];
      var k := 0;
      while k < |sorted|
        invariant 0 <= k <= |sorted| && |results| == k
        invariant forall j | 0 <= j < k :: results[j] == storage.files[sorted[j]].result
      {
        var found := storage.Load(sorted[k]);
        if found.Some? {
          results := results + [found.value];
        }
        k := k + 1;
      }
    }
  }

  /** Sorting the listed ids keeps exactly the ids that have a file. */
  lemma SortedIdsSaved<V>(listed: seq<string>, sorted: seq<string>, files: map<string, V>)
    requires multiset(sorted) == multiset(listed)
    requires forall k | 0 <= k < |listed| :: listed[k] in files
    requires forall id | id in files :: id in listed
    ensures forall k | 0 <= k < |sorted| :: sorted[k] in files
    ensures forall id :: id in sorted <==> id in files
  {
    forall k | 0 <= k < |sorted| ensures sorted[k] in files {
      assert sorted[k] in multiset(listed);
    }
    forall id | id in files ensures id in sorted {
      assert id in multiset(sorted);
    }
  }

  /** The least element of a non-empty set of ids. */
  lemma {:induction false} Least(keys: set<string>) returns (x: string)
    requires keys != {}
    ensures x in keys && forall y | y in keys && y != x :: Before(x, y)
    decreases |keys|
  {
    x :| x in keys;
    var rest := keys - {x};
    if rest == {} {
      assert keys == {x};
    } else {
      var m := Least(rest);
      BeforeOrder(m, x, m);
      if Before(m, x) {
        forall y | y in keys && y != m ensures Before(m, y) {
          if y != x {
            assert y in rest;
          }
        }
        x := m;
      } else {
        forall y | y in keys && y != x ensures Before(x, y) {
          if y != m {
            assert y in rest;
            BeforeOrder(x, m, y);
          }
        }
      }
    }
  }

  lemma LeastExists(keys: set<string>)
    requires keys != {}
    ensures exists x :: x in keys && forall y | y in keys && y != x :: Before(x, y)
  {
    var x := Least(keys);
  }

  /** The ids of `keys` in ascending order, built least first: what `sorted` of them gives. */
  ghost function SortedKeys(keys: set<string>): (r: seq<string>)
    ensures Ascending(r) && (forall id :: id in r <==> id in keys) && |r| == |keys|
    decreases |keys|
  {
    if keys == {} then []
    else
      LeastExists(keys);
      var x :| x in keys && forall y | y in keys && y != x :: Before(x, y);
      var rest := SortedKeys(keys - {x});
      assert forall k | 0 <= k < |rest| :: Before(x, rest[k]) by {
        forall k | 0 <= k < |rest| ensures Before(x, rest[k]) {
          assert rest[k] in keys - {x};
        }
      }
      PrependAscending(x, rest);
      [x] + rest
  }

  /** Past its head, an ascending list holds its elements other than the head. */
  lemma TailMembers(s: seq<string>, x: string)
    requires Ascending(s) && s != []
    ensures x in s[1..] <==> x in s && x != s[0]
  {
    if x in s[1..] {
      var j :| 0 <= j < |s[1..]| && s[1..][j] == x;
      assert s[j + 1] == x && Before(s[0], s[j + 1]);
      BeforeOrder(s[0], s[0], s[0]);
    }
    if x in s && x != s[0] {
      var j :| 0 <= j < |s| && s[j] == x;
      assert s[1..][j - 1] == x;
    }
  }

  lemma HeadMember(t: seq<string>)
    ensures t != [] ==> t[0] in t
  {
  }

  /** Two ascending lists with the same elements are the same list. */
  lemma {:induction false} AscendingUnique(s: seq<string>, t: seq<string>)
    requires Ascending(s) && Ascending(t) && forall x :: x in s <==> x in t
    ensures s == t
    decreases |s|
  {
    if s == [] {
      HeadMember(t);
    } else {
      assert s[0] in t;
      var a, b := s[0], t[0];
      if a != b {
        assert b in s;
        var j :| 0 <= j < |s| && s[j] == b;
        var m :| 0 <= m < |t| && t[m] == a;
        assert Before(a, b) && Before(b, a);
        BeforeOrder(a, b, a);
        assert false;
      }
      forall x ensures x in s[1..] <==> x in t[1..] {
        TailMembers(s, x);
        TailMembers(t, x);
      }
      AscendingUnique(s[1..], t[1..]);
      assert s == [a] + s[1..] && t == [b] + t[1..];
    }
  }
}
