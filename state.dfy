/** The status record of a batch experiment (youtubeaudit/state.py): the per-task
    progress record and the `StatusTracker`, whose mutators each make one small update
    of the nested state dictionary. Timestamps, the elapsed time, the lock and the
    status file are not modelled. */
module Status {
  import opened Common

  /** A `TaskProgress` dataclass; the progress tuples are `(current, total)`. */
  datatype TaskProgress = TaskProgress(videoId: string, mode: string, phase: string,
                                       trainingProgress: (int, int), collectionProgress: (int, int),
                                       status: string, error: Option<string>)

  /** A `{"current": ..., "total": ...}` dictionary. */
  datatype Counter = Counter(current: int, total: int)

  /** The dictionary `to_dict` builds. */
  datatype TaskRecord = TaskRecord(videoId: string, mode: string, phase: string,
                                   trainingProgress: Counter, collectionProgress: Counter,
                                   status: string, error: Option<string>)

  /** `TaskProgress.to_dict`. */
  function ToDict(p: TaskProgress): TaskRecord
  {
    TaskRecord(p.videoId, p.mode, p.phase,
               Counter(p.trainingProgress.0, p.trainingProgress.1),
               Counter(p.collectionProgress.0, p.collectionProgress.1),
               p.status, p.error)
  }

  /** Reading a record back into a dataclass. */
  function FromDict(r: TaskRecord): TaskProgress
  {
    TaskProgress(r.videoId, r.mode, r.phase,
                 (r.trainingProgress.current, r.trainingProgress.total),
                 (r.collectionProgress.current, r.collectionProgress.total),
                 r.status, r.error)
  }

  /** `to_dict` loses nothing: each tuple becomes a current/total record, the other fields
      are copied, and the dataclass can be read back from the record. */
  lemma ToDictRoundTrip(p: TaskProgress, r: TaskRecord)
    ensures FromDict(ToDict(p)) == p
    ensures ToDict(FromDict(r)) == r
    ensures ToDict(p).trainingProgress.current == p.trainingProgress.0
         && ToDict(p).trainingProgress.total == p.trainingProgress.1
         && ToDict(p).collectionProgress.current == p.collectionProgress.0
         && ToDict(p).collectionProgress.total == p.collectionProgress.1
  {
  }

  datatype RunStatus = Pending | Running | Completed | Failed

  datatype BatchProgress = BatchProgress(totalTasks: int, completedTasks: int, failedTasks: int, currentTaskIndex: int)

  /** The state dictionary. `error` is None until `fail` adds the key. */
  datatype ExperimentState = ExperimentState(
    experimentId: string,
    status: RunStatus,
    error: Option<string>,
    batch: BatchProgress,
    currentTasks: map<string, map<string, TaskRecord>>,
    health: map<string, int>,
    dataCollected: map<string, int>)

  const HealthKeys: set<string> := {"successful_runs", "failed_runs", "retries", "restricted_videos"}
  const DataKeys: set<string> := {"total_recommendations", "autoplay_paths", "sidebar_recs", "preload_recs"}

  /** The counter dictionaries have exactly their initial keys, and at most one task is
      current. */
  predicate WellFormed(s: ExperimentState)
  {
    s.health.Keys == HealthKeys && s.dataCollected.Keys == DataKeys && |s.currentTasks| <= 1
  }

  function Zeros(keys: set<string>): (m: map<string, int>)
    ensures m.Keys == keys && forall k | k in m :: m[k] == 0
  {
    map k | k in keys :: 0
  }

  /** The state a new tracker starts in. */
  function Initial(id: string): (s: ExperimentState)
    ensures WellFormed(s) && s.experimentId == id
    ensures s.status == Pending && s.error.None?
    ensures s.batch == BatchProgress(0, 0, 0, -1) && s.currentTasks == map[]
    ensures forall k | k in s.health :: s.health[k] == 0
    ensures forall k | k in s.dataCollected :: s.dataCollected[k] == 0
  {
    ExperimentState(id, Pending, None, BatchProgress(0, 0, 0, -1), map[], Zeros(HealthKeys), Zeros(DataKeys))
  }

  /** `start(total_tasks)`. */
  function Started(s: ExperimentState, totalTasks: int): (r: ExperimentState)
    ensures r.status == Running && r.batch.totalTasks == totalTasks
    ensures r == s.(status := r.status, batch := r.batch)
    ensures r.batch == s.batch.(totalTasks := totalTasks)
    ensures WellFormed(s) ==> WellFormed(r)
  {
    s.(status := Running, batch := s.batch.(totalTasks := totalTasks))
  }

  /** `complete()`. */
  function Finished(s: ExperimentState): (r: ExperimentState)
    ensures r.status == Completed && r == s.(status := r.status)
    ensures WellFormed(s) ==> WellFormed(r)
  {
    s.(status := Completed)
  }

  /** `fail(error)`. */
  function FailedWith(s: ExperimentState, error: string): (r: ExperimentState)
    ensures r.status == Failed && r.error == Some(error)
    ensures r == s.(status := r.status, error := r.error)
    ensures WellFormed(s) ==> WellFormed(r)
  {
    s.(status := Failed, error := Some(error))
  }

  /** `update_current_task`: records the index and makes the given task the only current
      one, with each sub-task's progress as its `to_dict` record. */
  function WithCurrentTask(s: ExperimentState, index: int, taskId: string, tasks: map<string, TaskProgress>): (r: ExperimentState)
    ensures r.batch == s.batch.(currentTaskIndex := index)
    ensures r.currentTasks.Keys == {taskId}
    ensures r.currentTasks[taskId].Keys == tasks.Keys
    ensures forall m | m in tasks :: r.currentTasks[taskId][m] == ToDict(tasks[m])
    ensures r == s.(batch := r.batch, currentTasks := r.currentTasks)
    ensures WellFormed(s) ==> WellFormed(r)
  {
    s.(batch := s.batch.(currentTaskIndex := index),
       currentTasks := map[taskId := map m | m in tasks :: ToDict(tasks[m])])
  }

  /** The record after a progress update of one sub-task. */
  function SetPhase(rec: TaskRecord, phase: string, current: int, total: int): TaskRecord
  {
    var p := rec.(phase := phase);
    if phase == "training" then p.(trainingProgress := Counter(current, total))
    else if phase == "collection" then p.(collectionProgress := Counter(current, total))
    else p
  }

  /** `update_task_progress`. */
  function WithTaskProgress(s: ExperimentState, taskId: string, mode: string, phase: string,
                            current: int, total: int): ExperimentState
  {
    if taskId in s.currentTasks && mode in s.currentTasks[taskId] then
      var sub := s.currentTasks[taskId];
      s.(currentTasks := s.currentTasks[taskId := sub[mode := SetPhase(sub[mode], phase, current, total)]])
    else s
  }

  /** A progress update for a task or sub-task that is not current changes nothing. For a
      current one it sets the phase, replaces the training progress only in the training
      phase and the collection progress only in the collection phase, and leaves every
      other record, every key and everything else untouched. */
  lemma TaskProgressUpdate(s: ExperimentState, taskId: string, mode: string, phase: string, current: int, total: int)
    ensures var r := WithTaskProgress(s, taskId, mode, phase, current, total);
      && (!(taskId in s.currentTasks && mode in s.currentTasks[taskId]) ==> r == s)
      && (taskId in s.currentTasks && mode in s.currentTasks[taskId] ==>
            var old_ := s.currentTasks[taskId][mode];
            var new_ := r.currentTasks[taskId][mode];
            && r.currentTasks.Keys == s.currentTasks.Keys
            && r.currentTasks[taskId].Keys == s.currentTasks[taskId].Keys
            && (forall t | t in s.currentTasks && t != taskId :: r.currentTasks[t] == s.currentTasks[t])
            && (forall m | m in s.currentTasks[taskId] && m != mode :: r.currentTasks[taskId][m] == s.currentTasks[taskId][m])
            && new_.phase == phase
            && new_.trainingProgress == (if phase == "training" then Counter(current, total) else old_.trainingProgress)
            && new_.collectionProgress == (if phase == "collection" then Counter(current, total) else old_.collectionProgress)
            && new_.(phase := old_.phase, trainingProgress := old_.trainingProgress,
                     collectionProgress := old_.collectionProgress) == old_)
      && r == s.(currentTasks := r.currentTasks)
      && (WellFormed(s) ==> WellFormed(r))
  {
  }

  /** A progress update touches only the current tasks, and keeps their keys. */
  lemma TaskProgressFrame(s: ExperimentState, taskId: string, mode: string, phase: string, current: int, total: int)
    ensures var r := WithTaskProgress(s, taskId, mode, phase, current, total);
      && r.batch == s.batch && r.health == s.health && r.dataCollected == s.dataCollected
      && r.currentTasks.Keys == s.currentTasks.Keys
  {
  }

  /** `increment_completed`. */
  function CompletedIncremented(s: ExperimentState): (r: ExperimentState)
    ensures r.batch.completedTasks == s.batch.completedTasks + 1
    ensures r == s.(batch := s.batch.(completedTasks := r.batch.completedTasks))
    ensures WellFormed(s) ==> WellFormed(r)
  {
    s.(batch := s.batch.(completedTasks := s.batch.completedTasks + 1))
  }

  /** `increment_failed`. */
  function FailedIncremented(s: ExperimentState): (r: ExperimentState)
    ensures r.batch.failedTasks == s.batch.failedTasks + 1
    ensures r == s.(batch := s.batch.(failedTasks := r.batch.failedTasks))
    ensures WellFormed(s) ==> WellFormed(r)
  {
    s.(batch := s.batch.(failedTasks := s.batch.failedTasks + 1))
  }

  /** Adds `amount` to an existing counter; an unknown name changes nothing. */
  function AddTo(m: map<string, int>, key: string, amount: int): (r: map<string, int>)
    ensures r.Keys == m.Keys
    ensures key in m ==> r[key] == m[key] + amount
    ensures forall k | k in m && k != key :: r[k] == m[k]
  {
    if key in m then m[key := m[key] + amount] else m
  }

  /** `increment_health(metric, amount)`. */
  function HealthIncremented(s: ExperimentState, metric: string, amount: int): (r: ExperimentState)
    ensures r.health.Keys == s.health.Keys
    ensures metric in s.health ==> r.health[metric] == s.health[metric] + amount
    ensures metric !in s.health ==> r == s
    ensures forall k | k in s.health && k != metric :: r.health[k] == s.health[k]
    ensures r == s.(health := r.health)
    ensures WellFormed(s) ==> WellFormed(r)
  {
    s.(health := AddTo(s.health, metric, amount))
  }

  /** The counters after adding each keyword argument in turn. */
  function AddAll(m: map<string, int>, kw: seq<(string, int)>): map<string, int>
    decreases |kw|
  {
    if kw == [] then m else AddAll(AddTo(m, kw[0].0, kw[0].1), kw[1..])
  }

  /** The sum of the values given for `key`. */
  function SumFor(kw: seq<(string, int)>, key: string): int
    decreases |kw|
  {
    if kw == [] then 0 else (if kw[0].0 == key then kw[0].1 else 0) + SumFor(kw[1..], key)
  }

  /** `update_data_collected(**kwargs)` keeps the key set and adds to each existing key
      the values given for it; names that are not counters are ignored. */
  lemma {:induction false} AddAllProperties(m: map<string, int>, kw: seq<(string, int)>)
    ensures AddAll(m, kw).Keys == m.Keys
    ensures forall k | k in m :: AddAll(m, kw)[k] == m[k] + SumFor(kw, k)
    decreases |kw|
  {
    if kw != [] {
      var m1 := AddTo(m, kw[0].0, kw[0].1);
      AddAllProperties(m1, kw[1..]);
    }
  }

  /** `update_data_collected`. */
  function DataAdded(s: ExperimentState, kw: seq<(string, int)>): ExperimentState
  {
    s.(dataCollected := AddAll(s.dataCollected, kw))
  }

  lemma DataAddedProperties(s: ExperimentState, kw: seq<(string, int)>)
    ensures var r := DataAdded(s, kw);
      && r == s.(dataCollected := r.dataCollected)
      && r.dataCollected.Keys == s.dataCollected.Keys
      && (forall k | k in s.dataCollected :: r.dataCollected[k] == s.dataCollected[k] + SumFor(kw, k))
      && (WellFormed(s) ==> WellFormed(r))
  {
    AddAllProperties(s.dataCollected, kw);
  }

  /** `StatusTracker`: the experiment state, updated in place by its mutators. */
  class StatusTracker {
    const experimentId: string
    var state: ExperimentState

    constructor (experimentId: string)
      ensures this.experimentId == experimentId && state == Initial(experimentId)
    {
      this.experimentId := experimentId;
      state := Initial(experimentId);
    }

    method Start(totalTasks: int)
      modifies this
      ensures state == Started(old(state), totalTasks)
    {
      state := Started(state, totalTasks);
    }

    method Complete()
      modifies this
      ensures state == Finished(old(state))
    {
      state := Finished(state);
    }

    method Fail(error: string)
      modifies this
      ensures state == FailedWith(old(state), error)
    {
      state := FailedWith(state, error);
    }

    method UpdateCurrentTask(index: int, taskId: string, tasks: map<string, TaskProgress>)
      modifies this
      ensures state == WithCurrentTask(old(state), index, taskId, tasks)
    {
      state := WithCurrentTask(state, index, taskId, tasks);
    }

    method UpdateTaskProgress(taskId: string, mode: string, phase: string, current: int, total: int)
      modifies this
      ensures state == WithTaskProgress(old(state), taskId, mode, phase, current, total)
    {
      state := WithTaskProgress(state, taskId, mode, phase, current, total);
    }

    method IncrementCompleted()
      modifies this
      ensures state == CompletedIncremented(old(state))
    {
      state := CompletedIncremented(state);
    }

    method IncrementFailed()
      modifies this
      ensures state == FailedIncremented(old(state))
    {
      state := FailedIncremented(state);
    }

    method IncrementHealth(metric: string, amount: int)
      modifies this
      ensures state == HealthIncremented(old(state), metric, amount)
    {
      state := HealthIncremented(state, metric, amount);
    }

    /** The keyword arguments in the order given. */
    method UpdateDataCollected(kw: seq<(string, int)>)
      modifies this
      ensures state == DataAdded(old(state), kw)
    {
      var i := 0;
      while i < |kw|
        invariant 0 <= i <= |kw|
        invariant DataAdded(state, kw[i..]) == DataAdded(old(state), kw)
      {
        state := state.(dataCollected := AddTo(state.dataCollected, kw[i].0, kw[i].1));
        assert kw[i..][1..] == kw[i + 1..];
        i := i + 1;
      }
      assert kw[i..] == [];
    }

    /** `get_state()`: a snapshot of the state. */
    method GetState() returns (s: ExperimentState)
      ensures s == state
    {
      s := state;
    }
  }
}
