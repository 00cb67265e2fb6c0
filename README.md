# YouTube sock-puppet audit: a Dafny model

The repository drives a browser through YouTube as a "sock puppet". The puppet
*trains* by watching a list of seed videos. It then *collects* recommendations by
hopping from video to video; on each hop it records the sidebar (long-form mode) or
the preloaded shorts (shorts mode). A batch layer expands an experiment
configuration into tasks, runs each task with retries in waves of `threads`, and
keeps a status record. Each successful report goes to a result store, one JSON
file per task id.

This project models that core in Dafny and proves properties of the model. The
browser is never modelled as such. Every driver interaction becomes an input, given
as a total function from an attempt or hop number to what the driver did at that
step: whether a window appeared, a URL changed, an element was found, what a
style attribute read. Exceptions that escape a Python call become `Raised`
(`Common.Call`). Exceptions caught by the batch layer become `Error(message)`
(`Batch.Outcome`).

Modules, one per file:

- `Common` (common.dfy): the Python string operations the code relies on
  (`split`, `join`, `[0]`/`[-1]` of a split, `in`, `lower`).
- `WatchTime` (watch.dfy): the `max_duration` budget (an `int` is a number of
  seconds, a `float` a fraction), the 180-second duration fallback and the watch
  interval.
- `Scrape` (scrape.dfy): the shorts URL prefix, style-attribute id extraction and
  the retrying getters of all three copies of the auditor.
- `Session` (session.dfy): the events, the `watch`/`Train`/`Run` loops as
  specification functions, and `Report`.
- `Auditor` (auditor.dfy): the `YouTubeAuditor` class. youtubeaudit/core.py and
  longstoryshort/core.py are one class here; a `copy` constant says which copy it
  is, because the two differ only in browser launch and in `GetPreloadRec`.
- `LegacyPuppet` (sockpuppet.dfy): the older `SockPuppet` class of
  longstoryshort/__init__.py.
- `Status` (state.py → state.dfy): `TaskProgress.to_dict` and the `StatusTracker`
  state machine.
- `Storage` (storage.dfy): `FileStorage` (a map from task id to saved record) and
  `CompositeStorage`.
- `Config` (config.dfy): `ExperimentTask`, JSON and YAML task expansion, the
  defaults, the name stem and the experiment directory.
- `Batch` (batch.dfy): task ids, one attempt, retries, waves with sleeps between
  them, and `get_results`.

Where the repository's description and its code disagree, the model follows the
code. The description says the failed and completed counters move once per task.
The code moves them once per *attempt*: a task that fails twice and then succeeds
adds 2 to `failed_tasks` and 1 to `completed_tasks`, and `Batch.RetryEffect`
states exactly this.

The runner takes a flag, `innerCleanUp`. With it set, the runner is batch.py as
written. There a failed training or collection phase calls `CleanUp` inside the
`try` and again in `finally`, and the second call's assertion escapes the retry
loop (see "## Findings"). With it clear, the runner is the evidently intended
program, which makes only the `finally` call. The retry, wave and run
specifications (`RetryFrom`, `TaskStep`, `WaveFrom`, `WavesFrom`, `RunSpec`) take
the same flag, and every lemma about them holds for both values.

## Model

| member | source | states |
|---|---|---|
| Common.IndexOf | youtubeaudit/core.py:631 | the first occurrence of a separator, None exactly when it does not occur, no earlier occurrence |
| Common.JoinSplit | youtubeaudit/core.py:536 | joining the pieces of a split with the separator gives back the string |
| Common.FirstPieceProperties | youtubeaudit/core.py:536 | `split(sep)[0]` is a prefix without the separator, and the whole string when the separator is absent |
| Common.LastPieceProperties | youtubeaudit/core.py:536 | `split(sep)[-1]` is a suffix without the separator, and the whole string when the separator is absent |
| Common.Lower | youtubeaudit/core.py:631 | `lower()` on ASCII letters leaves no capital, and each character equals the input's up to case |
| Common.LowerContains | youtubeaudit/core.py:631 | lowering is idempotent, and `pat.lower() in s.lower()` holds exactly when `pat` occurs in `s` ignoring case |
| WatchTime.Trunc | youtubeaudit/core.py:480 | Python `int()` on a float truncates toward zero, both signs |
| WatchTime.Sleep | youtubeaudit/core.py:487 | `max(wait_time, 0)` is non-negative, at least the wait, and equal to it or zero |
| WatchTime.DurationFallback | youtubeaudit/core.py:466-477 | a missing, unreadable or zero duration becomes 180; any other value is kept; the length is never 0 |
| WatchTime.FractionInterval | youtubeaudit/core.py:479-480 | a fractional budget waits the truncated product of length and fraction, between the product minus one and the product |
| WatchTime.SecondsInterval | youtubeaudit/core.py:481-482 | a budget in seconds waits one less than the smaller of length and budget |
| WatchTime.HopWaitRule | youtubeaudit/core.py:695-718 | a collection hop with a zero budget sleeps nothing; a positive budget applies the watch rule to the fallback length |
| Scrape.ShortUrlProperties | youtubeaudit/core.py:26-28 | the empty id gives ""; any other id gives the shorts prefix plus the id; the map is injective |
| Scrape.Repeat | longstoryshort/__init__.py:756-757 | `s * k` has length `|s| * k` |
| Scrape.LegacyPrefixAgrees | longstoryshort/__init__.py:756-757 | the older module-level `__prefix` computes the same URL as `_prefix_short_url` for every id |
| Scrape.StyleToIdProperties | youtubeaudit/core.py:536 | the extracted id is the text after the last "vi/" up to the next "/", and contains neither |
| Scrape.FirstSuccessProperties | youtubeaudit/core.py:501-518 | a retry loop returns the first attempt in range that produced a value, and None exactly when none did |
| Scrape.SidebarResultProperties | youtubeaudit/core.py:493-518 | the sidebar getter returns the first successful read or [] when all retries fail; the older copy's None case is exactly all failing, and otherwise it agrees |
| Scrape.PreloadBatchProperties | youtubeaudit/core.py:528-538 | a preload attempt succeeds only when every style was read, and gives one shorts URL per container, in order |
| Scrape.PreloadResultProperties | youtubeaudit/core.py:520-546 | with no successful attempt the preload getter returns []; otherwise it returns the batch of the first attempt that read every container and style, an empty batch included, with one URL per container |
| Scrape.UnresolvedPreloadIsEmpty | longstoryshort/core.py:671-706 | with the unresolved helper name, every call returns [] |
| Scrape.LegacyPreloadProperties | longstoryshort/__init__.py:489-517 | the older getter returns None unless an attempt in range read no containers, and then [] |
| Session.RetryUntil | youtubeaudit/core.py:186-228 | a retry loop succeeds exactly when some attempt below the bound succeeds |
| Session.FirstBadSeed | youtubeaudit/core.py:394-398 | the index where training stops lies between the start and the seed count |
| Session.WatchAnnouncesNothing | youtubeaudit/core.py:405-491 | watching a video emits no training-progress event |
| Session.BeforeFirstBadSeed | youtubeaudit/core.py:394-398 | every seed before the stopping index was watched successfully |
| Session.TrainResult | youtubeaudit/core.py:370-403 | training returns False exactly when every seed played; otherwise it returns the first bad seed's result (True or an escaped exception) |
| Session.TrainAnnounces | youtubeaudit/core.py:394-398 | the progress events name exactly the seeds watched, in order, up to and including the first that did not play |
| Session.TrainContinues | youtubeaudit/core.py:394-398 | a seed that plays announces itself and passes on to the next seed with the same stopping index |
| Session.TrainAnnouncesStop | youtubeaudit/core.py:396-399 | a seed that does not play ends training right after announcing it |
| Session.RunUnfold | youtubeaudit/core.py:577 | one iteration of the collection loop unfolds the run |
| Session.StepCollects | youtubeaudit/core.py:577-718 | a loop iteration never shrinks a list and collects at most one hop |
| Session.RunAccounting | youtubeaudit/core.py:548-726 | `Run` returns 0 or -1; 0 only with every hop collected and `path` grown by `collect_video_num`; -1 whenever URL retries ran out; each collected hop adds one URL and one list of the mode |
| Session.TimeoutStep | youtubeaudit/core.py:577-606 | a URL that does not change costs one retry and nothing else |
| Session.SignInIgnoresCase | youtubeaudit/core.py:631 | the sign-in test holds exactly when "sign in" occurs in the reason with any capitalisation |
| Session.SignInStep | youtubeaudit/core.py:612-667 | a shown restriction is recorded with its reason ("unknown(error)" when not found); a reason asking to sign in ends the run with -1 before the URL reaches `path` |
| Session.SwallowedDetection | youtubeaudit/core.py:612-673 | a restriction check that raised is swallowed: the hop goes on as if nothing was shown |
| Session.ReportProperties | youtubeaudit/core.py:728-747 | the report splits the seeds into training ids and the seed id, losing or reordering none, and returns the settings and lists unchanged |
| Auditor.YouTubeAuditor.constructor | youtubeaudit/core.py:74-132 | a new auditor is uninitialized, has no driver, mode or budget, and has empty lists |
| Auditor.YouTubeAuditor.Reset | youtubeaudit/core.py:171-178 | initialization sets the mode and the budget and empties the seeds and the four lists |
| Auditor.YouTubeAuditor.InitDriver | youtubeaudit/core.py:151-235 | returns True exactly when the window never appeared or the ad blocker's tab failed; the auditor is initialized exactly when it returns False |
| Auditor.YouTubeAuditor.LaunchBrowser | longstoryshort/core.py:227-330 | a driver that cannot be created raises; a tab that never appears returns True; a leftover tab fails the closing assertion and raises; otherwise the auditor is initialized and the call returns None |
| Auditor.YouTubeAuditor.CleanUp | youtubeaudit/core.py:299-360 | raises on an uninitialized auditor; otherwise ends uninitialized, and keeps the driver only when `kill` is false |
| Auditor.YouTubeAuditor.Watch | youtubeaudit/core.py:405-491 | events, sleep and result are those of the watch specification, with the defaults of the omitted arguments |
| Auditor.YouTubeAuditor.Train | youtubeaudit/core.py:370-403 | stores the seeds; result, events and sleeps are those of the training specification |
| Auditor.YouTubeAuditor.GetSidebar | youtubeaudit/core.py:493-518 | returns the sidebar retry result |
| Auditor.YouTubeAuditor.GetPreloadRec | youtubeaudit/core.py:520-546 | returns the preload result of the auditor's copy |
| Auditor.YouTubeAuditor.Run | youtubeaudit/core.py:548-726 | return code, lists, events and sleeps are those of the run specification from the loop's start |
| Auditor.YouTubeAuditor.RunHop | youtubeaudit/core.py:577-718 | one pass of the collection loop: whether it stops, its return code, and the new counters, lists, events and sleeps are one step of the run specification; settings and seeds stay |
| Auditor.YouTubeAuditor.RecordRestriction | youtubeaudit/core.py:612-673 | the restriction check updates the lists and events as specified and reports a sign-in request |
| Auditor.YouTubeAuditor.RecordHop | youtubeaudit/core.py:675-718 | the mode's list and `path` grow by this hop, and the hop sleeps its interval |
| LegacyPuppet.LegacyTrainAgrees | longstoryshort/__init__.py:347-373 | the older training loop returns what the current one returns and sleeps the same |
| LegacyPuppet.LegacyUnfold | longstoryshort/__init__.py:519-731 | one iteration of the older collection loop unfolds its run |
| LegacyPuppet.HandlerNeedsSeeds | longstoryshort/__init__.py:519-731 | the older restriction handler crashes only without seeds, and then on every swallowed detection failure |
| LegacyPuppet.LegacyStepCollects | longstoryshort/__init__.py:519-731 | an older loop iteration never shrinks a list and collects at most one hop |
| LegacyPuppet.LegacyRunAccounting | longstoryshort/__init__.py:519-731 | the older `Run` never returns 0: it returns -1, raises, or falls off its end (None) |
| LegacyPuppet.LegacyReportProperties | longstoryshort/__init__.py:734-747 | the older report raises exactly when there are no seeds; otherwise it splits them like the current one |
| LegacyPuppet.SockPuppet.constructor | longstoryshort/__init__.py:33-89 | a new puppet is uninitialized, with no driver, mode or budget, and empty lists |
| LegacyPuppet.SockPuppet.InitDriver | longstoryshort/__init__.py:91-161 | returns True exactly on a missing window or a failed ad-blocker tab; initialized only with an ad blocker that succeeded |
| LegacyPuppet.SockPuppet.CleanUp | longstoryshort/__init__.py:214-337 | raises when uninitialized; a failed history clear without `kill` leaves the puppet as it was |
| LegacyPuppet.SockPuppet.Watch | longstoryshort/__init__.py:375-457 | result and sleeps are those of the older watch specification |
| LegacyPuppet.SockPuppet.Train | longstoryshort/__init__.py:347-373 | stores the seeds; result and sleeps are those of the older training loop |
| LegacyPuppet.SockPuppet.GetSidebar | longstoryshort/__init__.py:459-487 | returns the older sidebar result (None when every retry failed) |
| LegacyPuppet.SockPuppet.GetPreloadRec | longstoryshort/__init__.py:489-517 | returns the older preload result |
| LegacyPuppet.SockPuppet.Run | longstoryshort/__init__.py:519-731 | result, lists and sleeps are those of the older run specification |
| LegacyPuppet.SockPuppet.RecordRestriction | longstoryshort/__init__.py:519-731 | the older restriction check updates the lists as specified |
| LegacyPuppet.SockPuppet.RecordHop | longstoryshort/__init__.py:519-731 | the getter's result, None included, goes to the mode's list; the hop sleeps its interval |
| Status.ToDictRoundTrip | youtubeaudit/state.py:22-38 | `to_dict` loses nothing: it has an inverse both ways and keeps each progress pair |
| Status.Zeros | youtubeaudit/state.py:74-100 | the zeroed counter map has exactly the given keys |
| Status.Initial | youtubeaudit/state.py:74-100 | a new tracker is pending, error-free, with index -1, no current tasks and zero counters |
| Status.Started | youtubeaudit/state.py:123-135 | `start` sets running and the total, and changes nothing else |
| Status.Finished | youtubeaudit/state.py:137-142 | `complete` sets completed and changes nothing else |
| Status.FailedWith | youtubeaudit/state.py:144-156 | `fail` sets failed and the error, and changes nothing else |
| Status.WithCurrentTask | youtubeaudit/state.py:158-178 | the given task becomes the only current one, each sub-task as its `to_dict` record |
| Status.TaskProgressUpdate | youtubeaudit/state.py:180-217 | an unknown task or mode changes nothing; otherwise the record's phase is set and the progress pair of that phase, if it is "training" or "collection", is set, while its status, the other pair and every other record are kept |
| Status.TaskProgressFrame | youtubeaudit/state.py:180-217 | a progress update leaves the batch fields, health counters, collected-data counts and the set of current tasks as they were |
| Status.CompletedIncremented | youtubeaudit/state.py:219-223 | adds one to `completed_tasks` and nothing else |
| Status.FailedIncremented | youtubeaudit/state.py:225-229 | adds one to `failed_tasks` and nothing else |
| Status.AddTo | youtubeaudit/state.py:231-244 | adds to a known key only, keeping the key set |
| Status.HealthIncremented | youtubeaudit/state.py:231-244 | a known metric grows by the amount; an unknown metric changes nothing |
| Status.AddAllProperties | youtubeaudit/state.py:246-258 | each known counter grows by the sum of its keyword amounts; unknown keys are ignored |
| Status.DataAddedProperties | youtubeaudit/state.py:246-258 | `update_data_collected` touches only the data counters, as the sums say |
| Status.StatusTracker.constructor | youtubeaudit/state.py:55-100 | the tracker starts in the initial state |
| Status.StatusTracker.Start | youtubeaudit/state.py:123-135 | the new state is `start` of the old |
| Status.StatusTracker.Complete | youtubeaudit/state.py:137-142 | the new state is `complete` of the old |
| Status.StatusTracker.Fail | youtubeaudit/state.py:144-156 | the new state is `fail` of the old |
| Status.StatusTracker.UpdateCurrentTask | youtubeaudit/state.py:158-178 | the new state is the current-task update of the old |
| Status.StatusTracker.UpdateTaskProgress | youtubeaudit/state.py:180-217 | the new state is the progress update of the old |
| Status.StatusTracker.IncrementCompleted | youtubeaudit/state.py:219-223 | the new state has one more completed task |
| Status.StatusTracker.IncrementFailed | youtubeaudit/state.py:225-229 | the new state has one more failed task |
| Status.StatusTracker.IncrementHealth | youtubeaudit/state.py:231-244 | the new state has the metric incremented |
| Status.StatusTracker.UpdateDataCollected | youtubeaudit/state.py:246-258 | the loop over keywords gives the summed update |
| Status.StatusTracker.GetState | youtubeaudit/state.py:260-269 | returns the current state and changes nothing |
| Storage.MakeRecord | youtubeaudit/storage.py:81-102 | the record holds the id and result, and the metadata exactly when it is non-empty |
| Storage.SaveLoad | youtubeaudit/storage.py:81-123 | a saved result loads back, an unsaved id loads None, other ids are untouched, the last save wins |
| Storage.FileStorage.constructor | youtubeaudit/storage.py:70-79 | a new store holds the files already in its directory, which `exist_ok=True` keeps |
| Storage.FileStorage.Save | youtubeaudit/storage.py:81-102 | writes or overwrites exactly the given id's record |
| Storage.FileStorage.Load | youtubeaudit/storage.py:104-123 | the stored result, None exactly when there is no file |
| Storage.FileStorage.List | youtubeaudit/storage.py:125-133 | every saved id exactly once |
| Storage.CompositeStorage.constructor | youtubeaudit/storage.py:147-155 | keeps the backend list |
| Storage.CompositeStorage.Save | youtubeaudit/storage.py:157-170 | every backend receives the record |
| Storage.CompositeStorage.Load | youtubeaudit/storage.py:172-189 | the result of the first backend that has one; None exactly when none has |
| Storage.CompositeStorage.List | youtubeaudit/storage.py:191-201 | the ids of the first backend, or [] without backends |
| Config.PostInit | youtubeaudit/config.py:27-29 | an explicit seed is kept; a missing one becomes the last video id (None for no ids); re-running on a settled task changes nothing |
| Config.AddItemTasks | youtubeaudit/config.py:134-145 | appends the tasks of one pair item |
| Config.AddGroupTasks | youtubeaudit/config.py:133-145 | appends the tasks of one pair group |
| Config.TasksFromJson | youtubeaudit/config.py:131-145 | the loops build exactly the specified task list |
| Config.ItemShaped | youtubeaudit/config.py:134-145 | each task of an item has one video id, the id of its URL, as its own seed |
| Config.GroupShaped | youtubeaudit/config.py:133-145 | the same shape for every task of a group |
| Config.JsonTasksShaped | youtubeaudit/config.py:131-145 | the same shape for every task of the file |
| Config.ItemPaired | youtubeaudit/config.py:134-145 | a paired item gives its long task before its short task |
| Config.ItemModes | youtubeaudit/config.py:134-145 | the long tasks of a paired item are its "long" expansion, and likewise for short |
| Config.GroupModes | youtubeaudit/config.py:133-145 | the same for every group |
| Config.JsonModes | youtubeaudit/config.py:110-153 | "long" and "short" give exactly the long and the short tasks of "paired", in order |
| Config.TasksFromYaml | youtubeaudit/config.py:88-104 | the loop gives the specified tasks, or raises at the first bad entry |
| Config.AppendListTasks | youtubeaudit/config.py:88-104 | a list entry appends the tasks of its pairs, in order, to those before it |
| Config.YamlStaysRaised | youtubeaudit/config.py:88-104 | once an entry raises, the whole load raises |
| Config.YamlRoundTrip | youtubeaudit/config.py:155-184 | the records `to_yaml` writes load back as the same tasks |
| Config.LastIndex | youtubeaudit/config.py:148 | the last index of a character, None exactly when it is absent |
| Config.StemProperties | youtubeaudit/config.py:148 | the stem is the file name without its last suffix, with no "/" in it |
| Config.FromJson | youtubeaudit/config.py:110-153 | the configuration is named by the stem and has the expanded tasks and the defaults |
| Config.ExperimentDirProperties | youtubeaudit/config.py:186-194 | the directory is the output directory joined with the name, "experiments/" plus the name for a relative name under the defaults |
| Batch.DigitsValue | youtubeaudit/batch.py:107 | the decimal digits of n read back as n, with their length bounds |
| Batch.ZeroPadValue | youtubeaudit/batch.py:107 | zero padding keeps the value and reaches the width |
| Batch.TaskIdRoundTrip | youtubeaudit/batch.py:107 | `task_{idx:04d}` reads back as idx, is injective, starts "task_" and has 9 characters below 10000 |
| Batch.DistinctIds | youtubeaudit/batch.py:107 | different indexes give different task ids |
| Batch.ProgressKeepsCounters | youtubeaudit/batch.py:111-130 | progress callbacks keep every batch counter, every health counter except `restricted_videos`, and the data totals |
| Batch.ProgressCountsRestricted | youtubeaudit/batch.py:129-130 | the progress callbacks add one to `restricted_videos` per restricted-video event and keep the tracker well formed |
| Batch.AttemptCounters | youtubeaudit/batch.py:92-200 | an attempt adds one failure or one completion to the counters and health, or leaves the state alone when it aborts before registering |
| Batch.EndingCounters | youtubeaudit/batch.py:141-197 | a success counts one completed task and one successful run, a crash or failed phase one failed task and one failed run, a failed initialisation nothing |
| Batch.SuccessCounts | youtubeaudit/batch.py:177-186 | a success adds one completed task and one successful run, and adds `len(autoplay_rec)`, the total sidebar entries and the total preload entries to their data counters, leaving the total recommendations |
| Batch.RetryOutcomeProperties | youtubeaudit/batch.py:202-228 | the retry loop gives None exactly when every attempt gave None; otherwise the first attempt that did not |
| Batch.RetryOutcomeOf | youtubeaudit/batch.py:217-228 | the retry outcome does not depend on the status or events |
| Batch.RetryEffect | youtubeaudit/batch.py:202-228 | the counters move by the per-attempt failures, successes and retries |
| Batch.RetryCountsProperties | youtubeaudit/batch.py:202-228 | with or without the inner `CleanUp`: attempts are bounded by `max_retries`, at least one is made, retries are attempts minus one, and there is a result exactly when one attempt succeeded |
| Batch.DoubleCleanUpAborts | youtubeaudit/batch.py:160-200 | with the inner `CleanUp`, a failed training aborts the retries with the assertion error; without it the retry succeeds |
| Batch.FailedPhaseCleanUps | youtubeaudit/batch.py:158-200 | on an initialized auditor, the `CleanUp(kill=True)` inside the `try` returns and the one in `finally` raises, leaving the auditor uninitialized |
| Batch.DoubleCleanUpLosesResult | youtubeaudit/batch.py:160-276 | as written, the task whose first training fails saves nothing and `run` emits `task_failed` with the assertion message; the corrected runner saves the second attempt's report |
| Batch.WavesPartition | youtubeaudit/batch.py:244-252 | waves cover the tasks in order, consecutive, bounded by `threads`, all but the last full |
| Batch.WaveUpToThenFrom | youtubeaudit/batch.py:262-271 | running a wave's first tasks one by one and then the remaining tasks is running the whole wave |
| Batch.WaveKeepsSleeps | youtubeaudit/batch.py:244-271 | a wave itself does not sleep |
| Batch.WavesSleep | youtubeaudit/batch.py:279-283 | one sleep between consecutive waves, each within the configured range |
| Batch.RandInt | youtubeaudit/batch.py:280 | the drawn length lies in the inclusive range, and every value of the range can be drawn |
| Batch.SleepInRange | youtubeaudit/batch.py:278-283 | with a valid non-negative range the sleep returns, keeps the files and tracker, and sleeps once within the range |
| Batch.TaskStepFiles | youtubeaudit/batch.py:262-271 | for the code as written and the corrected attempt alike, a task saves a file under its padded id exactly when its retry loop returns a result |
| Batch.SavesProperties | youtubeaudit/batch.py:262-271 | for any per-task results, those of either clean-up setting included, exactly the tasks with a result are saved, each under its own id with its report, and no other id |
| Batch.WaveSaves | youtubeaudit/batch.py:262-271 | for either clean-up setting, a wave adds the saves of its tasks |
| Batch.WavesSave | youtubeaudit/batch.py:244-271 | for either clean-up setting, the waves add the saves of all their tasks |
| Batch.SavesSplit | youtubeaudit/batch.py:262-271 | the saves of a range split at any point |
| Batch.RunProperties | youtubeaudit/batch.py:230-288 | for either clean-up setting, the run completes, saves exactly the tasks whose retry loop returned a result, and sleeps between waves within range |
| Batch.BeforeOrder | youtubeaudit/batch.py:299 | Python's string comparison is a strict total order |
| Batch.InsertProperties | youtubeaudit/batch.py:299 | insertion keeps a list sorted and adds exactly one element |
| Batch.InsertFront | youtubeaudit/batch.py:299 | an element below the head is inserted in front |
| Batch.InsertLater | youtubeaudit/batch.py:299 | an element above the head is inserted after it |
| Batch.SortIdsProperties | youtubeaudit/batch.py:299 | `sorted` gives an ascending permutation of distinct ids |
| Batch.SortedKeys | youtubeaudit/batch.py:297 | the ascending list of a set of ids holds each of them exactly once |
| Batch.AscendingUnique | youtubeaudit/batch.py:297 | two ascending lists of the same ids are equal, so `sorted` of the listed ids is `SortedKeys` of the stored ones |
| Batch.BatchRunner.constructor | youtubeaudit/batch.py:43-72 | a new runner has an initial tracker, a store holding the files of earlier runs, and no events |
| Batch.BatchRunner.Emit | youtubeaudit/batch.py:74-90 | appends one event |
| Batch.BatchRunner.OnProgressCallback | youtubeaudit/batch.py:111-130 | the tracker takes the progress update |
| Batch.BatchRunner.ExecuteTask | youtubeaudit/batch.py:92-200 | outcome, state and events are those of one attempt; as written, a failed phase ends in the exception of the second `CleanUp`, and in the corrected runner it returns None |
| Batch.BatchRunner.ReplayProgress | youtubeaudit/batch.py:111-130 | the tracker afterwards is the one the progress callbacks of the attempt specify |
| Batch.BatchRunner.RecordEnding | youtubeaudit/batch.py:158-197 | the tracker, events and result after the attempt ends: a report on success with `task_completed`, and `task_failed` on an exception; a failed phase emits nothing and returns None, or, as written, the exception of the second `CleanUp`; no sleep |
| Batch.BatchRunner.ExecuteTaskWithRetry | youtubeaudit/batch.py:202-228 | outcome, state and events are those of the retry specification |
| Batch.BatchRunner.RunTask | youtubeaudit/batch.py:255-271 | one task is retried and its result saved as specified; an exception that escapes the retry loop emits `task_failed` and saves nothing |
| Batch.BatchRunner.RunWave | youtubeaudit/batch.py:244-271 | the tasks of one wave run in submission order as the wave specification says |
| Batch.BatchRunner.RunWaves | youtubeaudit/batch.py:244-283 | the result and world after all waves and sleeps are those of the waves specification |
| Batch.BatchRunner.RunWaveAndPause | youtubeaudit/batch.py:244-283 | one pass of the wave loop: a raising sleep ends the waves with its exception, otherwise the waves go on from the next start as specified |
| Batch.BatchRunner.Pause | youtubeaudit/batch.py:279-283 | the sleep between waves, as specified |
| Batch.BatchRunner.Run | youtubeaudit/batch.py:230-288 | result and final world are those of the run specification |
| Batch.BatchRunner.GetResults | youtubeaudit/batch.py:290-303 | the results are the stored reports taken in the order of `SortedKeys` of the stored ids: one per file, ascending by task id |
| Batch.BatchRunner.LoadAll | youtubeaudit/batch.py:299-302 | one loaded result per listed id, each the result stored under that id |

## Left out

- Browser automation: the Selenium driver, page elements, keys and tabs are inputs that say what happened at each step, not a browser.
- `configure_browser` of longstoryshort/core.py: its options only shape the driver; its precondition is not modelled.
- Auditor.YouTubeAuditor.InitDriver: the webdriver constructor raising is not modelled; the driver is taken to start.
- Exceptions other than a timeout in the element waits are not modelled separately; each wait either succeeds or times out.
- WatchTime: NaN and infinite durations are not modelled, because Python's float specials do not fit `real`.
- WatchTime.FractionInterval: `video_len * max_duration` is an exact `real` here; Python rounds the float product before `int()`, so for a length of 100 and a fraction of 0.29 Python gets 28 where the model gets 29. The same holds for WatchTime.Portion, WatchTime.WaitTime, WatchTime.HopWait and the watch and hop sleeps of both auditors.
- Common.Lower: ASCII only. Python's `lower()` also lowers other letters, and some of them (such as 'İ') become two code points. The sign-in test compares with "sign in", so it gives the same answer either way on the ASCII letters it looks for.
- LegacyPuppet.SockPuppet.constructor: with `adblock=True`, `os.path.join(os.path.dirname(__file__), True)` raises a TypeError (longstoryshort/__init__.py:44-50); here construction always succeeds.
- The fixed one- and two-second sleeps between retries and after key presses: only the watch intervals and the batch's between-wave sleeps are listed in `slept`.
- `LogIn`, `log_in`, `HelloWorld`, `__del__` and `__exit__`: outside the audit's observable results.
- Tab juggling in `CleanUp` (closing extra windows, clearing history): modelled only through its outcome (`historyFailed`).
- Status.StatusTracker.GetState: the shallow copy of the Python dictionary, and so its aliasing, is not modelled; the state is a value.
- The tracker's lock, `status.json` writes, timestamps and logging: not modelled. `load_existing` is left out because it only reads a file back.
- `FirebaseStorageExample` (storage.py:205-280): an example with an external service; not modelled.
- experiment_main.py, the command-line entry point: not modelled.
- Batch.BatchRunner.Run: the thread pool and `as_completed` are modelled sequentially; each wave runs its tasks in submission order and saves each result right after its task.
- Batch.BatchRunner: only the default `FileStorage` is wired in, not a `CompositeStorage`.
- Batch.BatchRunner.OnProgressCallback: progress events are taken to arrive after `update_current_task` registered the task.
- Config.Stem and Config.JoinPath: pathlib's normalisation (trailing slashes, "..", repeated "/") is not modelled.
- Config.JsonTasks: the `'long' in item` test on a non-dictionary item is not modelled; items are pairs of optional URLs.
- Config.FromKwArgs: `ExperimentTask(**task_data)` (config.py:91) is modelled for the three fields and "an unknown key"; the dataclass's run-time type checks are not modelled.
- Reading YAML and JSON files, and `create_experiment_dir` (config.py:196-198): file I/O, not modelled; the parsed contents are inputs.

## Findings

| source | as written | input that shows it | evidently intended | confidence | as-written member | corrected member |
|---|---|---|---|---|---|---|
| youtubeaudit/batch.py:160-200 | a failed `Train` or `Run` calls `CleanUp()` and returns, and then the `finally` clause calls `CleanUp()` again, whose `assert self.initialized` raises out of `_execute_task` and so out of the retry loop | first attempt's training fails, second attempt succeeds, `max_retries` 3 | the failure is retried and the second attempt's report is returned | not executed | Batch.DoubleCleanUpAborts | Batch.BatchRunner.ExecuteTask |
| longstoryshort/core.py:687 | `GetPreloadRec` calls `_prefix_short_url`, which that module does not define; the `NameError` is caught by the retry loop | any page with shorts containers | the shorts URLs of the containers | not executed | Scrape.UnresolvedPreloadIsEmpty | Scrape.PreloadResultProperties |
| longstoryshort/__init__.py:500 | `__prefix` inside the class body is mangled to `_SockPuppet__prefix`, which does not exist, so every attempt fails | any page with shorts containers | the shorts URLs of the containers | not executed | Scrape.LegacyPreloadProperties | Scrape.LegacyPrefixAgrees |
| longstoryshort/__init__.py:129-130 | without an ad blocker `InitDriver` returns False without setting `initialized`, so `Train` and `Run` then fail their assertion | `adblock` False, window appears | the puppet is initialized whenever it returns False | not executed | LegacyPuppet.SockPuppet.InitDriver | Auditor.YouTubeAuditor.InitDriver |
