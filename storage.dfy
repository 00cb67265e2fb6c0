/** The result stores of youtubeaudit/storage.py. `FileStorage` keeps one JSON file per
    task id; here its directory is a map from task id to the saved record.
    `CompositeStorage` fans out to a list of file stores. */
module Storage {
  import opened Common

  /** The JSON object a file holds: the task id, the result, and the metadata when the
      caller gave a non-empty dictionary. */
  datatype SavedRecord<T, M> = SavedRecord(taskId: string, result: T, metadata: Option<map<string, M>>)

  /** The record `save_result` builds: `metadata` is added only when it is truthy. */
  function MakeRecord<T, M>(taskId: string, result: T, metadata: Option<map<string, M>>): (r: SavedRecord<T, M>)
    ensures r.taskId == taskId && r.result == result
    ensures r.metadata.Some? <==> metadata.Some? && |metadata.value| > 0
    ensures r.metadata.Some? ==> r.metadata == metadata
  {
    SavedRecord(taskId, result, if metadata.Some? && |metadata.value| > 0 then metadata else None)
  }

  /** What `load_result` finds in a directory. */
  function Lookup<T, M>(files: map<string, SavedRecord<T, M>>, taskId: string): Option<T>
  {
    if taskId in files then Some(files[taskId].result) else None
  }

  /** A saved result loads back; an id never saved loads as None; saving one id leaves every
      other id as it was; and of two saves of the same id the last one wins. */
  lemma SaveLoad<T, M>(files: map<string, SavedRecord<T, M>>, taskId: string, other: string,
                       result: T, metadata: Option<map<string, M>>, later: T, laterMeta: Option<map<string, M>>)
    ensures Lookup(files[taskId := MakeRecord(taskId, result, metadata)], taskId) == Some(result)
    ensures taskId !in files ==> Lookup(files, taskId).None?
    ensures other != taskId ==>
      Lookup(files[taskId := MakeRecord(taskId, result, metadata)], other) == Lookup(files, other)
    ensures files[taskId := MakeRecord(taskId, result, metadata)][taskId := MakeRecord(taskId, later, laterMeta)]
         == files[taskId := MakeRecord(taskId, later, laterMeta)]
  {
  }

  /** `FileStorage`. */
  class FileStorage<T, M> {
    var files: map<string, SavedRecord<T, M>>

    /** A store over a directory that already holds `existing` (`mkdir` with
        `exist_ok=True` keeps the files of earlier runs). */
    constructor (existing: map<string, SavedRecord<T, M>>)
      ensures files == existing
    {
      files := existing;
    }

    /** `save_result`: writes (or overwrites) the file of `taskId`. */
    method Save(taskId: string, result: T, metadata: Option<map<string, M>>)
      modifies this
      ensures files == old(files)[taskId := MakeRecord(taskId, result, metadata)]
    {
      files := files[taskId := MakeRecord(taskId, result, metadata)];
    }

    /** `load_result`: the stored result, or None when there is no file. */
    method Load(taskId: string) returns (r: Option<T>)
      ensures r.Some? <==> taskId in files
      ensures r.Some? ==> r.value == files[taskId].result
    {
      if taskId in files {
        return Some(files[taskId].result);
      }
      return None;
    }

    /** `list_results`: every saved id once, in the order the directory listing gives
        (chosen arbitrarily here). */
    method List() returns (ids: seq<string>)
      ensures forall k | 0 <= k < |ids| :: ids[k] in files
      ensures forall id | id in files :: id in ids
      ensures forall j, k | 0 <= j < k < |ids| :: ids[j] != ids[k]
    {
      ids := [];
      var left := files.Keys;
      while left != {}
        invariant left <= files.Keys
        invariant forall k | 0 <= k < |ids| :: ids[k] in files && ids[k] !in left
        invariant forall id | id in files :: id in ids || id in left
        invariant forall j, k | 0 <= j < k < |ids| :: ids[j] != ids[k]
        decreases left
      {
        var id :| id in left;
        ids := ids + [id];
        left := left - {id};
      }
    }
  }

  /** `CompositeStorage` over a list of file stores (the same store may appear twice). */
  class CompositeStorage<T, M> {
    const backends: seq<FileStorage<T, M>>

    constructor (backends: seq<FileStorage<T, M>>)
      ensures this.backends == backends
    {
      this.backends := backends;
    }

    /** `save_result` writes the record to every backend in list order; a backend listed
        twice receives the same record twice. */
    method Save(taskId: string, result: T, metadata: Option<map<string, M>>)
      modifies set b | b in backends
      ensures forall k | 0 <= k < |backends| ::
        backends[k].files == old(backends[k].files)[taskId := MakeRecord(taskId, result, metadata)]
    {
      var rec := MakeRecord(taskId, result, metadata);
      var i := 0;
      while i < |backends|
        invariant 0 <= i <= |backends|
        invariant forall k | 0 <= k < |backends| ::
          backends[k].files == if backends[k] in backends[..i] then old(backends[k].files)[taskId := rec]
                               else old(backends[k].files)
      {
        backends[i].Save(taskId, result, metadata);
        assert backends[..i + 1] == backends[..i] + [backends[i]];
        i := i + 1;
      }
    }

    /** `load_result`: the result of the first backend that has one, or None. */
    method Load(taskId: string) returns (r: Option<T>)
      ensures r.None? <==> forall k | 0 <= k < |backends| :: taskId !in backends[k].files
      ensures r.Some? ==> exists k | 0 <= k < |backends| ::
        (&& taskId in backends[k].files && r.value == backends[k].files[taskId].result
         && forall j | 0 <= j < k :: taskId !in backends[j].files)
    {
      var i := 0;
      while i < |backends|
        invariant 0 <= i <= |backends|
        invariant forall j | 0 <= j < i :: taskId !in backends[j].files
      {
        var found := backends[i].Load(taskId);
        if found.Some? {
          return found;
        }
        i := i + 1;
      }
      return None;
    }

    /** `list_results` asks only the first backend, and gives [] without backends. */
    method List() returns (ids: seq<string>)
      ensures backends == [] ==> ids == []
      ensures backends != [] ==>
        && (forall k | 0 <= k < |ids| :: ids[k] in backends[0].files)
        && (forall id | id in backends[0].files :: id in ids)
        && (forall j, k | 0 <= j < k < |ids| :: ids[j] != ids[k])
    {
      if |backends| > 0 {
        ids := backends[0].List();
      } else {
        ids := [];
      }
    }
  }
}
