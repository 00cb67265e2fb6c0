/** Experiment configuration (youtubeaudit/config.py): the task record with its
    `seed_id` default, the expansion of the JSON and YAML task lists into single-video
    tasks, the records `to_yaml` writes, and the experiment directory. The parsed
    contents of a file are the input; reading and writing files is not modelled. */
module Config {
  import opened Common
  import opened WatchTime

  /** `ExperimentTask`; the dataclass does not check `mode`, so it is any string. */
  datatype ExperimentTask = ExperimentTask(videoIds: seq<string>, mode: string, seedId: Option<string>)

  /** The constructor with `__post_init__`: a missing `seed_id` becomes the last video id. */
  function NewTask(videoIds: seq<string>, mode: string, seedId: Option<string>): ExperimentTask
  {
    if seedId.None? && videoIds != [] then ExperimentTask(videoIds, mode, Some(videoIds[|videoIds| - 1]))
    else ExperimentTask(videoIds, mode, seedId)
  }

  /** A task as the constructor leaves it. */
  predicate Settled(t: ExperimentTask)
  {
    t.seedId.Some? || t.videoIds == []
  }

  /** An explicit `seed_id` is kept, a missing one becomes the last video id, and with no
      video ids it stays None. The ids and the mode are never touched, every constructed
      task is settled, and constructing a settled task again changes nothing. */
  lemma PostInit(videoIds: seq<string>, mode: string, seedId: Option<string>, t: ExperimentTask)
    ensures var r := NewTask(videoIds, mode, seedId);
      && r.videoIds == videoIds && r.mode == mode
      && (seedId.Some? ==> r.seedId == seedId)
      && (seedId.None? && videoIds != [] ==> r.seedId == Some(videoIds[|videoIds| - 1]))
      && (seedId.None? && videoIds == [] ==> r.seedId.None?)
      && Settled(r)
    ensures Settled(t) ==> NewTask(t.videoIds, t.mode, t.seedId) == t
  {
  }

  /** One entry of a legacy pair group: the `long` and `short` keys, when present. */
  datatype PairItem = PairItem(long: Option<string>, short: Option<string>)

  /** `mode in ["paired", "long"]` and `mode in ["paired", "short"]` of `from_json`. */
  predicate WantsLong(mode: string) { mode == "paired" || mode == "long" }
  predicate WantsShort(mode: string) { mode == "paired" || mode == "short" }

  /** The id at the end of a URL: `url.split('/')[-1]`. */
  function UrlId(url: string): string
  {
    LastPiece(url, "/")
  }

  /** The tasks `from_json` makes of one item: the long task, then the short task. */
  function JsonItemTasks(item: PairItem, mode: string): seq<ExperimentTask>
  {
    (if WantsLong(mode) && item.long.Some? then [NewTask([UrlId(item.long.value)], "long", None)] else [])
    + (if WantsShort(mode) && item.short.Some? then [NewTask([UrlId(item.short.value)], "short", None)] else [])
  }

  /** The tasks of a list of items, in order. */
  function JsonGroupTasks(items: seq<PairItem>, mode: string): seq<ExperimentTask>
    decreases |items|
  {
    if items == [] then []
    else JsonGroupTasks(items[..|items| - 1], mode) + JsonItemTasks(items[|items| - 1], mode)
  }

  /** The tasks of every pair group, in order. */
  function JsonTasks(pairs: seq<seq<PairItem>>, mode: string): seq<ExperimentTask>
    decreases |pairs|
  {
    if pairs == [] then []
    else JsonTasks(pairs[..|pairs| - 1], mode) + JsonGroupTasks(pairs[|pairs| - 1], mode)
  }

  /** The body of the inner loop of `from_json`: one item's long task, then its short task. */
  method AddItemTasks(before: seq<ExperimentTask>, item: PairItem, mode: string)
    returns (tasks: seq<ExperimentTask>)
    ensures tasks == before + JsonItemTasks(item, mode)
  {
    tasks := before;
    if WantsLong(mode) && item.long.Some? {
      tasks := tasks + [NewTask([UrlId(item.long.value)], "long", None)];
    }
    if WantsShort(mode) && item.short.Some? {
      tasks := tasks + [NewTask([UrlId(item.short.value)], "short", None)];
    }
  }

  /** The inner loop of `from_json` over the items of one group. */
  method AddGroupTasks(before: seq<ExperimentTask>, group: seq<PairItem>, mode: string)
    returns (tasks: seq<ExperimentTask>)
    ensures tasks == before + JsonGroupTasks(group, mode)
  {
    tasks := before;
    var k := 0;
    while k < |group|
      invariant 0 <= k <= |group|
      invariant tasks == before + JsonGroupTasks(group[..k], mode)
    {
      var item := group[k];
      tasks := AddItemTasks(tasks, item, mode);
      assert group[..k + 1][..k] == group[..k];
      assert JsonGroupTasks(group[..k + 1], mode) == JsonGroupTasks(group[..k], mode) + JsonItemTasks(item, mode);
      k := k + 1;
    }
    assert group[..k] == group;
  }

  /** The task loop of `from_json`. */
  method TasksFromJson(pairs: seq<seq<PairItem>>, mode: string) returns (tasks: seq<ExperimentTask>)
    ensures tasks == JsonTasks(pairs, mode)
  {
    tasks := [];
    var g := 0;
    while g < |pairs|
      invariant 0 <= g <= |pairs|
      invariant tasks == JsonTasks(pairs[..g], mode)
    {
      tasks := AddGroupTasks(tasks, pairs[g], mode);
      assert pairs[..g + 1][..g] == pairs[..g];
      g := g + 1;
    }
    assert pairs[..g] == pairs;
  }

  /** A task `from_json` builds. */
  predicate JsonShaped(t: ExperimentTask, mode: string)
  {
    && |t.videoIds| == 1 && !Contains(t.videoIds[0], "/") && t.seedId == Some(t.videoIds[0])
    && (t.mode == "long" || t.mode == "short")
    && (t.mode == "long" ==> WantsLong(mode))
    && (t.mode == "short" ==> WantsShort(mode))
  }

  lemma ItemShaped(item: PairItem, mode: string)
    ensures forall t | t in JsonItemTasks(item, mode) :: JsonShaped(t, mode)
  {
    if item.long.Some? {
      LastPieceProperties(item.long.value, "/");
    }
    if item.short.Some? {
      LastPieceProperties(item.short.value, "/");
    }
  }

  lemma {:induction false} GroupShaped(items: seq<PairItem>, mode: string)
    ensures forall t | t in JsonGroupTasks(items, mode) :: JsonShaped(t, mode)
    decreases |items|
  {
    if items != [] {
      GroupShaped(items[..|items| - 1], mode);
      ItemShaped(items[|items| - 1], mode);
    }
  }

  /** Every task `from_json` makes has exactly one video id with no '/' in it, that id as
      its seed, and a mode the `mode` argument asked for. */
  lemma {:induction false} JsonTasksShaped(pairs: seq<seq<PairItem>>, mode: string)
    ensures forall t | t in JsonTasks(pairs, mode) :: JsonShaped(t, mode)
    decreases |pairs|
  {
    if pairs != [] {
      JsonTasksShaped(pairs[..|pairs| - 1], mode);
      GroupShaped(pairs[|pairs| - 1], mode);
    }
  }

  /** The tasks of one mode, in order. */
  function OfMode(ts: seq<ExperimentTask>, m: string): seq<ExperimentTask>
    decreases |ts|
  {
    if ts == [] then []
    else OfMode(ts[..|ts| - 1], m) + (if ts[|ts| - 1].mode == m then [ts[|ts| - 1]] else [])
  }

  lemma {:induction false} OfModeAppend(a: seq<ExperimentTask>, b: seq<ExperimentTask>, m: string)
    ensures OfMode(a + b, m) == OfMode(a, m) + OfMode(b, m)
    decreases |b|
  {
    if b == [] {
      assert a + b == a;
    } else {
      assert (a + b)[..|a + b| - 1] == a + b[..|b| - 1];
      OfModeAppend(a, b[..|b| - 1], m);
    }
  }

  lemma OfModeSingle(t: ExperimentTask, m: string)
    ensures OfMode([t], m) == if t.mode == m then [t] else []
  {
    assert [t][..0] == [];
  }

  /** Of at most one task of mode `tm`, mode `m` keeps it exactly when `m == tm`. */
  lemma OfModeSmall(ts: seq<ExperimentTask>, tm: string, m: string)
    requires |ts| <= 1 && forall t | t in ts :: t.mode == tm
    ensures OfMode(ts, m) == if tm == m then ts else []
  {
    if |ts| == 1 {
      assert ts == [ts[0]];
      OfModeSingle(ts[0], m);
    }
  }

  /** Within one item, "paired" gives the long task and then the short task. */
  lemma ItemPaired(item: PairItem)
    ensures JsonItemTasks(item, "paired") == JsonItemTasks(item, "long") + JsonItemTasks(item, "short")
    ensures |JsonItemTasks(item, "long")| <= 1 && forall t | t in JsonItemTasks(item, "long") :: t.mode == "long"
    ensures |JsonItemTasks(item, "short")| <= 1 && forall t | t in JsonItemTasks(item, "short") :: t.mode == "short"
  {
  }

  lemma ItemModes(item: PairItem)
    ensures OfMode(JsonItemTasks(item, "paired"), "long") == JsonItemTasks(item, "long")
    ensures OfMode(JsonItemTasks(item, "paired"), "short") == JsonItemTasks(item, "short")
  {
    var l := JsonItemTasks(item, "long");
    var s := JsonItemTasks(item, "short");
    ItemPaired(item);
    OfModeAppend(l, s, "long");
    OfModeAppend(l, s, "short");
    OfModeSmall(l, "long", "long");
    OfModeSmall(l, "long", "short");
    OfModeSmall(s, "short", "long");
    OfModeSmall(s, "short", "short");
  }

  lemma {:induction false} GroupModes(items: seq<PairItem>)
    ensures OfMode(JsonGroupTasks(items, "paired"), "long") == JsonGroupTasks(items, "long")
    ensures OfMode(JsonGroupTasks(items, "paired"), "short") == JsonGroupTasks(items, "short")
    decreases |items|
  {
    if items != [] {
      var init := items[..|items| - 1];
      var last := items[|items| - 1];
      GroupModes(init);
      ItemModes(last);
      OfModeAppend(JsonGroupTasks(init, "paired"), JsonItemTasks(last, "paired"), "long");
      OfModeAppend(JsonGroupTasks(init, "paired"), JsonItemTasks(last, "paired"), "short");
    }
  }

  /** `"long"` yields exactly the long tasks of `"paired"`, in the same order, and
      `"short"` exactly its short tasks. */
  lemma {:induction false} JsonModes(pairs: seq<seq<PairItem>>)
    ensures OfMode(JsonTasks(pairs, "paired"), "long") == JsonTasks(pairs, "long")
    ensures OfMode(JsonTasks(pairs, "paired"), "short") == JsonTasks(pairs, "short")
    decreases |pairs|
  {
    if pairs != [] {
      var init := pairs[..|pairs| - 1];
      var last := pairs[|pairs| - 1];
      JsonModes(init);
      GroupModes(last);
      OfModeAppend(JsonTasks(init, "paired"), JsonGroupTasks(last, "paired"), "long");
      OfModeAppend(JsonTasks(init, "paired"), JsonGroupTasks(last, "paired"), "short");
    }
  }

  /** The keyword arguments of `ExperimentTask(**entry)` for a YAML dictionary entry:
      each field given or not (`seed_id` may be given as None), and whether some other
      key is present. */
  datatype KwArgs = KwArgs(videoIds: Option<seq<string>>, mode: Option<string>,
                           seedId: Option<Option<string>>, unknownKey: bool)

  /** `ExperimentTask(**args)`: a missing required field or an unknown key is a TypeError. */
  function FromKwArgs(a: KwArgs): Call<ExperimentTask>
  {
    if a.videoIds.None? || a.mode.None? || a.unknownKey then Raised
    else Returned(NewTask(a.videoIds.value, a.mode.value, Default(a.seedId, None)))
  }

  /** An entry of the YAML `tasks` list. */
  datatype YamlEntry = DictEntry(args: KwArgs) | ListEntry(items: seq<PairItem>) | OtherEntry

  /** The tasks of a legacy list entry: for each item its long task, then its short task,
      with the ids as written. */
  function YamlListTasks(items: seq<PairItem>): seq<ExperimentTask>
    decreases |items|
  {
    if items == [] then []
    else
      var item := items[|items| - 1];
      YamlListTasks(items[..|items| - 1])
      + (if item.long.Some? then [NewTask([item.long.value], "long", None)] else [])
      + (if item.short.Some? then [NewTask([item.short.value], "short", None)] else [])
  }

  /** The task loop of `from_yaml`; the first entry that raises ends it. */
  function YamlTasks(entries: seq<YamlEntry>): Call<seq<ExperimentTask>>
    decreases |entries|
  {
    if entries == [] then Returned([])
    else
      match YamlTasks(entries[..|entries| - 1])
      case Raised => Raised
      case Returned(ts) =>
        match entries[|entries| - 1]
        case DictEntry(a) => (match FromKwArgs(a) case Raised => Raised case Returned(t) => Returned(ts + [t]))
        case ListEntry(items) => Returned(ts + YamlListTasks(items))
        case OtherEntry => Returned(ts)
  }

  /** The inner loop over a legacy list entry: each item's long task, then its short task. */
  method AppendListTasks(tasks: seq<ExperimentTask>, items: seq<PairItem>) returns (out: seq<ExperimentTask>)
    ensures out == tasks + YamlListTasks(items)
  {
    out := tasks;
    var k := 0;
    while k < |items|
      invariant 0 <= k <= |items|
      invariant out == tasks + YamlListTasks(items[..k])
    {
      assert items[..k + 1][..k] == items[..k];
      if items[k].long.Some? {
        out := out + [NewTask([items[k].long.value], "long", None)];
      }
      if items[k].short.Some? {
        out := out + [NewTask([items[k].short.value], "short", None)];
      }
      k := k + 1;
    }
    assert items[..k] == items;
  }

  method TasksFromYaml(entries: seq<YamlEntry>) returns (r: Call<seq<ExperimentTask>>)
    ensures r == YamlTasks(entries)
  {
    var tasks: seq<ExperimentTask> := [];
    var e := 0;
    while e < |entries|
      invariant 0 <= e <= |entries|
      invariant YamlTasks(entries[..e]) == Returned(tasks)
    {
      assert entries[..e + 1][..e] == entries[..e];
      match entries[e] {
      case DictEntry(a) =>
        var t := FromKwArgs(a);
        if t.Raised? {
          assert YamlTasks(entries[..e + 1]) == Raised;
          YamlStaysRaised(entries, e + 1);
          assert entries[..|entries|] == entries;
          return Raised;
        }
        tasks := tasks + [t.value];
      case ListEntry(items) =>
        tasks := AppendListTasks(tasks, items);
      case OtherEntry =>
      }
      e := e + 1;
    }
    assert entries[..e] == entries;
    return Returned(tasks);
  }

  /** Once an entry raised, no later entry can undo it. */
  lemma {:induction false} YamlStaysRaised(entries: seq<YamlEntry>, e: nat)
    requires e <= |entries| && YamlTasks(entries[..e]).Raised?
    ensures YamlTasks(entries[..|entries|]).Raised?
    decreases |entries| - e
  {
    if e < |entries| {
      assert entries[..e + 1][..e] == entries[..e];
      YamlStaysRaised(entries, e + 1);
    }
  }

  /** The record `to_yaml` writes for a task. */
  function ToRecord(t: ExperimentTask): KwArgs
  {
    KwArgs(Some(t.videoIds), Some(t.mode), Some(t.seedId), false)
  }

  /** The task records `to_yaml` writes give back the same tasks when `from_yaml` reads
      them as dictionary entries. */
  lemma {:induction false} YamlRoundTrip(ts: seq<ExperimentTask>)
    requires forall k | 0 <= k < |ts| :: Settled(ts[k])
    ensures YamlTasks(seq(|ts|, k requires 0 <= k < |ts| => DictEntry(ToRecord(ts[k])))) == Returned(ts)
    decreases |ts|
  {
    var entries := seq(|ts|, k requires 0 <= k < |ts| => DictEntry(ToRecord(ts[k])));
    if ts != [] {
      var init := ts[..|ts| - 1];
      YamlRoundTrip(init);
      assert entries[..|entries| - 1] == seq(|init|, k requires 0 <= k < |init| => DictEntry(ToRecord(init[k])));
      PostInit(ts[|ts| - 1].videoIds, ts[|ts| - 1].mode, ts[|ts| - 1].seedId, ts[|ts| - 1]);
      assert init + [ts[|ts| - 1]] == ts;
    }
  }

  /** `ExperimentConfig`; `adblock` is its truthiness. */
  datatype ExperimentConfig = ExperimentConfig(
    name: string, tasks: seq<ExperimentTask>, watchTime: Budget, hops: int, threads: int,
    sleepRange: (int, int), headless: bool, adblock: bool, incognito: bool, outputDir: string)

  /** A configuration with every field left at its default. */
  function WithDefaults(name: string, tasks: seq<ExperimentTask>): ExperimentConfig
  {
    ExperimentConfig(name, tasks, Seconds(10), 15, 2, (300, 900), true, false, false, "experiments")
  }

  /** The last index of `c` in `s`, as `s.rfind(c)` when it is not -1. */
  function LastIndex(s: string, c: char): (r: Option<nat>)
    ensures r.Some? ==> r.value < |s| && s[r.value] == c && forall j | r.value < j < |s| :: s[j] != c
    ensures r.None? ==> forall j | 0 <= j < |s| :: s[j] != c
  {
    if s == [] then None
    else if s[|s| - 1] == c then Some(|s| - 1)
    else LastIndex(s[..|s| - 1], c)
  }

  /** `Path(path).stem`: the last path component without its last suffix; a leading dot
      or a trailing dot is not a suffix. */
  function Stem(path: string): (r: string)
  {
    var name := LastPiece(path, "/");
    var i := LastIndex(name, '.');
    if i.Some? && 0 < i.value < |name| - 1 then name[..i.value] else name
  }

  /** The stem is a prefix of the file name with no '/', and whatever it drops is a single
      suffix: a dot followed by at least one character that are not dots. */
  lemma StemProperties(path: string)
    ensures var name := LastPiece(path, "/");
      var r := Stem(path);
      && r == name[..|r|] && !Contains(r, "/")
      && (|r| < |name| ==>
            && 0 < |r| && name[|r|] == '.' && |name| - |r| >= 2
            && forall j | |r| < j < |name| :: name[j] != '.')
  {
    var name := LastPiece(path, "/");
    LastPieceProperties(path, "/");
    var i := LastIndex(name, '.');
    if i.Some? && 0 < i.value < |name| - 1 {
      assert Stem(path) == name[..i.value];
      PrefixKeepsAbsent(name, "/", i.value);
    } else {
      assert Stem(path) == name;
      assert name[..|name|] == name;
    }
  }

  /** `from_json`: the configuration named after the file, with the expanded tasks and
      every other field at its default. */
  method FromJson(path: string, pairs: seq<seq<PairItem>>, mode: string) returns (cfg: ExperimentConfig)
    ensures cfg == WithDefaults(Stem(path), JsonTasks(pairs, mode))
  {
    var tasks := TasksFromJson(pairs, mode);
    cfg := WithDefaults(Stem(path), tasks);
  }

  /** `Path(output_dir) / name` for a relative name: joined with one '/', and the name
      alone when the directory is empty or "."; an absolute name replaces the directory. */
  function JoinPath(dir: string, name: string): string
  {
    if |name| > 0 && name[0] == '/' then name
    else if dir == "" || dir == "." then name
    else if dir[|dir| - 1] == '/' then dir + name
    else dir + "/" + name
  }

  /** `get_experiment_dir`. */
  function ExperimentDir(cfg: ExperimentConfig): string
  {
    JoinPath(cfg.outputDir, cfg.name)
  }

  /** The experiment directory always ends with the experiment's name, directly after a
      '/' unless the name stands alone; for the default output directory it is
      "experiments/" followed by the name. */
  lemma ExperimentDirProperties(cfg: ExperimentConfig, name: string, tasks: seq<ExperimentTask>)
    ensures var d := ExperimentDir(cfg);
      && |cfg.name| <= |d| && d[|d| - |cfg.name|..] == cfg.name
      && (|d| > |cfg.name| ==> d[|d| - |cfg.name| - 1] == '/')
    ensures !(|name| > 0 && name[0] == '/') ==> ExperimentDir(WithDefaults(name, tasks)) == "experiments/" + name
  {
    var d := ExperimentDir(cfg);
    if |d| > |cfg.name| {
      if cfg.outputDir[|cfg.outputDir| - 1] == '/' {
        assert d == cfg.outputDir + cfg.name;
      } else {
        assert d == cfg.outputDir + "/" + cfg.name;
      }
    }
  }
}
