/** `SockPuppet` of longstoryshort/__init__.py, the older copy of the auditor. It
    emits no progress events, its `watch` returns None instead of False, its getters
    fall off their loops with None, its `Run` has no return at the end, and the handler
    of its restriction check reads the last seed. */
module LegacyPuppet {
  import opened Common
  import opened WatchTime
  import opened Scrape
  import opened Session

  /** The four lists of the older copy: a getter that gave up appends None. */
  datatype LegacyCollections = LegacyCollections(path: seq<string>, sidebars: seq<Option<seq<string>>>,
                                                 preloads: seq<Option<seq<string>>>, restricted: seq<Restricted>)

  /** A truthy `watch` result. */
  predicate Truthy(v: Option<bool>)
  {
    v.Some? && v.value
  }

  /** `watch` of the older copy: the same driver steps and interval as the current copy,
      returning True when the video never played and None after watching it. */
  function LegacyWatch(id: string, mode: Mode, budget: Budget, tries: int, w: WatchInput): (Call<Option<bool>>, seq<real>)
  {
    var t := WatchSpec(id, mode, budget, tries, w);
    (match t.result
     case Raised => Raised
     case Returned(failed) => Returned(if failed then Some(true) else None),
     t.slept)
  }

  /** The training loop of the older copy from seed `i` on: True at the first truthy watch,
      False after every seed. */
  function LegacyTrainFrom(seeds: seq<string>, i: nat, mode: Mode, budget: Budget, tries: int,
                           watches: nat -> WatchInput, slept: seq<real>): (Call<bool>, seq<real>)
    decreases |seeds| - i
  {
    if i >= |seeds| then (Returned(false), slept)
    else
      var (r, s) := LegacyWatch(seeds[i], mode, budget, tries, watches(i));
      match r
      case Raised => (Raised, slept + s)
      case Returned(v) =>
        if Truthy(v) then (Returned(true), slept + s)
        else LegacyTrainFrom(seeds, i + 1, mode, budget, tries, watches, slept + s)
  }

  /** The older training loop decides exactly what the current one decides, and sleeps the
      same intervals; only the progress events are missing. */
  lemma {:induction false} LegacyTrainAgrees(seeds: seq<string>, i: nat, mode: Mode, budget: Budget, tries: int,
                                           watches: nat -> WatchInput, events: seq<Event>, slept: seq<real>)
    ensures var t := TrainFrom(seeds, i, mode, budget, tries, watches, events, slept);
      LegacyTrainFrom(seeds, i, mode, budget, tries, watches, slept) == (t.result, t.slept)
    decreases |seeds| - i
  {
    if i < |seeds| {
      var w := WatchSpec(seeds[i], mode, budget, tries, watches(i));
      if w.result == Returned(false) {
        var ev := events + [TrainingProgress(i + 1, |seeds|, seeds[i])] + w.events;
        LegacyTrainAgrees(seeds, i + 1, mode, budget, tries, watches, ev, slept + w.slept);
      }
    }
  }

  /** The fixed parameters of one `Run` of the older copy, with the seeds its handler reads. */
  datatype LegacyConfig = LegacyConfig(n: nat, mode: Mode, budget: Budget, tries: int, seeds: seq<string>)

  datatype LegacyState = LegacyState(count: int, err: int, step: nat, c: LegacyCollections, slept: seq<real>)

  /** How the restriction check of a hop ends: the hop goes on, the reason asks to sign in,
      or the handler's `seed_ids[-1]` raised IndexError. */
  datatype Check = Proceed | SignIn | Crash

  datatype LegacyStepResult = Halt(result: Call<Option<int>>, st: LegacyState) | Go(st: LegacyState)

  /** The outer `except` of the restriction check logs `seed_ids[-1]`, which raises when
      there are no seeds. */
  function Handler(seeds: seq<string>): Check
  {
    if seeds == [] then Crash else Proceed
  }

  /** The restriction check of the older copy. A dismiss click that fails also reaches the
      handler. */
  function LegacyRestriction(url: string, r: Restriction, c: LegacyCollections, seeds: seq<string>): (LegacyCollections, Check)
  {
    match r
    case NotShown => (c, Proceed)
    case DetectionFailed => (c, Handler(seeds))
    case Shown(reason, dismissed) =>
      if reason.ReadError? then (c, Handler(seeds))
      else
        var text := ReasonText(reason);
        var c1 := c.(restricted := c.restricted + [Restricted(url, text)]);
        if NeedsSignIn(text) then (c1, SignIn)
        else if !dismissed then (c1, Handler(seeds))
        else (c1, Proceed)
  }

  /** The hop's getter result, None included, goes to the mode's list. */
  function LegacyRecord(cfg: LegacyConfig, h: Hop, c: LegacyCollections): LegacyCollections
  {
    if cfg.mode == Short then c.(preloads := c.preloads + [LegacyPreloadResult(cfg.tries, h.preload)])
    else c.(sidebars := c.sidebars + [LegacySidebarResult(cfg.tries, h.sidebar)])
  }

  /** One iteration of the older collection loop. */
  function LegacyStep(cfg: LegacyConfig, hops: nat -> Hop, st: LegacyState): LegacyStepResult
  {
    var h := hops(st.step);
    var s1 := st.(step := st.step + 1);
    if !h.pressed then Halt(Returned(Some(-1)), s1)
    else if !h.urlChanged then Go(s1.(err := st.err - 1))
    else
      var (c1, check) := LegacyRestriction(h.url, h.restriction, st.c, cfg.seeds);
      if check == SignIn then Halt(Returned(Some(-1)), s1.(c := c1))
      else if check == Crash then Halt(Raised, s1.(c := c1))
      else
        var c2 := LegacyRecord(cfg, h, c1);
        Go(LegacyState(st.count - 1, st.err, st.step + 1, c2.(path := c2.path + [h.url]),
                       st.slept + [Sleep(HopWait(cfg.budget, h.duration))]))
  }

  function LegacyMeasure(st: LegacyState): nat
  {
    if st.count > 0 && st.err > 0 then st.count + st.err else 0
  }

  /** The older collection loop from `st`: after the loop the method falls off its end,
      so it returns None. */
  function LegacyFrom(cfg: LegacyConfig, hops: nat -> Hop, st: LegacyState): (Call<Option<int>>, LegacyState)
    decreases LegacyMeasure(st)
  {
    if !(st.count > 0 && st.err > 0) then (Returned(None), st)
    else
      match LegacyStep(cfg, hops, st)
      case Halt(r, s) => (r, s)
      case Go(s) =>
        assert LegacyMeasure(s) < LegacyMeasure(st);
        LegacyFrom(cfg, hops, s)
  }

  lemma LegacyUnfold(cfg: LegacyConfig, hops: nat -> Hop, st: LegacyState)
    requires st.count > 0 && st.err > 0
    ensures var r := LegacyStep(cfg, hops, st);
      && (r.Halt? ==> LegacyFrom(cfg, hops, st) == (r.result, r.st))
      && (r.Go? ==> LegacyFrom(cfg, hops, st) == LegacyFrom(cfg, hops, r.st))
  {
  }

  /** The handler can only raise when there are no seeds, and then every restriction
      check that fails, or a dismiss click that fails, ends the run with IndexError. */
  lemma HandlerNeedsSeeds(url: string, r: Restriction, c: LegacyCollections, seeds: seq<string>)
    ensures seeds != [] ==> LegacyRestriction(url, r, c, seeds).1 != Crash
    ensures seeds == [] && (r.DetectionFailed? || (r.Shown? && r.reason.ReadError?)) ==>
      LegacyRestriction(url, r, c, seeds) == (c, Crash)
  {
  }

  predicate LegacyCollected(cfg: LegacyConfig, st: LegacyState, f: LegacyState)
  {
    && 0 <= f.count <= st.count
    && st.c.path <= f.c.path && st.c.sidebars <= f.c.sidebars
    && st.c.preloads <= f.c.preloads && st.c.restricted <= f.c.restricted
    && |f.c.path| == |st.c.path| + (st.count - f.count)
    && |f.c.sidebars| == |st.c.sidebars| + (if cfg.mode == Long then st.count - f.count else 0)
    && |f.c.preloads| == |st.c.preloads| + (if cfg.mode == Short then st.count - f.count else 0)
  }

  lemma LegacyStepCollects(cfg: LegacyConfig, hops: nat -> Hop, st: LegacyState)
    requires st.count > 0 && st.err > 0
    ensures var r := LegacyStep(cfg, hops, st);
      && LegacyCollected(cfg, st, r.st) && r.st.err >= st.err - 1
      && (r.Halt? ==> (r.result == Returned(Some(-1)) || (r.result.Raised? && cfg.seeds == [])))
  {
    HandlerNeedsSeeds(hops(st.step).url, hops(st.step).restriction, st.c, cfg.seeds);
  }

  /** The older `Run` never returns 0: it returns -1 on a failed key press or a sign-in
      reason, raises only when there are no seeds, and otherwise returns None once the loop
      ends, with every hop collected or the retries used up. The retry counter never goes
      below 0, so the closing `err_attempts < 0` test never holds. Each collected hop adds
      one URL and one entry, possibly None, to the mode's list. */
  lemma {:induction false} LegacyRunAccounting(cfg: LegacyConfig, hops: nat -> Hop, st: LegacyState)
    requires st.count >= 0 && st.err >= 0
    ensures var (r, f) := LegacyFrom(cfg, hops, st);
      && (r == Returned(Some(-1)) || r == Returned(None) || r.Raised?)
      && (r.Raised? ==> cfg.seeds == [])
      && (r == Returned(None) ==> f.count == 0 || f.err == 0)
      && f.err >= 0
      && LegacyCollected(cfg, st, f)
    decreases LegacyMeasure(st)
  {
    if st.count > 0 && st.err > 0 {
      LegacyStepCollects(cfg, hops, st);
      match LegacyStep(cfg, hops, st)
      case Halt(_, _) =>
      case Go(s) =>
        LegacyRunAccounting(cfg, hops, s);
    }
  }

  /** What the older `Report()` returns (its budget key is spelled `maxduration`). */
  datatype LegacyReport = LegacyReport(trainingIds: seq<string>, seedId: string, playerMode: Option<Mode>,
                                       maxduration: Option<Budget>, recommendations: LegacyCollections)

  /** `Report()` of the older copy indexes the last seed without a guard. */
  function MakeLegacyReport(seeds: seq<string>, mode: Option<Mode>, budget: Option<Budget>, c: LegacyCollections): Call<LegacyReport>
  {
    if seeds == [] then Raised
    else Returned(LegacyReport(seeds[..|seeds| - 1], seeds[|seeds| - 1], mode, budget, c))
  }

  /** The older report raises IndexError exactly when there are no seeds; otherwise it
      splits the seeds as the current report does. */
  lemma LegacyReportProperties(seeds: seq<string>, mode: Option<Mode>, budget: Option<Budget>,
                               c: LegacyCollections, current: Collections)
    ensures MakeLegacyReport(seeds, mode, budget, c).Raised? <==> seeds == []
    ensures seeds != [] ==>
      var r := MakeLegacyReport(seeds, mode, budget, c).value;
      var q := MakeReport(seeds, mode, budget, current);
      && r.trainingIds == q.trainingIds && Some(r.seedId) == q.seedId
      && r.trainingIds + [r.seedId] == seeds
      && r.recommendations == c && r.playerMode == mode && r.maxduration == budget
  {
    if seeds != [] {
      assert seeds[..|seeds| - 1] + [seeds[|seeds| - 1]] == seeds;
    }
  }

  class SockPuppet {
    const adblock: bool
    const errAttempts: int

    var initialized: bool
    var driverOpen: bool
    var mode: Option<Mode>
    var maxDuration: Option<Budget>

    var seedIds: seq<string>
    var path: seq<string>
    var sidebars: seq<Option<seq<string>>>
    var preloads: seq<Option<seq<string>>>
    var restricted: seq<Restricted>

    var slept: seq<real>

    function Stored(): LegacyCollections
      reads this
    {
      LegacyCollections(path, sidebars, preloads, restricted)
    }

    function Settings(): (bool, bool, Option<Mode>, Option<Budget>)
      reads this
    {
      (initialized, driverOpen, mode, maxDuration)
    }

    predicate Valid()
      reads this
    {
      initialized ==> driverOpen && mode.Some? && maxDuration.Some? && Positive(maxDuration.value)
    }

    constructor (adblock: bool, errAttempts: int)
      ensures this.adblock == adblock && this.errAttempts == errAttempts
      ensures Settings() == (false, false, None, None)
      ensures seedIds == [] && Stored() == LegacyCollections([], [], [], []) && slept == []
      ensures Valid()
    {
      this.adblock := adblock;
      this.errAttempts := errAttempts;
      initialized := false;
      driverOpen := false;
      mode := None;
      maxDuration := None;
      seedIds := [];
      path := [];
      sidebars := [];
      preloads := [];
      restricted := [];
      slept := [];
    }

    /** `InitDriver` of the older copy. Without an ad blocker it returns False (no error)
        but never sets `initialized`, so only a session with an ad blocker can go on to
        `Train` or `Run`. */
    method InitDriver(m: Mode, budget: Budget, windowsReady: nat -> bool, tabReady: nat -> bool)
      returns (failed: bool)
      requires !initialized && Positive(budget)
      modifies this
      ensures var windows := SomeAttempt(windowsReady, errAttempts);
        var tab := SomeAttempt(tabReady, errAttempts);
        && (failed <==> !windows || (adblock && !tab))
        && (initialized <==> adblock && windows && tab)
        && (!adblock && windows ==> !failed && !initialized)
      ensures driverOpen && mode == Some(m) && maxDuration == Some(budget)
      ensures seedIds == [] && Stored() == LegacyCollections([], [], [], [])
      ensures slept == old(slept)
      ensures Valid()
    {
      maxDuration := Some(budget);
      mode := Some(m);
      seedIds := [];
      path := [];
      sidebars := [];
      preloads := [];
      restricted := [];
      driverOpen := true;
      var windows := RetryUntil(errAttempts, windowsReady);
      if !windows {
        return true;
      }
      if !adblock {
        return false;
      }
      var tab := RetryUntil(errAttempts, tabReady);
      if !tab {
        return true;
      }
      initialized := true;
      return false;
    }

    /** `CleanUp(kill)` of the older copy. `historyFailed` says the browser-history
        clearing of a `kill=False` clean-up raised: the method then returns early, still
        initialized and with the driver alive. Otherwise the driver is released whatever
        `kill` says. */
    method CleanUp(kill: bool, historyFailed: bool) returns (r: Call<()>)
      requires Valid()
      modifies this
      ensures !old(initialized) ==> r.Raised? && Settings() == old(Settings())
      ensures old(initialized) && !kill && historyFailed ==> r == Returned(()) && Settings() == old(Settings())
      ensures old(initialized) && (kill || !historyFailed) ==>
        r == Returned(()) && Settings() == (false, false, old(mode), old(maxDuration))
      ensures seedIds == old(seedIds) && Stored() == old(Stored()) && slept == old(slept)
      ensures Valid()
    {
      if !initialized {
        return Raised;
      }
      if !kill && historyFailed {
        return Returned(());
      }
      driverOpen := false;
      initialized := false;
      return Returned(());
    }

    /** `watch` of the older copy: what `LegacyWatch` describes. */
    method Watch(id: string, modeOverride: Option<Mode>, budgetOverride: Option<Budget>, w: WatchInput)
      returns (r: Call<Option<bool>>)
      requires initialized && Valid()
      requires Positive(Default(budgetOverride, maxDuration.value))
      modifies this
      ensures var (res, s) := LegacyWatch(id, Default(modeOverride, old(mode).value),
                                          Default(budgetOverride, old(maxDuration).value), errAttempts, w);
        r == res && slept == old(slept) + s
      ensures Settings() == old(Settings()) && seedIds == old(seedIds) && Stored() == old(Stored())
    {
      var b := Default(budgetOverride, maxDuration.value);
      if !w.loaded {
        return Raised;
      }
      var plays := RetryUntil(errAttempts, w.playing);
      if !plays {
        return Returned(Some(true));
      }
      var wait := WaitTime(VideoLength(w.duration), b);
      slept := slept + [Sleep(wait)];
      return Returned(None);
    }

    /** `Train(seed_ids)` of the older copy. */
    method Train(seeds: seq<string>, watches: nat -> WatchInput) returns (r: Call<bool>)
      requires initialized && Valid() && |seeds| > 0
      modifies this
      ensures (r, slept) == LegacyTrainFrom(seeds, 0, old(mode).value, old(maxDuration).value, errAttempts, watches, old(slept))
      ensures seedIds == seeds
      ensures Settings() == old(Settings()) && Stored() == old(Stored())
      ensures Valid()
    {
      var m := mode.value;
      var b := maxDuration.value;
      seedIds := seeds;
      ghost var target := LegacyTrainFrom(seeds, 0, m, b, errAttempts, watches, slept);
      var i := 0;
      while i < |seeds|
        invariant 0 <= i <= |seeds|
        invariant Settings() == old(Settings()) && Stored() == old(Stored()) && seedIds == seeds
        invariant LegacyTrainFrom(seeds, i, m, b, errAttempts, watches, slept) == target
      {
        var v := Watch(seeds[i], None, None, watches(i));
        if v.Raised? {
          return Raised;
        }
        if Truthy(v.value) {
          return Returned(true);
        }
        i := i + 1;
      }
      return Returned(false);
    }

    /** `GetSidebar()` of the older copy: None when every retry failed. */
    method GetSidebar(attempt: nat -> Option<seq<string>>) returns (links: Option<seq<string>>)
      ensures links == LegacySidebarResult(errAttempts, attempt)
    {
      var i: nat := 0;
      while i < errAttempts
        invariant FirstSuccess(attempt, errAttempts, i) == FirstSuccess(attempt, errAttempts, 0)
        decreases errAttempts - i
      {
        if attempt(i).Some? {
          return attempt(i);
        }
        i := i + 1;
      }
      return None;
    }

    /** `GetPreloadRec()` of the older copy, whose mangled helper name never resolves. */
    method GetPreloadRec(read: nat -> Option<seq<Option<string>>>) returns (batch: Option<seq<string>>)
      ensures batch == LegacyPreloadResult(errAttempts, read)
    {
      var f := UnresolvedAttempts(read);
      var i: nat := 0;
      while i < errAttempts
        invariant FirstSuccess(f, errAttempts, i) == FirstSuccess(f, errAttempts, 0)
        decreases errAttempts - i
      {
        if f(i).Some? {
          return f(i);
        }
        i := i + 1;
      }
      return None;
    }

    /** `Run(collect_video_num, max_duration)` of the older copy: the result and the final
        lists and sleeps of `LegacyFrom`. */
    method Run(n: int, budgetOverride: Option<Budget>, hops: nat -> Hop) returns (r: Call<Option<int>>)
      requires initialized && Valid() && n > 0
      requires NonNegative(Default(budgetOverride, maxDuration.value))
      modifies this
      ensures var cfg := LegacyConfig(n, old(mode).value, Default(budgetOverride, old(maxDuration).value), errAttempts, old(seedIds));
        var (res, f) := LegacyFrom(cfg, hops, LegacyState(n, errAttempts, 0, old(Stored()), old(slept)));
        r == res && Stored() == f.c && slept == f.slept
      ensures Settings() == old(Settings()) && seedIds == old(seedIds)
      ensures Valid()
    {
      var cfg := LegacyConfig(n, mode.value, Default(budgetOverride, maxDuration.value), errAttempts, seedIds);
      var count := n;
      var err := errAttempts;
      var step: nat := 0;
      ghost var target := LegacyFrom(cfg, hops, LegacyState(count, err, step, Stored(), slept));
      while count > 0 && err > 0
        invariant Settings() == old(Settings()) && seedIds == old(seedIds)
        invariant LegacyFrom(cfg, hops, LegacyState(count, err, step, Stored(), slept)) == target
        decreases LegacyMeasure(LegacyState(count, err, step, Stored(), slept))
      {
        ghost var st := LegacyState(count, err, step, Stored(), slept);
        LegacyUnfold(cfg, hops, st);
        var h := hops(step);
        step := step + 1;
        if !h.pressed {
          assert LegacyStep(cfg, hops, st) == Halt(Returned(Some(-1)), LegacyState(count, err, step, Stored(), slept));
          return Returned(Some(-1));
        }
        if !h.urlChanged {
          err := err - 1;
          assert LegacyStep(cfg, hops, st) == Go(LegacyState(count, err, step, Stored(), slept));
          continue;
        }
        var check := RecordRestriction(h.url, h.restriction);
        if check == SignIn {
          assert LegacyStep(cfg, hops, st) == Halt(Returned(Some(-1)), LegacyState(count, err, step, Stored(), slept));
          return Returned(Some(-1));
        }
        if check == Crash {
          assert LegacyStep(cfg, hops, st) == Halt(Raised, LegacyState(count, err, step, Stored(), slept));
          return Raised;
        }
        RecordHop(cfg, h);
        count := count - 1;
        assert LegacyStep(cfg, hops, st) == Go(LegacyState(count, err, step, Stored(), slept));
      }
      return Returned(None);
    }

    /** The restriction check of a hop in the older copy. */
    method RecordRestriction(url: string, r: Restriction) returns (check: Check)
      modifies this
      ensures (Stored(), check) == LegacyRestriction(url, r, old(Stored()), seedIds)
      ensures Settings() == old(Settings()) && seedIds == old(seedIds) && slept == old(slept)
    {
      check := Proceed;
      match r
      case NotShown =>
      case DetectionFailed =>
        check := Handler(seedIds);
      case Shown(reason, dismissed) =>
        if reason.ReadError? {
          check := Handler(seedIds);
        } else {
          var text := ReasonText(reason);
          restricted := restricted + [Restricted(url, text)];
          if NeedsSignIn(text) {
            check := SignIn;
          } else if !dismissed {
            check := Handler(seedIds);
          }
        }
    }

    /** The rest of a collected hop in the older copy. */
    method RecordHop(cfg: LegacyConfig, h: Hop)
      requires cfg.tries == errAttempts
      modifies this
      ensures var c := LegacyRecord(cfg, h, old(Stored()));
        Stored() == c.(path := c.path + [h.url])
      ensures slept == old(slept) + [Sleep(HopWait(cfg.budget, h.duration))]
      ensures Settings() == old(Settings()) && seedIds == old(seedIds)
    {
      if cfg.mode == Short {
        var batch := GetPreloadRec(h.preload);
        preloads := preloads + [batch];
      } else {
        var links := GetSidebar(h.sidebar);
        sidebars := sidebars + [links];
      }
      path := path + [h.url];
      var wait := if Positive(cfg.budget) then WaitTime(VideoLength(h.duration), cfg.budget) else 0.0;
      slept := slept + [Sleep(wait)];
    }

    /** `Report()` of the older copy. */
    function Report(): Call<LegacyReport>
      reads this
    {
      MakeLegacyReport(seedIds, mode, maxDuration, Stored())
    }
  }
}
