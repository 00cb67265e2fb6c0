/** The `YouTubeAuditor` object. youtubeaudit/core.py and longstoryshort/core.py hold
    two copies of the class that agree on `watch`, `Train`, `GetSidebar`, `Run`,
    `CleanUp` and `Report`; they differ in how the browser is started (`InitDriver`
    and `launch_browser`) and in `GetPreloadRec`, so one class models both and
    `copy` says which file an object comes from.

    The driver is not modelled: each method takes what the driver calls produce as
    inputs. `events` is the list of progress events passed to `on_progress`, and
    `slept` the list of watch intervals given to `time.sleep`. */
module Auditor {
  import opened Common
  import opened WatchTime
  import opened Scrape
  import opened Session

  class YouTubeAuditor {
    const copy: Copy
    const adblock: bool        // whether the `adblock` option is truthy (youtubeaudit)
    const errAttempts: int     // `err_attempts`, the retry count of every driver wait

    var initialized: bool
    var driverOpen: bool       // `driver` is not None
    var mode: Option<Mode>
    var maxDuration: Option<Budget>

    var seedIds: seq<string>
    var path: seq<string>
    var sidebars: seq<seq<string>>
    var preloads: seq<seq<string>>
    var restricted: seq<Restricted>

    var events: seq<Event>
    var slept: seq<real>

    /** The four collection lists. */
    function Stored(): Collections
      reads this
    {
      Collections(path, sidebars, preloads, restricted)
    }

    /** The driver flags and the session settings. */
    function Settings(): (bool, bool, Option<Mode>, Option<Budget>)
      reads this
    {
      (initialized, driverOpen, mode, maxDuration)
    }

    /** An initialized auditor has a live driver, a mode and a positive budget. */
    predicate Valid()
      reads this
    {
      initialized ==> driverOpen && mode.Some? && maxDuration.Some? && Positive(maxDuration.value)
    }

    constructor (copy: Copy, adblock: bool, errAttempts: int)
      ensures this.copy == copy && this.adblock == adblock && this.errAttempts == errAttempts
      ensures Settings() == (false, false, None, None)
      ensures seedIds == [] && Stored() == Collections([], [], [], [])
      ensures events == [] && slept == []
      ensures Valid()
    {
      this.copy := copy;
      this.adblock := adblock;
      this.errAttempts := errAttempts;
      initialized := false;
      driverOpen := false;
      mode := None;
      maxDuration := None;
      seedIds := [];
      path := [];
      sidebars := [];
      preloads := [];
      restricted := [];
      events := [];
      slept := [];
    }

    /** Sets the mode and the budget and empties the five lists. */
    method Reset(m: Mode, budget: Budget)
      modifies this
      ensures Settings() == (old(initialized), old(driverOpen), Some(m), Some(budget))
      ensures seedIds == [] && Stored() == Collections([], [], [], [])
      ensures events == old(events) && slept == old(slept)
    {
      maxDuration := Some(budget);
      mode := Some(m);
      seedIds := [];
      path := [];
      sidebars := [];
      preloads := [];
      restricted := [];
    }

    /** `InitDriver` of youtubeaudit/core.py. It returns True when the browser window
        never appeared, or when the ad blocker's tab could not be opened; without an
        ad blocker it does not open the tab. The auditor is initialized exactly when
        it returns False. */
    method InitDriver(m: Mode, budget: Budget, windowsReady: nat -> bool, tabReady: nat -> bool)
      returns (failed: bool)
      requires copy == Current && !initialized && Positive(budget)
      modifies this
      ensures var windows := SomeAttempt(windowsReady, errAttempts);
        var tab := SomeAttempt(tabReady, errAttempts);
        && (failed <==> !windows || (adblock && !tab))
        && Settings() == (!failed, true, Some(m), Some(budget))
        && events == old(events) + [DriverInit(m, budget)]
                     + (if !windows then [DriverInitFailed] else if adblock && tab then [DriverReady(m)] else [])
      ensures seedIds == [] && Stored() == Collections([], [], [], [])
      ensures slept == old(slept)
      ensures Valid()
    {
      Reset(m, budget);
      events := events + [DriverInit(m, budget)];
      driverOpen := true;
      var windows := RetryUntil(errAttempts, windowsReady);
      if !windows {
        events := events + [DriverInitFailed];
        return true;
      }
      if !adblock {
        initialized := true;
        return false;
      }
      var tab := RetryUntil(errAttempts, tabReady);
      if !tab {
        return true;
      }
      initialized := true;
      events := events + [DriverReady(m)];
      return false;
    }

    /** `launch_browser` of longstoryshort/core.py. A driver that cannot be created
        raises (ValueError or RuntimeError) after the lists were emptied; a tab that
        never appears gives True; a leftover tab fails the closing assertion; otherwise
        the auditor is initialized and the method falls off its end with None. */
    method LaunchBrowser(m: Mode, budget: Budget, launched: bool, tabReady: nat -> bool, oneTab: bool)
      returns (r: Call<Option<bool>>)
      requires copy == Unresolved && !initialized && Positive(budget)
      modifies this
      ensures var tab := SomeAttempt(tabReady, errAttempts);
        && (!launched ==> r.Raised? && events == old(events) && !initialized && driverOpen == old(driverOpen))
        && (launched && !tab ==> r == Returned(Some(true)))
        && (launched && tab && !oneTab ==> r.Raised?)
        && (launched && tab && oneTab ==> r == Returned(None))
        && (initialized <==> launched && tab && oneTab)
        && (launched ==> driverOpen && events == old(events) + [DriverCreated(m)]
                                                + (if initialized then [DriverReady(m)] else []))
      ensures mode == Some(m) && maxDuration == Some(budget)
      ensures seedIds == [] && Stored() == Collections([], [], [], [])
      ensures slept == old(slept)
      ensures Valid()
    {
      Reset(m, budget);
      if !launched {
        return Raised;
      }
      driverOpen := true;
      events := events + [DriverCreated(m)];
      var tab := RetryUntil(errAttempts, tabReady);
      if !tab {
        return Returned(Some(true));
      }
      if !oneTab {
        return Raised;
      }
      initialized := true;
      events := events + [DriverReady(m)];
      return Returned(None);
    }

    /** `CleanUp(kill)`: its assertion raises on an auditor that is not initialized;
        otherwise it always ends uninitialized, and releases the driver only when
        `kill` is true. */
    method CleanUp(kill: bool) returns (r: Call<()>)
      modifies this
      ensures !old(initialized) ==> r.Raised? && Settings() == old(Settings()) && events == old(events)
      ensures old(initialized) ==>
        (&& r == Returned(())
         && Settings() == (false, old(driverOpen) && !kill, old(mode), old(maxDuration))
         && events == old(events) + [CleanupStarted(kill), CleanupComplete])
      ensures seedIds == old(seedIds) && Stored() == old(Stored()) && slept == old(slept)
      ensures Valid()
    {
      if !initialized {
        return Raised;
      }
      events := events + [CleanupStarted(kill)];
      if driverOpen && kill {
        driverOpen := false;
      }
      initialized := false;
      events := events + [CleanupComplete];
      return Returned(());
    }

    /** `watch(video_id, mode, max_duration)`, with None standing for an argument left
        out: it emits and sleeps what `WatchSpec` describes. */
    method Watch(id: string, modeOverride: Option<Mode>, budgetOverride: Option<Budget>, w: WatchInput)
      returns (r: Call<bool>)
      requires initialized && Valid()
      requires Positive(Default(budgetOverride, maxDuration.value))
      modifies this
      ensures var t := WatchSpec(id, Default(modeOverride, old(mode).value),
                                 Default(budgetOverride, old(maxDuration).value), errAttempts, w);
        r == t.result && events == old(events) + t.events && slept == old(slept) + t.slept
      ensures Settings() == old(Settings()) && seedIds == old(seedIds) && Stored() == old(Stored())
    {
      var md := Default(modeOverride, mode.value);
      var b := Default(budgetOverride, maxDuration.value);
      events := events + [WatchStarted(id, md)];
      if !w.loaded {
        return Raised;
      }
      var plays := RetryUntil(errAttempts, w.playing);
      if !plays {
        events := events + [WatchFailed(id)];
        return Returned(true);
      }
      var len := VideoLength(w.duration);
      var wait := WaitTime(len, b);
      events := events + [Watching(id, len, wait)];
      slept := slept + [Sleep(wait)];
      events := events + [WatchComplete(id)];
      return Returned(false);
    }

    /** `Train(seed_ids)`: stores the seeds and runs the training loop `TrainFrom`
        describes, watching seed `i` with `watches(i)`. */
    method Train(seeds: seq<string>, watches: nat -> WatchInput) returns (r: Call<bool>)
      requires initialized && Valid() && |seeds| > 0
      modifies this
      ensures var t := TrainFrom(seeds, 0, old(mode).value, old(maxDuration).value, errAttempts, watches,
                                 old(events) + [TrainingStarted(|seeds|, old(mode).value)], old(slept));
        r == t.result && events == t.events && slept == t.slept
      ensures seedIds == seeds
      ensures Settings() == old(Settings()) && Stored() == old(Stored())
      ensures Valid()
    {
      var m := mode.value;
      var b := maxDuration.value;
      seedIds := seeds;
      events := events + [TrainingStarted(|seeds|, m)];
      ghost var target := TrainFrom(seeds, 0, m, b, errAttempts, watches, events, slept);
      var i := 0;
      while i < |seeds|
        invariant 0 <= i <= |seeds|
        invariant Settings() == old(Settings()) && Stored() == old(Stored()) && seedIds == seeds
        invariant TrainFrom(seeds, i, m, b, errAttempts, watches, events, slept) == target
      {
        events := events + [TrainingProgress(i + 1, |seeds|, seeds[i])];
        var failed := Watch(seeds[i], None, None, watches(i));
        if failed.Raised? {
          return Raised;
        }
        if failed.value {
          events := events + [TrainingFailed(seeds[i])];
          return Returned(true);
        }
        i := i + 1;
      }
      events := events + [TrainingComplete(|seeds|)];
      return Returned(false);
    }

    /** `GetSidebar()` with the outcome of each retry given by `attempt`. */
    method GetSidebar(attempt: nat -> Option<seq<string>>) returns (links: seq<string>)
      ensures links == SidebarResult(errAttempts, attempt)
    {
      var i: nat := 0;
      while i < errAttempts
        invariant FirstSuccess(attempt, errAttempts, i) == FirstSuccess(attempt, errAttempts, 0)
        decreases errAttempts - i
      {
        if attempt(i).Some? {
          return attempt(i).value;
        }
        i := i + 1;
      }
      return [];
    }

    /** `GetPreloadRec()` with the containers' styles read at each retry given by `read`:
        youtubeaudit's builds shorts URLs, longstoryshort/core.py's always comes back
        empty. */
    method GetPreloadRec(read: nat -> Option<seq<Option<string>>>) returns (batch: seq<string>)
      ensures batch == PreloadFor(copy, errAttempts, read)
    {
      var f := if copy == Current then PreloadAttempts(read) else UnresolvedAttempts(read);
      var i: nat := 0;
      while i < errAttempts
        invariant FirstSuccess(f, errAttempts, i) == FirstSuccess(f, errAttempts, 0)
        decreases errAttempts - i
      {
        if f(i).Some? {
          return f(i).value;
        }
        i := i + 1;
      }
      return [];
    }

    /** `Run(collect_video_num, max_duration)`: iteration `k` of the collection loop
        sees `hops(k)`; the return code, the lists, the events and the sleeps are those
        of `RunFrom` from the loop's starting state. */
    method Run(n: int, budgetOverride: Option<Budget>, hops: nat -> Hop) returns (code: int)
      requires initialized && Valid() && n > 0
      requires NonNegative(Default(budgetOverride, maxDuration.value))
      modifies this
      ensures var cfg := RunConfig(n, old(mode).value, Default(budgetOverride, old(maxDuration).value), errAttempts, copy);
        var (c, f) := RunFrom(cfg, hops, RunStart(cfg, errAttempts, old(Stored()), old(events), old(slept)));
        code == c && Stored() == f.c && events == f.events && slept == f.slept
      ensures Settings() == old(Settings()) && seedIds == old(seedIds)
      ensures Valid()
    {
      var m := mode.value;
      var b := Default(budgetOverride, maxDuration.value);
      var cfg := RunConfig(n, m, b, errAttempts, copy);
      var count := n;
      events := events + [CollectionStarted(n, m)];
      var err := errAttempts;
      var step: nat := 0;
      ghost var target := RunFrom(cfg, hops, RunState(count, err, step, Stored(), events, slept));
      while count > 0 && err > 0
        invariant Settings() == old(Settings()) && seedIds == old(seedIds)
        invariant RunFrom(cfg, hops, RunState(count, err, step, Stored(), events, slept)) == target
        decreases RunMeasure(RunState(count, err, step, Stored(), events, slept))
      {
        RunUnfold(cfg, hops, RunState(count, err, step, Stored(), events, slept));
        var stop, c;
        stop, c, count, err, step := RunHop(cfg, hops, count, err, step);
        if stop {
          return c;
        }
      }
      if err <= 0 {
        events := events + [CollectionFailed("too_many_retries")];
        return -1;
      }
      events := events + [CollectionComplete(n - count)];
      return 0;
    }

    /** One iteration of the collection loop: `stop` says the hop ended the run with
        return code `code`; otherwise the loop goes on from the new counters. */
    method RunHop(cfg: RunConfig, hops: nat -> Hop, count: int, err: int, step: nat)
      returns (stop: bool, code: int, count1: int, err1: int, step1: nat)
      requires cfg.copy == copy && cfg.tries == errAttempts
      modifies this
      ensures var r := Step(cfg, hops, RunState(count, err, step, old(Stored()), old(events), old(slept)));
        && stop == r.Stop? && (stop ==> code == r.code)
        && RunState(count1, err1, step1, Stored(), events, slept) == r.st
      ensures Settings() == old(Settings()) && seedIds == old(seedIds)
    {
      var h := hops(step);
      step1 := step + 1;
      count1, err1 := count, err;
      events := events + [CollectionProgress(cfg.n - count + 1, cfg.n)];
      if !h.pressed {
        events := events + [CollectionFailed("next_button_failed")];
        return true, -1, count1, err1, step1;
      }
      if !h.urlChanged {
        return false, 0, count1, err - 1, step1;
      }
      var signIn := RecordRestriction(h.url, h.restriction);
      if signIn {
        return true, -1, count1, err1, step1;
      }
      RecordHop(cfg, h);
      return false, 0, count - 1, err1, step1;
    }

    /** The restriction check of a hop: a restricted video's URL and reason (or the
        fallback reason) are appended to `restricted` and announced; `signIn` says the
        reason asks to sign in. */
    method RecordRestriction(url: string, r: Restriction) returns (signIn: bool)
      modifies this
      ensures (Stored(), events, signIn) == RestrictionStep(url, r, old(Stored()), old(events))
      ensures Settings() == old(Settings()) && seedIds == old(seedIds) && slept == old(slept)
    {
      signIn := false;
      if r.Shown? && !r.reason.ReadError? {
        var text := ReasonText(r.reason);
        restricted := restricted + [Restricted(url, text)];
        events := events + [RestrictedVideo(url, text)];
        signIn := NeedsSignIn(text);
      }
    }

    /** The rest of a collected hop: the mode's recommendation list, the URL appended to
        `path`, and the watch interval, which is 0 for a zero budget. */
    method RecordHop(cfg: RunConfig, h: Hop)
      requires cfg.copy == copy && cfg.tries == errAttempts
      modifies this
      ensures var c := RecordBatch(cfg, h, old(Stored()));
        Stored() == c.(path := c.path + [h.url])
      ensures slept == old(slept) + [Sleep(HopWait(cfg.budget, h.duration))]
      ensures Settings() == old(Settings()) && seedIds == old(seedIds) && events == old(events)
    {
      if cfg.mode == Short {
        var batch := GetPreloadRec(h.preload);
        preloads := preloads + [batch];
      } else {
        var links := GetSidebar(h.sidebar);
        sidebars := sidebars + [links];
      }
      path := path + [h.url];
      var wait := if Positive(cfg.budget) then WaitTime(VideoLength(h.duration), cfg.budget) else 0.0;
      slept := slept + [Sleep(wait)];
    }

    /** `Report()`: a read of the seeds, the settings and the lists. */
    function Report(): Session.Report
      reads this
    {
      MakeReport(seedIds, mode, maxDuration, Stored())
    }
  }
}
