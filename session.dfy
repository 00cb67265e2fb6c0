/** The audit session of `YouTubeAuditor`, which youtubeaudit/core.py and
    longstoryshort/core.py share line for line apart from the preload getter and
    the browser start-up: progress events, watching one video, the training loop,
    the collection loop over `count` and `err_attempts`, and the report.

    Each driver call is an input. A seed watch reads a `WatchInput`; iteration
    `k` of the collection loop reads `hops(k)`. */
module Session {
  import opened Common
  import opened WatchTime
  import opened Scrape

  datatype Mode = Long | Short

  /** The progress events the auditor passes to its `on_progress` callback
      (timestamps left out). */
  datatype Event =
    | DriverInit(mode: Mode, budget: Budget)
    | DriverInitFailed
    | DriverCreated(mode: Mode)
    | DriverReady(mode: Mode)
    | CleanupStarted(kill: bool)
    | CleanupComplete
    | TrainingStarted(totalVideos: nat, mode: Mode)
    | TrainingProgress(current: nat, total: nat, videoId: string)
    | TrainingFailed(videoId: string)
    | TrainingComplete(totalVideos: nat)
    | WatchStarted(videoId: string, mode: Mode)
    | WatchFailed(videoId: string)
    | Watching(videoId: string, duration: real, waitTime: real)
    | WatchComplete(videoId: string)
    | CollectionStarted(total: nat, mode: Mode)
    | CollectionProgress(position: int, total: nat)   // `current` in the event
    | CollectionFailed(error: string)
    | RestrictedVideo(url: string, reason: string)
    | CollectionComplete(totalCollected: int)

  /** The URL `watch` opens for a video id. */
  function VideoUrl(mode: Mode, id: string): string
  {
    (if mode == Long then PrefixLong else PrefixShort) + id
  }

  /** What the driver does while one video is watched: whether the page showed the id in
      its URL within the wait, whether the player was playing at each retry, and what
      the duration attribute held. */
  datatype WatchInput = WatchInput(loaded: bool, playing: nat -> bool, duration: DurationRead)

  /** One of the first `tries` attempts succeeded (`range(tries)` is empty when
      `tries <= 0`). */
  predicate SomeAttempt(ok: nat -> bool, tries: int)
  {
    exists i: nat | i < tries :: ok(i)
  }

  /** The `for attempt in range(tries): try ...; break / except: ... / else: fail` loop
      that waits for a driver condition. */
  method RetryUntil(tries: int, ok: nat -> bool) returns (found: bool)
    ensures found <==> SomeAttempt(ok, tries)
  {
    var i: nat := 0;
    found := false;
    while i < tries && !found
      invariant i <= tries || i == 0
      invariant found <==> exists j: nat | j < i :: ok(j)
      decreases tries - i
    {
      found := ok(i);
      i := i + 1;
    }
  }

  /** The player was found playing in one of the first `tries` retries. */
  predicate Plays(w: WatchInput, tries: int)
  {
    SomeAttempt(w.playing, tries)
  }

  /** The outcome of a call that emits events and sleeps: what it returned (or that an
      exception escaped), the events in order and the sleeps in order. */
  datatype Traced<T> = Traced(result: Call<T>, events: seq<Event>, slept: seq<real>)

  /** `watch(video_id)`: True when the video never played, False after sleeping the
      interval; the URL wait is outside any `try`, so its timeout escapes. */
  function WatchSpec(id: string, mode: Mode, budget: Budget, tries: int, w: WatchInput): Traced<bool>
  {
    var started := [WatchStarted(id, mode)];
    if !w.loaded then Traced(Raised, started, [])
    else if !Plays(w, tries) then Traced(Returned(true), started + [WatchFailed(id)], [])
    else
      var len := VideoLength(w.duration);
      var wait := WaitTime(len, budget);
      Traced(Returned(false), started + [Watching(id, len, wait), WatchComplete(id)], [Sleep(wait)])
  }

  /** The training loop from seed `i` on, with the events and sleeps so far: each seed
      announces its progress and is watched; a watch that returns True ends training
      with True, an escaping exception ends it too, and after the last seed it
      returns False. */
  function TrainFrom(seeds: seq<string>, i: nat, mode: Mode, budget: Budget, tries: int,
                     watches: nat -> WatchInput, events: seq<Event>, slept: seq<real>): Traced<bool>
    decreases |seeds| - i
  {
    if i >= |seeds| then Traced(Returned(false), events + [TrainingComplete(|seeds|)], slept)
    else
      var w := WatchSpec(seeds[i], mode, budget, tries, watches(i));
      var ev := events + [TrainingProgress(i + 1, |seeds|, seeds[i])] + w.events;
      match w.result
      case Raised => Traced(Raised, ev, slept + w.slept)
      case Returned(failed) =>
        if failed then Traced(Returned(true), ev + [TrainingFailed(seeds[i])], slept + w.slept)
        else TrainFrom(seeds, i + 1, mode, budget, tries, watches, ev, slept + w.slept)
  }

  /** Whether a seed watch came back False (the video played). */
  predicate WatchedOk(seeds: seq<string>, k: nat, mode: Mode, budget: Budget, tries: int, watches: nat -> WatchInput)
    requires k < |seeds|
  {
    WatchSpec(seeds[k], mode, budget, tries, watches(k)).result == Returned(false)
  }

  /** The first seed at or after `i` whose watch did not come back False, or `|seeds|`. */
  function FirstBadSeed(seeds: seq<string>, i: nat, mode: Mode, budget: Budget, tries: int, watches: nat -> WatchInput): (k: nat)
    ensures i <= k || k == |seeds|
    ensures k <= |seeds| || k == i
    decreases |seeds| - i
  {
    if i >= |seeds| then i
    else if !WatchedOk(seeds, i, mode, budget, tries, watches) then i
    else FirstBadSeed(seeds, i + 1, mode, budget, tries, watches)
  }

  /** The video ids of the `training_progress` events, in order. */
  function ProgressIds(events: seq<Event>): seq<string>
  {
    if events == [] then []
    else (if events[0].TrainingProgress? then [events[0].videoId] else []) + ProgressIds(events[1..])
  }

  lemma {:induction false} ProgressIdsAppend(a: seq<Event>, b: seq<Event>)
    ensures ProgressIds(a + b) == ProgressIds(a) + ProgressIds(b)
    decreases |a|
  {
    if a == [] {
      assert a + b == b;
    } else {
      var head := if a[0].TrainingProgress? then [a[0].videoId] else [];
      assert (a + b)[0] == a[0];
      assert (a + b)[1..] == a[1..] + b;
      assert ProgressIds(a + b) == head + ProgressIds(a[1..] + b);
      ProgressIdsAppend(a[1..], b);
      assert ProgressIds(a) == head + ProgressIds(a[1..]);
    }
  }

  lemma {:induction false} NoProgressIds(e: seq<Event>)
    requires forall k | 0 <= k < |e| :: !e[k].TrainingProgress?
    ensures ProgressIds(e) == []
    decreases |e|
  {
    if e != [] {
      NoProgressIds(e[1..]);
    }
  }

  /** Watching a video announces no training progress. */
  lemma WatchAnnouncesNothing(id: string, mode: Mode, budget: Budget, tries: int, w: WatchInput)
    ensures ProgressIds(WatchSpec(id, mode, budget, tries, w).events) == []
  {
    NoProgressIds(WatchSpec(id, mode, budget, tries, w).events);
  }

  /** One training step announces exactly its own seed. */
  lemma TrainStepAnnounces(events: seq<Event>, head: Event, watched: seq<Event>, id: string)
    requires head.TrainingProgress? && head.videoId == id && ProgressIds(watched) == []
    ensures ProgressIds(events + [head] + watched) == ProgressIds(events) + [id]
  {
    ProgressIdsAppend(events, [head]);
    ProgressIdsAppend(events + [head], watched);
    assert ProgressIds([head]) == [id] by { assert [head][1..] == []; }
  }

  /** Every seed before the first bad one played. */
  lemma {:induction false} BeforeFirstBadSeed(seeds: seq<string>, i: nat, mode: Mode, budget: Budget, tries: int, watches: nat -> WatchInput)
    requires i <= |seeds|
    ensures var k := FirstBadSeed(seeds, i, mode, budget, tries, watches);
      i <= k <= |seeds| && forall j | i <= j < k :: WatchedOk(seeds, j, mode, budget, tries, watches)
    decreases |seeds| - i
  {
    if i < |seeds| && WatchedOk(seeds, i, mode, budget, tries, watches) {
      BeforeFirstBadSeed(seeds, i + 1, mode, budget, tries, watches);
    }
  }

  /** Training returns False exactly when every seed played; otherwise it returns what
      the first bad seed's watch returned: True, or an escaping exception. */
  lemma {:induction false} TrainResult(seeds: seq<string>, i: nat, mode: Mode, budget: Budget, tries: int,
                                      watches: nat -> WatchInput, events: seq<Event>, slept: seq<real>)
    requires i <= |seeds|
    ensures var t := TrainFrom(seeds, i, mode, budget, tries, watches, events, slept);
      var k := FirstBadSeed(seeds, i, mode, budget, tries, watches);
      && (k == |seeds| ==> t.result == Returned(false))
      && (k < |seeds| ==> t.result == WatchSpec(seeds[k], mode, budget, tries, watches(k)).result != Returned(false))
    decreases |seeds| - i
  {
    BeforeFirstBadSeed(seeds, i, mode, budget, tries, watches);
    if i < |seeds| {
      var w := WatchSpec(seeds[i], mode, budget, tries, watches(i));
      if w.result == Returned(false) {
        var ev := events + [TrainingProgress(i + 1, |seeds|, seeds[i])] + w.events;
        TrainResult(seeds, i + 1, mode, budget, tries, watches, ev, slept + w.slept);
      }
    }
  }

  /** The end of the seeds training announces when `k` is the first bad seed: one past
      it, or all seeds when every one played. */
  function AnnouncedEnd(seeds: seq<string>, k: nat): nat
  {
    if k < |seeds| then k + 1 else |seeds|
  }

  /** Training watches the seeds in order and stops at the first watch that does not
      come back False: the ids it announces are exactly the seeds up to and including
      that one, or all seeds when every one played. */
  lemma {:induction false} TrainAnnounces(seeds: seq<string>, i: nat, mode: Mode, budget: Budget, tries: int,
                                         watches: nat -> WatchInput, events: seq<Event>, slept: seq<real>)
    requires i <= |seeds|
    ensures var t := TrainFrom(seeds, i, mode, budget, tries, watches, events, slept);
      var k := FirstBadSeed(seeds, i, mode, budget, tries, watches);
      i <= AnnouncedEnd(seeds, k) && ProgressIds(t.events) == ProgressIds(events) + seeds[i..AnnouncedEnd(seeds, k)]
    decreases |seeds| - i
  {
    if i == |seeds| {
      ProgressIdsAppend(events, [TrainingComplete(|seeds|)]);
    } else if WatchedOk(seeds, i, mode, budget, tries, watches) {
      var w := WatchSpec(seeds[i], mode, budget, tries, watches(i));
      var ev := events + [TrainingProgress(i + 1, |seeds|, seeds[i])] + w.events;
      TrainAnnounces(seeds, i + 1, mode, budget, tries, watches, ev, slept + w.slept);
      TrainAnnouncesNext(seeds, i, mode, budget, tries, watches, events, slept);
    } else {
      TrainAnnouncesStop(seeds, i, mode, budget, tries, watches, events, slept);
    }
  }

  /** The step of `TrainAnnounces` over a seed that plays. */
  lemma TrainAnnouncesNext(seeds: seq<string>, i: nat, mode: Mode, budget: Budget, tries: int,
                           watches: nat -> WatchInput, events: seq<Event>, slept: seq<real>)
    requires i < |seeds| && WatchedOk(seeds, i, mode, budget, tries, watches)
    requires var w := WatchSpec(seeds[i], mode, budget, tries, watches(i));
      var ev := events + [TrainingProgress(i + 1, |seeds|, seeds[i])] + w.events;
      var t := TrainFrom(seeds, i + 1, mode, budget, tries, watches, ev, slept + w.slept);
      var k := FirstBadSeed(seeds, i + 1, mode, budget, tries, watches);
      i + 1 <= AnnouncedEnd(seeds, k) && ProgressIds(t.events) == ProgressIds(ev) + seeds[i + 1..AnnouncedEnd(seeds, k)]
    ensures var t := TrainFrom(seeds, i, mode, budget, tries, watches, events, slept);
      var k := FirstBadSeed(seeds, i, mode, budget, tries, watches);
      i <= AnnouncedEnd(seeds, k) && ProgressIds(t.events) == ProgressIds(events) + seeds[i..AnnouncedEnd(seeds, k)]
  {
    TrainContinues(seeds, i, mode, budget, tries, watches, events, slept);
    var e := AnnouncedEnd(seeds, FirstBadSeed(seeds, i + 1, mode, budget, tries, watches));
    assert [seeds[i]] + seeds[i + 1..e] == seeds[i..e];
  }

  /** A seed that plays announces itself and hands over to the next seed. */
  lemma TrainContinues(seeds: seq<string>, i: nat, mode: Mode, budget: Budget, tries: int,
                       watches: nat -> WatchInput, events: seq<Event>, slept: seq<real>)
    requires i < |seeds| && WatchedOk(seeds, i, mode, budget, tries, watches)
    ensures var w := WatchSpec(seeds[i], mode, budget, tries, watches(i));
      var ev := events + [TrainingProgress(i + 1, |seeds|, seeds[i])] + w.events;
      && TrainFrom(seeds, i, mode, budget, tries, watches, events, slept)
         == TrainFrom(seeds, i + 1, mode, budget, tries, watches, ev, slept + w.slept)
      && ProgressIds(ev) == ProgressIds(events) + [seeds[i]]
      && FirstBadSeed(seeds, i, mode, budget, tries, watches) == FirstBadSeed(seeds, i + 1, mode, budget, tries, watches)
  {
    var w := WatchSpec(seeds[i], mode, budget, tries, watches(i));
    WatchAnnouncesNothing(seeds[i], mode, budget, tries, watches(i));
    TrainStepAnnounces(events, TrainingProgress(i + 1, |seeds|, seeds[i]), w.events, seeds[i]);
  }

  /** A seed that does not play ends training right after announcing it. */
  lemma TrainAnnouncesStop(seeds: seq<string>, i: nat, mode: Mode, budget: Budget, tries: int,
                           watches: nat -> WatchInput, events: seq<Event>, slept: seq<real>)
    requires i < |seeds| && !WatchedOk(seeds, i, mode, budget, tries, watches)
    ensures ProgressIds(TrainFrom(seeds, i, mode, budget, tries, watches, events, slept).events)
      == ProgressIds(events) + seeds[i..i + 1]
  {
    var w := WatchSpec(seeds[i], mode, budget, tries, watches(i));
    var ev := events + [TrainingProgress(i + 1, |seeds|, seeds[i])] + w.events;
    WatchAnnouncesNothing(seeds[i], mode, budget, tries, watches(i));
    TrainStepAnnounces(events, TrainingProgress(i + 1, |seeds|, seeds[i]), w.events, seeds[i]);
    assert seeds[i..i + 1] == [seeds[i]];
    ProgressIdsAppend(ev, [TrainingFailed(seeds[i])]);
    NoProgressIds([TrainingFailed(seeds[i])]);
  }

  /** How the reason of a restricted video was read. */
  datatype ReasonRead =
    | Text(text: string)   // the reason element's text
    | NotFound             // the exception the copy catches locally (the reason falls back)
    | ReadError            // any other exception, caught by the outer handler

  /** What the restriction check found on the new video. */
  datatype Restriction =
    | NotShown                                  // the error renderer is hidden
    | DetectionFailed                           // locating the renderer raised
    | Shown(reason: ReasonRead, dismissed: bool)  // visible; whether the dismiss click worked

  /** What the driver does during one iteration of the collection loop. */
  datatype Hop = Hop(
    pressed: bool,                                   // the next-video key press worked
    urlChanged: bool,                                // the URL changed within the wait
    url: string,                                     // the URL after the change
    restriction: Restriction,
    sidebar: nat -> Option<seq<string>>,             // per retry of `GetSidebar`
    preload: nat -> Option<seq<Option<string>>>,     // per retry of `GetPreloadRec`
    duration: DurationRead)

  const UnknownReason: string := "unknown(error)"

  function ReasonText(r: ReasonRead): string
    requires !r.ReadError?
  {
    if r.Text? then r.text else UnknownReason
  }

  /** `"sign in" in reason.lower()`. */
  predicate NeedsSignIn(reason: string)
  {
    Contains(Lower(reason), "sign in")
  }

  /** The sign-in test ignores case: it holds exactly when "sign in" occurs in the
      reason with any mix of capitals. */
  lemma SignInIgnoresCase(reason: string)
    ensures NeedsSignIn(reason) <==> exists k: nat | k <= |reason| :: OccursIgnoringCase(reason, "sign in", k)
  {
    assert Lower("sign in") == "sign in";
    LowerContains(reason, "sign in");
  }

  datatype Restricted = Restricted(url: string, reason: string)

  /** The four lists a session collects. */
  datatype Collections = Collections(path: seq<string>, sidebars: seq<seq<string>>,
                                     preloads: seq<seq<string>>, restricted: seq<Restricted>)

  /** Which `GetPreloadRec` a copy has: youtubeaudit's, or longstoryshort/core.py's,
      whose helper name does not resolve. */
  datatype Copy = Current | Unresolved

  function PreloadFor(copy: Copy, tries: int, read: nat -> Option<seq<Option<string>>>): seq<string>
  {
    if copy == Current then PreloadResult(tries, read) else UnresolvedPreloadResult(tries, read)
  }

  /** The fixed parameters of one `Run`: `collect_video_num`, the mode, the budget in
      force, the auditor's `err_attempts` (the getters' retry count) and the copy. */
  datatype RunConfig = RunConfig(n: nat, mode: Mode, budget: Budget, tries: int, copy: Copy)

  /** The loop variables and everything the loop has produced so far. */
  datatype RunState = RunState(count: int, err: int, step: nat, c: Collections,
                               events: seq<Event>, slept: seq<real>)

  datatype StepResult = Stop(code: int, st: RunState) | Next(st: RunState)

  /** The restriction check of one hop: the collections and events after it, and whether
      the hop must end the run (a reason that asks to sign in). */
  function RestrictionStep(url: string, r: Restriction, c: Collections, events: seq<Event>): (Collections, seq<Event>, bool)
  {
    match r
    case Shown(reason, _) =>
      if reason.ReadError? then (c, events, false)
      else
        var text := ReasonText(reason);
        (c.(restricted := c.restricted + [Restricted(url, text)]),
         events + [RestrictedVideo(url, text)],
         NeedsSignIn(text))
    case _ => (c, events, false)
  }

  /** The hop's recommendation list goes to `preloads` in short mode and to `sidebars`
      in long mode. */
  function RecordBatch(cfg: RunConfig, h: Hop, c: Collections): Collections
  {
    if cfg.mode == Short then c.(preloads := c.preloads + [PreloadFor(cfg.copy, cfg.tries, h.preload)])
    else c.(sidebars := c.sidebars + [SidebarResult(cfg.tries, h.sidebar)])
  }

  /** One iteration of the `while count > 0 and err_attempts > 0` loop. */
  function Step(cfg: RunConfig, hops: nat -> Hop, st: RunState): StepResult
  {
    var h := hops(st.step);
    var ev := st.events + [CollectionProgress(cfg.n - st.count + 1, cfg.n)];
    if !h.pressed then
      Stop(-1, st.(step := st.step + 1, events := ev + [CollectionFailed("next_button_failed")]))
    else if !h.urlChanged then
      Next(st.(err := st.err - 1, step := st.step + 1, events := ev))
    else
      var (c1, ev1, signIn) := RestrictionStep(h.url, h.restriction, st.c, ev);
      if signIn then Stop(-1, st.(step := st.step + 1, c := c1, events := ev1))
      else
        var c2 := RecordBatch(cfg, h, c1);
        Next(RunState(st.count - 1, st.err, st.step + 1, c2.(path := c2.path + [h.url]), ev1,
                      st.slept + [Sleep(HopWait(cfg.budget, h.duration))]))
  }

  /** After the loop: -1 when the URL retries ran out, 0 otherwise. */
  function Finish(cfg: RunConfig, st: RunState): (int, RunState)
  {
    if st.err <= 0 then (-1, st.(events := st.events + [CollectionFailed("too_many_retries")]))
    else (0, st.(events := st.events + [CollectionComplete(cfg.n - st.count)]))
  }

  function RunMeasure(st: RunState): nat
  {
    if st.count > 0 && st.err > 0 then st.count + st.err else 0
  }

  /** The collection loop from state `st` to its return code and final state. */
  function RunFrom(cfg: RunConfig, hops: nat -> Hop, st: RunState): (int, RunState)
    decreases RunMeasure(st)
  {
    if !(st.count > 0 && st.err > 0) then Finish(cfg, st)
    else
      match Step(cfg, hops, st)
      case Stop(code, s) => (code, s)
      case Next(s) =>
        assert RunMeasure(s) < RunMeasure(st);
        RunFrom(cfg, hops, s)
  }

  /** One unfolding of `RunFrom` inside the loop. */
  lemma RunUnfold(cfg: RunConfig, hops: nat -> Hop, st: RunState)
    requires st.count > 0 && st.err > 0
    ensures var r := Step(cfg, hops, st);
      && (r.Stop? ==> RunFrom(cfg, hops, st) == (r.code, r.st))
      && (r.Next? ==> RunFrom(cfg, hops, st) == RunFrom(cfg, hops, r.st))
  {
  }

  /** The state `Run` starts its loop in. */
  function RunStart(cfg: RunConfig, errAttempts: int, c: Collections, events: seq<Event>, slept: seq<real>): RunState
  {
    RunState(cfg.n, errAttempts, 0, c, events + [CollectionStarted(cfg.n, cfg.mode)], slept)
  }

  /** `c2` extends `c1`: every list only grew at its end. */
  predicate Extends(c1: Collections, c2: Collections)
  {
    && c1.path <= c2.path && c1.sidebars <= c2.sidebars
    && c1.preloads <= c2.preloads && c1.restricted <= c2.restricted
  }

  /** What a run collected: one path entry per collected hop, and one recommendation
      list per collected hop in the list of the session's mode and none in the other. */
  predicate Collected(cfg: RunConfig, st: RunState, f: RunState)
  {
    && 0 <= f.count <= st.count
    && Extends(st.c, f.c)
    && |f.c.path| == |st.c.path| + (st.count - f.count)
    && |f.c.sidebars| == |st.c.sidebars| + (if cfg.mode == Long then st.count - f.count else 0)
    && |f.c.preloads| == |st.c.preloads| + (if cfg.mode == Short then st.count - f.count else 0)
  }

  /** A step never shrinks a list and collects at most one hop. */
  lemma StepCollects(cfg: RunConfig, hops: nat -> Hop, st: RunState)
    requires st.count > 0
    ensures var s := Step(cfg, hops, st).st; Collected(cfg, st, s) && st.count - s.count <= 1
  {
  }

  /** The run returns 0 or -1. It returns 0 only when every hop was collected, and then
      `path` has grown by exactly `collect_video_num`; it returns -1 whenever the URL
      retries ran out. Throughout, each collected hop added one URL to `path` and one
      list to the mode's recommendation list. */
  lemma {:induction false} RunAccounting(cfg: RunConfig, hops: nat -> Hop, st: RunState)
    requires st.count >= 0
    ensures var (code, f) := RunFrom(cfg, hops, st);
      && (code == 0 || code == -1)
      && Collected(cfg, st, f)
      && (code == 0 ==> f.count == 0 && |f.c.path| == |st.c.path| + st.count)
      && (f.err <= 0 ==> code == -1)
    decreases RunMeasure(st)
  {
    if st.count > 0 && st.err > 0 {
      StepCollects(cfg, hops, st);
      match Step(cfg, hops, st)
      case Stop(code, s) =>
      case Next(s) =>
        RunAccounting(cfg, hops, s);
    }
  }

  /** A URL that does not change costs one retry and nothing else: no hop is consumed and
      nothing is collected. */
  lemma TimeoutStep(cfg: RunConfig, hops: nat -> Hop, st: RunState)
    requires hops(st.step).pressed && !hops(st.step).urlChanged
    ensures Step(cfg, hops, st) == Next(st.(err := st.err - 1, step := st.step + 1,
      events := st.events + [CollectionProgress(cfg.n - st.count + 1, cfg.n)]))
  {
  }

  /** A restricted video whose reason asks to sign in is recorded with its reason and ends
      the run with -1 before its URL reaches `path`; a reason that cannot be found (but
      did not raise otherwise) is recorded as "unknown(error)". */
  lemma SignInStep(cfg: RunConfig, hops: nat -> Hop, st: RunState)
    requires var h := hops(st.step);
      h.pressed && h.urlChanged && h.restriction.Shown? && !h.restriction.reason.ReadError?
    ensures var h := hops(st.step);
      var reason := ReasonText(h.restriction.reason);
      var r := Step(cfg, hops, st);
      && (h.restriction.reason.NotFound? ==> reason == UnknownReason)
      && r.st.c.restricted == st.c.restricted + [Restricted(h.url, reason)]
      && RestrictedVideo(h.url, reason) in r.st.events
      && (NeedsSignIn(reason) <==> r.Stop?)
      && (NeedsSignIn(reason) ==> r.code == -1 && r.st.c.path == st.c.path && r.st.count == st.count)
      && (!NeedsSignIn(reason) ==> r.st.c.path == st.c.path + [h.url] && r.st.count == st.count - 1)
  {
  }

  /** A restriction check that raised, or a reason that raised anything but the caught
      exception, is swallowed: the hop is collected as if no restriction was shown. */
  lemma SwallowedDetection(cfg: RunConfig, hops: nat -> Hop, st: RunState)
    requires var h := hops(st.step);
      h.pressed && h.urlChanged
      && (h.restriction.DetectionFailed? || (h.restriction.Shown? && h.restriction.reason.ReadError?))
    ensures var h := hops(st.step);
      var plain := hops(st.step).(restriction := NotShown);
      Step(cfg, hops, st) == Step(cfg, (k: nat) => if k == st.step then plain else hops(k), st)
  {
  }

  /** What `Report()` returns. */
  datatype Report = Report(trainingIds: seq<string>, seedId: Option<string>, playerMode: Option<Mode>,
                           maxDuration: Option<Budget>, recommendations: Collections)

  /** `Report()`: every seed but the last as training ids (none for fewer than two
      seeds), the last seed as the seed id, and the collections as stored. */
  function MakeReport(seeds: seq<string>, mode: Option<Mode>, budget: Option<Budget>, c: Collections): Report
  {
    Report(if |seeds| > 1 then seeds[..|seeds| - 1] else [],
           if seeds != [] then Some(seeds[|seeds| - 1]) else None,
           mode, budget, c)
  }

  /** The report splits the seeds into training ids and the seed id without losing or
      reordering any, and hands back the collections and settings unchanged. */
  lemma ReportProperties(seeds: seq<string>, mode: Option<Mode>, budget: Option<Budget>, c: Collections)
    ensures var r := MakeReport(seeds, mode, budget, c);
      && (r.seedId.None? <==> seeds == [])
      && (seeds != [] ==> r.trainingIds + [r.seedId.value] == seeds)
      && (|seeds| <= 1 ==> r.trainingIds == [])
      && r.recommendations == c && r.playerMode == mode && r.maxDuration == budget
  {
    if |seeds| == 1 {
      assert [] + [seeds[0]] == seeds;
    } else if |seeds| > 1 {
      assert seeds[..|seeds| - 1] + [seeds[|seeds| - 1]] == seeds;
    }
  }
}
