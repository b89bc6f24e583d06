/**
 What holds of every run of the heartbeat subscriber, and the two runs in which
 it does not do what its comments say.
 */
module HeartbeatTheorems {
  import opened Wrappers
  import opened HeartbeatSubscribers

  lemma {:induction false} RunKeeps(cfg: Config, s: Subscriber, events: seq<Event>)
    requires SubscriberOk(cfg, s)
    ensures SubscriberOk(cfg, RunFrom(cfg, s, events))
  {
    if events != [] {
      RunKeeps(cfg, s, events[..|events| - 1]);
      StepKeeps(cfg, RunFrom(cfg, s, events[..|events| - 1]), events[|events| - 1]);
    }
  }

  // ---------- ownership ----------

  /**
   The loop that `abort()` and `drop()` would reach is live, and it is the only
   one that is unfinished and was neither aborted nor dropped. So `abort()`
   leaves no such loop, and neither does `drop()`.
   */
  lemma LoopIsOwned(cfg: Config, events: seq<Event>)
    ensures var s := Run(cfg, events);
            && (s.abortController.Some? ==> Drives(s, s.abortController.value) && s.abortController.value == s.generation)
            && (forall g :: Drives(s, g) && !s.loops[g].dropped ==> s.abortController == Some(g))
            && (forall g :: Drives(Abort(s), g) ==> s.loops[g].dropped)
            && (forall g :: Drives(Drop(s), g) ==> Drop(s).loops[g].dropped)
  {
    RunKeeps(cfg, FRESH, events);
    AbortKeeps(cfg, Run(cfg, events));
    DropKeeps(cfg, Run(cfg, events));
  }

  // ---------- aborted loops are silent ----------

  /** What time does to a loop. */
  ghost predicate Ages(l: Loop, r: Loop) {
    && r.origin == l.origin && r.retryBudget == l.retryBudget
    && (l.aborted ==> r.aborted && r.monitorCalls == l.monitorCalls)
    && (l.phase.Finished? ==> r == l.(dropped := r.dropped, aborted := r.aborted))
    && (l.dropped ==> r.dropped)
  }

  ghost predicate AllAge(s: Subscriber, r: Subscriber) {
    forall g :: g in s.loops ==> g in r.loops && Ages(s.loops[g], r.loops[g])
  }

  lemma StartAges(cfg: Config, s: Subscriber, gen: nat, budget: nat, origin: nat)
    requires gen !in s.loops
    ensures AllAge(s, StartLoop(cfg, s, gen, budget, origin))
  {
    var r := StartLoop(cfg, s, gen, budget, origin);
    assert forall g :: g in s.loops ==> g in r.loops && r.loops[g] == s.loops[g];
  }

  lemma ClaimedAges(cfg: Config, s: Subscriber, dropped: bool)
    requires SubscriberOk(cfg, s)
    ensures AllAge(s, Claimed(s, dropped))
  {
  }

  lemma SubscribeAges(cfg: Config, s: Subscriber, dropped: bool, budget: nat, origin: nat)
    requires SubscriberOk(cfg, s)
    ensures AllAge(s, SubscribeWithBudget(cfg, s.(retryTimer := None, dropped := dropped), budget, origin))
  {
    SubscribeClaims(cfg, s, dropped, budget, origin);
    ClaimedAges(cfg, s, dropped);
    if s.activeLoop.None? {
      StartAges(cfg, Claimed(s, dropped), s.generation + 1, budget, origin);
    }
  }

  lemma ResumeAges(cfg: Config, s: Subscriber, gen: nat)
    requires SubscriberOk(cfg, s)
    ensures AllAge(s, Resume(cfg, s, gen))
  {
    if gen in s.suspended && s.generation == gen {
      StartAges(cfg, s.(suspended := s.suspended - {gen}), gen, s.suspended[gen].retryBudget, s.suspended[gen].origin);
    }
  }

  lemma FinishAges(s: Subscriber, g: nat)
    requires Unfinished(s, g)
    ensures AllAge(s, FinishLoop(s, g)) && AllAge(s, FailLoop(s, g))
  {
    assert FailLoop(s, g).loops == FinishLoop(s, g).loops;
  }

  lemma EndAges(cfg: Config, s: Subscriber, g: nat)
    ensures AllAge(s, Step(cfg, s, Fails(g))) && AllAge(s, Step(cfg, s, Ends(g)))
  {
    if Unfinished(s, g) {
      FinishAges(s, g);
    }
  }

  lemma StopAges(cfg: Config, s: Subscriber)
    requires SubscriberOk(cfg, s)
    ensures AllAge(s, Abort(s)) && AllAge(s, Drop(s))
  {
  }

  lemma StreamAges(s: Subscriber, g: nat, e: StreamEvent)
    ensures AllAge(s, StreamOpens(s, g)) && AllAge(s, Deliver(s, g, e))
  {
    assert forall h :: h in s.loops && h != g ==> Deliver(s, g, e).loops[h] == s.loops[h];
  }

  lemma RetryAges(cfg: Config, s: Subscriber)
    requires SubscriberOk(cfg, s)
    ensures AllAge(s, RetryFires(cfg, s))
  {
    if s.retryTimer.Some? && s.retryTimer.value.retryBudget > 0 {
      SubscribeAges(cfg, s, s.dropped, s.retryTimer.value.retryBudget - 1, s.retryTimer.value.origin);
    }
  }

  lemma PublicAges(cfg: Config, s: Subscriber)
    requires SubscriberOk(cfg, s)
    ensures AllAge(s, Subscribe(cfg, s))
  {
    SubscribeAges(cfg, s, false, cfg.maxRetries, s.generation + 1);
  }

  lemma StepAges(cfg: Config, s: Subscriber, e: Event)
    requires SubscriberOk(cfg, s)
    ensures AllAge(s, Step(cfg, s, e))
  {
    match e
    case PublicSubscribe => PublicAges(cfg, s);
    case PublicAbort => StopAges(cfg, s);
    case PublicDrop => StopAges(cfg, s);
    case RetryTimer => RetryAges(cfg, s);
    case Resumes(gen) => ResumeAges(cfg, s, gen);
    case Opens(g) => StreamAges(s, g, OtherEvent);
    case Delivers(g, event) => StreamAges(s, g, event);
    case Ends(g) => EndAges(cfg, s, g);
    case Fails(g) => EndAges(cfg, s, g);
  }

  lemma {:induction false} RunAges(cfg: Config, s: Subscriber, events: seq<Event>)
    requires SubscriberOk(cfg, s)
    ensures AllAge(s, RunFrom(cfg, s, events))
  {
    if events != [] {
      var init := events[..|events| - 1];
      RunAges(cfg, s, init);
      RunKeeps(cfg, s, init);
      StepAges(cfg, RunFrom(cfg, s, init), events[|events| - 1]);
    }
  }

  lemma {:induction false} RunSplits(cfg: Config, s: Subscriber, front: seq<Event>, back: seq<Event>)
    ensures RunFrom(cfg, s, front + back) == RunFrom(cfg, RunFrom(cfg, s, front), back)
  {
    if back == [] {
      assert front + back == front;
    } else {
      assert (front + back)[..|front + back| - 1] == front + back[..|back| - 1];
      RunSplits(cfg, s, front, back[..|back| - 1]);
    }
  }

  /** Once a loop's signal is aborted, the loop makes no further call to the monitor. */
  lemma AbortedIsSilent(cfg: Config, before: seq<Event>, after: seq<Event>, g: nat)
    requires g in Run(cfg, before).loops && Run(cfg, before).loops[g].aborted
    ensures var s := Run(cfg, before + after);
            && g in s.loops && s.loops[g].aborted
            && s.loops[g].monitorCalls == Run(cfg, before).loops[g].monitorCalls
  {
    RunKeeps(cfg, FRESH, before);
    RunAges(cfg, Run(cfg, before), after);
    RunSplits(cfg, FRESH, before, after);
  }

  // ---------- retries ----------

  ghost function LoopsOf(s: Subscriber, origin: nat): set<nat> {
    set g | g in s.loops && s.loops[g].origin == origin
  }

  function Range(from: nat, n: nat): (r: set<nat>)
    ensures |r| == n
    ensures forall g :: g in r <==> from <= g < from + n
  {
    if n == 0 then {} else Range(from, n - 1) + {from + n - 1}
  }

  lemma SubsetSize(a: set<nat>, b: set<nat>)
    requires a <= b
    ensures |a| <= |b|
  {
    assert b == a + (b - a);
  }

  /**
   Each public `subscribe()` starts at most one loop and `maxRetries` retries;
   an armed retry is that of the newest generation, and never outlives a `drop()`.
   */
  lemma RetriesAreBounded(cfg: Config, events: seq<Event>, origin: nat)
    ensures var s := Run(cfg, events);
            && |LoopsOf(s, origin)| <= 1 + cfg.maxRetries
            && (s.retryTimer.Some? ==> s.retryTimer.value.gen == s.generation && !s.dropped)
            && (origin in s.loops && s.loops[origin].origin == origin ==> s.loops[origin].retryBudget == cfg.maxRetries)
  {
    var s := Run(cfg, events);
    RunKeeps(cfg, FRESH, events);
    SubsetSize(LoopsOf(s, origin), Range(origin, 1 + cfg.maxRetries));
  }

  lemma FailArms(cfg: Config, s: Subscriber, g: nat)
    requires SubscriberOk(cfg, s) && Unfinished(s, g) && s.retryTimer.None?
    ensures FailLoop(s, g).retryTimer.Some? <==>
              s.abortController == Some(g) && !s.dropped && !s.loops[g].receivedConfig && s.loops[g].retryBudget > 0
    ensures FailLoop(s, g).retryTimer.Some? ==>
              && FailLoop(s, g).retryTimer.value == Retry(g, s.loops[g].retryBudget, s.loops[g].origin)
              && FailLoop(s, g).generation == g && FailLoop(s, g).activeLoop.None?
  {
  }

  lemma RetryStarts(cfg: Config, s: Subscriber)
    requires SubscriberOk(cfg, s) && s.retryTimer.Some? && s.activeLoop.None? && s.generation + 1 !in cfg.linkFaults
    ensures var t := RetryFires(cfg, s);
            var g := s.generation + 1;
            && Drives(t, g) && t.abortController == Some(g)
            && t.loops[g].retryBudget == s.retryTimer.value.retryBudget - 1
            && t.loops[g].origin == s.retryTimer.value.origin
  {
  }

  /**
   A stream that fails is retried if and only if it was still the live one, had
   not delivered its config, and the budget of its subscribe is not used up.
   The retry then runs one loop of the next generation with one try less.
   */
  lemma FailureIsRetriedIff(cfg: Config, events: seq<Event>, g: nat)
    requires Unfinished(Run(cfg, events), g) && Run(cfg, events).retryTimer.None?
    ensures var s := Run(cfg, events);
            var r := FailLoop(s, g);
            && (r.retryTimer.Some? <==>
                  s.abortController == Some(g) && !s.dropped && !s.loops[g].receivedConfig && s.loops[g].retryBudget > 0)
            && (r.retryTimer.Some? && g + 1 !in cfg.linkFaults ==>
                  var t := RetryFires(cfg, r);
                  && Drives(t, g + 1) && t.abortController == Some(g + 1)
                  && t.loops[g + 1].retryBudget == s.loops[g].retryBudget - 1
                  && t.loops[g + 1].origin == s.loops[g].origin)
  {
    var s := Run(cfg, events);
    RunKeeps(cfg, FRESH, events);
    FailKeeps(cfg, s, g);
    FailArms(cfg, s, g);
    var r := FailLoop(s, g);
    if r.retryTimer.Some? && g + 1 !in cfg.linkFaults {
      RetryStarts(cfg, r);
    }
  }

  // ---------- one driver at a time ----------

  /** At most one loop hands events to the monitor. */
  ghost predicate OneDriver(s: Subscriber) {
    forall g, h :: Drives(s, g) && Drives(s, h) ==> g == h
  }

  /** `r` is `s` after steps that started no loop. */
  ghost predicate Quieter(s: Subscriber, r: Subscriber) {
    && (forall g :: Drives(r, g) ==> Drives(s, g))
    && r.startedBesideDropped == s.startedBesideDropped
  }

  /** A start makes a second driver exactly when it is recorded as having done so. */
  ghost predicate Overlaps(s: Subscriber, r: Subscriber) {
    && (r.startedBesideDropped || !OneDriver(s) || OneDriver(r))
    && (r.startedBesideDropped ==> s.startedBesideDropped || !OneDriver(r))
    && (s.startedBesideDropped ==> r.startedBesideDropped)
  }

  lemma StartDrives(cfg: Config, s: Subscriber, gen: nat, budget: nat, origin: nat)
    requires gen !in s.loops
    ensures var r := StartLoop(cfg, s, gen, budget, origin);
            && (forall g :: Drives(r, g) ==> Drives(s, g) || (g == gen && gen !in cfg.linkFaults))
            && (forall g :: Drives(s, g) ==> Drives(r, g))
            && (gen !in cfg.linkFaults ==> Drives(r, gen))
            && r.startedBesideDropped == (s.startedBesideDropped || (Draining(s) && gen !in cfg.linkFaults))
  {
  }

  /** Before a start, whoever still drives the monitor was released. */
  lemma OnlyReleasedDrive(cfg: Config, s: Subscriber, gen: nat, budget: nat, origin: nat, g: nat)
    requires MayStart(cfg, s, gen, budget, origin) && Drives(s, g)
    ensures s.loops[g].dropped && Draining(s) && g != gen
  {
  }

  lemma StartOverlaps(cfg: Config, s: Subscriber, gen: nat, budget: nat, origin: nat)
    requires MayStart(cfg, s, gen, budget, origin)
    ensures Overlaps(s, StartLoop(cfg, s, gen, budget, origin))
  {
    hide StartLoop, SubscriberOk;
    StartDrives(cfg, s, gen, budget, origin);
    forall g | Drives(s, g) ensures Draining(s) && g != gen {
      OnlyReleasedDrive(cfg, s, gen, budget, origin, g);
    }
    if Draining(s) {
      var d :| Drives(s, d) && s.loops[d].dropped;
      assert d != gen;
    }
  }

  lemma ClaimedQuieter(cfg: Config, s: Subscriber, dropped: bool)
    requires SubscriberOk(cfg, s)
    ensures Quieter(s, Claimed(s, dropped))
    ensures s.activeLoop.None? ==> Quieter(Claimed(s, dropped), s)
  {
  }

  lemma QuieterOverlaps(s: Subscriber, r: Subscriber)
    requires Quieter(s, r)
    ensures Overlaps(s, r)
  {
  }

  /** Changing no driver before a start makes no difference. */
  lemma SameDriversOverlap(s: Subscriber, t: Subscriber, r: Subscriber)
    requires Quieter(s, t) && Quieter(t, s) && Overlaps(t, r)
    ensures Overlaps(s, r)
  {
  }

  lemma SuspendOverlaps(s: Subscriber, t: Subscriber, gen: nat, b: Suspended)
    requires Quieter(s, t)
    ensures Overlaps(s, t.(suspended := t.suspended[gen := b]))
  {
    assert Quieter(t, t.(suspended := t.suspended[gen := b]));
    QuieterOverlaps(s, t.(suspended := t.suspended[gen := b]));
  }

  lemma FreshStartOverlaps(cfg: Config, s: Subscriber, dropped: bool, budget: nat, origin: nat)
    requires SubscriberOk(cfg, s) && s.activeLoop.None?
    requires InChain(cfg, s.generation + 1, origin, budget)
    ensures Overlaps(s, StartLoop(cfg, Claimed(s, dropped), s.generation + 1, budget, origin))
  {
    ClaimedKeeps(cfg, s, dropped);
    ClaimedQuieter(cfg, s, dropped);
    StartOverlaps(cfg, Claimed(s, dropped), s.generation + 1, budget, origin);
    SameDriversOverlap(s, Claimed(s, dropped), StartLoop(cfg, Claimed(s, dropped), s.generation + 1, budget, origin));
  }

  lemma SubscribeOverlaps(cfg: Config, s: Subscriber, dropped: bool, budget: nat, origin: nat)
    requires SubscriberOk(cfg, s)
    requires InChain(cfg, s.generation + 1, origin, budget)
    ensures Overlaps(s, SubscribeWithBudget(cfg, s.(retryTimer := None, dropped := dropped), budget, origin))
  {
    hide StartLoop, Overlaps;
    SubscribeClaims(cfg, s, dropped, budget, origin);
    if s.activeLoop.None? {
      FreshStartOverlaps(cfg, s, dropped, budget, origin);
    } else {
      ClaimedQuieter(cfg, s, dropped);
      SuspendOverlaps(s, Claimed(s, dropped), s.generation + 1, Suspended(s.activeLoop.value, budget, origin));
    }
  }

  lemma ResumeOverlaps(cfg: Config, s: Subscriber, gen: nat)
    requires SubscriberOk(cfg, s)
    ensures Overlaps(s, Resume(cfg, s, gen))
  {
    var t := s.(suspended := s.suspended - {gen});
    assert Quieter(s, t) && Quieter(t, s) && Quieter(s, s);
    if gen in s.suspended && !Unfinished(s, s.suspended[gen].prior) && s.generation == gen {
      var b := s.suspended[gen];
      StartOverlaps(cfg, t, gen, b.retryBudget, b.origin);
      SameDriversOverlap(s, t, StartLoop(cfg, t, gen, b.retryBudget, b.origin));
    } else {
      QuieterOverlaps(s, s);
      QuieterOverlaps(s, t);
    }
  }

  lemma RetryOverlaps(cfg: Config, s: Subscriber)
    requires SubscriberOk(cfg, s)
    ensures Overlaps(s, RetryFires(cfg, s))
  {
    if s.retryTimer.Some? {
      SubscribeOverlaps(cfg, s, s.dropped, s.retryTimer.value.retryBudget - 1, s.retryTimer.value.origin);
    }
  }

  lemma StreamQuieter(cfg: Config, s: Subscriber, g: nat, e: StreamEvent)
    ensures Quieter(s, StreamOpens(s, g)) && Quieter(s, Deliver(s, g, e))
    ensures Quieter(s, Step(cfg, s, Ends(g))) && Quieter(s, Step(cfg, s, Fails(g)))
  {
  }

  lemma StopQuieter(s: Subscriber)
    ensures Quieter(s, Abort(s)) && Quieter(s, Drop(s))
  {
  }

  lemma StepOverlaps(cfg: Config, s: Subscriber, e: Event)
    requires SubscriberOk(cfg, s)
    ensures Overlaps(s, Step(cfg, s, e))
  {
    match e
    case PublicSubscribe => SubscribeOverlaps(cfg, s, false, cfg.maxRetries, s.generation + 1);
    case RetryTimer => RetryOverlaps(cfg, s);
    case Resumes(gen) => ResumeOverlaps(cfg, s, gen);
    case PublicAbort =>
      StopQuieter(s);
      QuieterOverlaps(s, Abort(s));
    case PublicDrop =>
      StopQuieter(s);
      QuieterOverlaps(s, Drop(s));
    case Opens(g) =>
      StreamQuieter(cfg, s, g, OtherEvent);
      QuieterOverlaps(s, StreamOpens(s, g));
    case Delivers(g, event) =>
      StreamQuieter(cfg, s, g, event);
      QuieterOverlaps(s, Deliver(s, g, event));
    case Ends(g) =>
      StreamQuieter(cfg, s, g, OtherEvent);
      QuieterOverlaps(s, Step(cfg, s, e));
    case Fails(g) =>
      StreamQuieter(cfg, s, g, OtherEvent);
      QuieterOverlaps(s, Step(cfg, s, e));
  }

  ghost predicate AlwaysOneDriver(cfg: Config, events: seq<Event>) {
    forall k :: 0 <= k <= |events| ==> OneDriver(Run(cfg, events[..k]))
  }

  lemma AlwaysSnoc(cfg: Config, events: seq<Event>, e: Event)
    ensures AlwaysOneDriver(cfg, events + [e]) <==> AlwaysOneDriver(cfg, events) && OneDriver(Run(cfg, events + [e]))
  {
    var all := events + [e];
    assert forall k :: 0 <= k <= |events| ==> all[..k] == events[..k];
    assert all[..|all|] == all;
  }

  lemma OverlapsNow(cfg: Config, events: seq<Event>, e: Event)
    ensures Overlaps(Run(cfg, events), Run(cfg, events + [e]))
  {
    assert (events + [e])[..|events|] == events;
    RunKeeps(cfg, FRESH, events);
    StepOverlaps(cfg, Run(cfg, events), e);
  }

  /** The history records the first moment at which two loops drive; `HeartbeatRaces` says which calls bring it about. */
  lemma {:induction false} OneDriverUntilRecorded(cfg: Config, events: seq<Event>)
    ensures AlwaysOneDriver(cfg, events) <==> !Run(cfg, events).startedBesideDropped
  {
    if events != [] {
      var init, e := events[..|events| - 1], events[|events| - 1];
      assert events == init + [e];
      OneDriverUntilRecorded(cfg, init);
      AlwaysSnoc(cfg, init, e);
      OverlapsNow(cfg, init, e);
      assert AlwaysOneDriver(cfg, init) ==> OneDriver(Run(cfg, init[..|init|]));
      assert init[..|init|] == init;
    }
  }

  // ---------- what a stop stops ----------

  predicate NoSubscribe(events: seq<Event>) {
    PublicSubscribe !in events
  }

  /** Nothing is left that could start a loop. */
  ghost predicate Stopped(s: Subscriber) {
    && s.retryTimer.None? && s.generation !in s.suspended
    && (Unfinished(s, s.generation) ==> s.loops[s.generation].aborted || s.dropped)
  }

  lemma StoppedStays(cfg: Config, s: Subscriber, e: Event)
    requires SubscriberOk(cfg, s) && Stopped(s) && !e.PublicSubscribe?
    ensures Stopped(Step(cfg, s, e)) && Step(cfg, s, e).loops.Keys == s.loops.Keys
  {
  }

  lemma {:induction false} StoppedForGood(cfg: Config, s: Subscriber, events: seq<Event>)
    requires SubscriberOk(cfg, s) && Stopped(s) && NoSubscribe(events)
    ensures Stopped(RunFrom(cfg, s, events)) && RunFrom(cfg, s, events).loops.Keys == s.loops.Keys
  {
    if events != [] {
      var init := events[..|events| - 1];
      StoppedForGood(cfg, s, init);
      RunKeeps(cfg, s, init);
      StoppedStays(cfg, RunFrom(cfg, s, init), events[|events| - 1]);
    }
  }

  lemma TwoEvents(cfg: Config, s: Subscriber, e: Event, f: Event)
    ensures RunFrom(cfg, s, [e, f]) == Step(cfg, Step(cfg, s, e), f)
  {
    assert [e, f][..1] == [e] && [e][..0] == [];
    assert RunFrom(cfg, s, [e]) == Step(cfg, s, e);
  }

  lemma PriorEnds(cfg: Config, s: Subscriber)
    requires SubscriberOk(cfg, s) && s.generation in s.suspended
    ensures var r := Step(cfg, s, Fails(s.suspended[s.generation].prior));
            && r.suspended == s.suspended && r.generation == s.generation && r.loops.Keys == s.loops.Keys
            && !Unfinished(r, s.suspended[s.generation].prior)
  {
  }

  /** The stop did not reach a subscribe that waits at the barrier: the loop starts after it. */
  lemma SuspendedStarts(cfg: Config, s: Subscriber)
    requires SubscriberOk(cfg, s) && s.generation in s.suspended
    ensures var events := [Fails(s.suspended[s.generation].prior), Resumes(s.generation)];
            RunFrom(cfg, s, events).loops.Keys == s.loops.Keys + {s.generation}
  {
    TwoEvents(cfg, s, Fails(s.suspended[s.generation].prior), Resumes(s.generation));
    PriorEnds(cfg, s);
    ResumeAdds(cfg, Step(cfg, s, Fails(s.suspended[s.generation].prior)));
  }

  lemma ResumeAdds(cfg: Config, s: Subscriber)
    requires s.generation in s.suspended && !Unfinished(s, s.suspended[s.generation].prior)
    ensures Resume(cfg, s, s.generation).loops.Keys == s.loops.Keys + {s.generation}
  {
    var t := s.(suspended := s.suspended - {s.generation});
    StartAdds(cfg, t, s.generation, s.suspended[s.generation].retryBudget, s.suspended[s.generation].origin);
  }

  lemma StartAdds(cfg: Config, s: Subscriber, gen: nat, budget: nat, origin: nat)
    ensures StartLoop(cfg, s, gen, budget, origin).loops.Keys == s.loops.Keys + {gen}
  {
    var t := Launch(s, gen, budget, origin, gen in cfg.linkFaults);
    assert t.loops.Keys == s.loops.Keys + {gen};
    assert FailLoop(t, gen).loops.Keys == t.loops.Keys;
  }

  /** After this, no loop starts until the next public `subscribe()`, whatever happens. */
  ghost predicate StartsNothing(cfg: Config, s: Subscriber) {
    forall events :: NoSubscribe(events) ==> RunFrom(cfg, s, events).loops.Keys == s.loops.Keys
  }

  /**
   `abort()` and `drop()` are final if and only if no subscribe of the newest
   generation is suspended at the barrier when they are called.
   */
  lemma StopIsFinalIff(cfg: Config, events: seq<Event>, drop: bool)
    ensures var s := Run(cfg, events);
            StartsNothing(cfg, if drop then Drop(s) else Abort(s)) <==> s.generation !in s.suspended
  {
    hide Step;
    var s := Run(cfg, events);
    var t := if drop then Drop(s) else Abort(s);
    RunKeeps(cfg, FRESH, events);
    AbortKeeps(cfg, s);
    DropKeeps(cfg, s);
    if s.generation in s.suspended {
      SuspendedStarts(cfg, t);
      var lost := [Fails(t.suspended[t.generation].prior), Resumes(t.generation)];
      assert NoSubscribe(lost) && t.generation !in t.loops;
      assert t.generation in RunFrom(cfg, t, lost).loops.Keys;
    } else {
      forall after | NoSubscribe(after) ensures RunFrom(cfg, t, after).loops.Keys == t.loops.Keys {
        StoppedForGood(cfg, t, after);
      }
    }
  }

  // ---------- runs that show both conditions bite ----------

  const CFG := Config(3, {})

  lemma RunSnoc(cfg: Config, events: seq<Event>, e: Event)
    ensures Run(cfg, events + [e]) == Step(cfg, Run(cfg, events), e)
  {
    assert (events + [e])[..|events|] == events;
  }

  function NewLoop(origin: nat): Loop {
    Loop(CFG.maxRetries, Calling, false, false, origin, false, 0)
  }

  lemma Subscribes()
    ensures Subscribe(CFG, FRESH) == FRESH.(generation := 1, abortController := Some(1), activeLoop := Some(1),
                                            loops := map[1 := NewLoop(1)])
  {
  }

  function Released(): Subscriber {
    FRESH.(generation := 1, activeLoop := Some(1), dropped := true, loops := map[1 := NewLoop(1).(dropped := true)])
  }

  lemma SubscribeAndDrop()
    ensures Run(CFG, [PublicSubscribe, PublicDrop]) == Released()
  {
    RunSnoc(CFG, [], PublicSubscribe);
    RunSnoc(CFG, [PublicSubscribe], PublicDrop);
    assert [] + [PublicSubscribe] == [PublicSubscribe];
    assert [PublicSubscribe] + [PublicDrop] == [PublicSubscribe, PublicDrop];
    Subscribes();
  }

  lemma ResubscribeTwice()
    ensures var s := Subscribe(CFG, Subscribe(CFG, Released()));
            Drives(s, 1) && Drives(s, 3) && s.abortController == Some(3)
  {
    var t := Subscribe(CFG, Released());
    assert t == Released().(generation := 2, activeLoop := None, dropped := false, suspended := map[2 := Suspended(1, 3, 2)]);
  }

  /**
   Two subscribes after a `drop()`: the first one takes the barrier's fields
   away, so the second starts its loop while the released loop still reads.
   */
  lemma TwoDrivers()
    ensures var s := Run(CFG, [PublicSubscribe, PublicDrop] + [PublicSubscribe] + [PublicSubscribe]);
            Drives(s, 1) && Drives(s, 3) && !OneDriver(s)
  {
    var events := [PublicSubscribe, PublicDrop];
    SubscribeAndDrop();
    RunSnoc(CFG, events, PublicSubscribe);
    RunSnoc(CFG, events + [PublicSubscribe], PublicSubscribe);
    ResubscribeTwice();
  }

  lemma SubscribedTwice()
    ensures Run(CFG, [PublicSubscribe, PublicSubscribe])
         == FRESH.(generation := 2, loops := map[1 := NewLoop(1).(aborted := true)], suspended := map[2 := Suspended(1, 3, 2)])
  {
    RunSnoc(CFG, [], PublicSubscribe);
    RunSnoc(CFG, [PublicSubscribe], PublicSubscribe);
    assert [] + [PublicSubscribe] == [PublicSubscribe];
    assert [PublicSubscribe] + [PublicSubscribe] == [PublicSubscribe, PublicSubscribe];
    Subscribes();
  }

  /** A `drop()` between two subscribes and the end of the first loop stops nothing. */
  lemma LostStop()
    ensures !StartsNothing(CFG, Drop(Run(CFG, [PublicSubscribe, PublicSubscribe])))
  {
    SubscribedTwice();
    StopIsFinalIff(CFG, [PublicSubscribe, PublicSubscribe], true);
  }
}
