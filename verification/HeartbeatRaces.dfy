/**
 When two loops drive the monitor at once: for any links in terms of the turn
 that starts the second one, and in terms of the calls alone where every link
 call gets as far as its first await.
 */
module HeartbeatRaces {
  import opened Wrappers
  import opened HeartbeatSubscribers
  import opened HeartbeatTheorems

  /** A released loop that still drives the monitor. */
  predicate Drains(s: Subscriber, d: nat) {
    Drives(s, d) && s.loops[d].dropped
  }

  /** The barrier would wait for `d`: either its fields are still there, or the newest subscribe waits already. */
  predicate Guarded(s: Subscriber, d: nat) {
    || s.activeLoop == Some(d)
    || (s.activeLoop.None? && s.abortController.None? && s.generation in s.suspended && s.suspended[s.generation].prior == d)
  }

  ghost predicate AllGuarded(s: Subscriber) {
    forall d :: Drains(s, d) ==> Guarded(s, d)
  }

  /** While a loop drains, only a public subscribe can start another, and only if one waits for it already. */
  lemma DrainingBlocks(cfg: Config, s: Subscriber, d: nat)
    requires SubscriberOk(cfg, s) && Drains(s, d) && Guarded(s, d)
    ensures s.retryTimer.None? && s.abortController.None?
    ensures s.generation in s.suspended ==> Unfinished(s, s.suspended[s.generation].prior)
    ensures s.activeLoop == Some(d) <==> s.generation == d
  {
  }

  lemma SubscribeGuards(cfg: Config, s: Subscriber)
    requires SubscriberOk(cfg, s) && AllGuarded(s) && cfg.linkFaults == {}
    ensures var r := Subscribe(cfg, s);
            && (!r.startedBesideDropped ==> AllGuarded(r))
            && (r.startedBesideDropped <==> s.startedBesideDropped || (s.activeLoop.None? && Draining(s)))
            && (forall d :: Drains(r, d) ==> Drains(s, d))
            && r.generation == s.generation + 1
  {
    hide StartLoop, SubscribeWithBudget;
    SubscribeClaims(cfg, s, false, cfg.maxRetries, s.generation + 1);
    var t := Claimed(s, false);
    ClaimedDrains(cfg, s, false);
    var r := Subscribe(cfg, s);
    if s.activeLoop.None? {
      StartDrains(cfg, t, t.generation, cfg.maxRetries, s.generation + 1);
      DrainingIs(s);
    } else {
      forall d | Drains(r, d) ensures Guarded(r, d) {
        assert Drains(t, d) && Drains(s, d);
      }
    }
  }

  lemma DrainingIs(s: Subscriber)
    ensures Draining(s) <==> exists d :: Drains(s, d)
  {
    if Draining(s) {
      var d :| Drives(s, d) && s.loops[d].dropped;
      assert Drains(s, d);
    }
    if d :| Drains(s, d) {
      assert Drives(s, d) && s.loops[d].dropped;
    }
  }

  lemma ClaimedDrains(cfg: Config, s: Subscriber, dropped: bool)
    requires SubscriberOk(cfg, s)
    ensures forall d :: Drains(Claimed(s, dropped), d) <==> Drains(s, d)
    ensures Draining(Claimed(s, dropped)) <==> Draining(s)
  {
    var t := Claimed(s, dropped);
    forall d ensures Drains(t, d) <==> Drains(s, d) {
      assert s.abortController == Some(d) ==> !s.loops[d].dropped;
    }
    DrainingIs(s);
    DrainingIs(t);
  }

  lemma StartDrains(cfg: Config, s: Subscriber, gen: nat, budget: nat, origin: nat)
    requires gen !in s.loops && cfg.linkFaults == {}
    ensures var r := StartLoop(cfg, s, gen, budget, origin);
            && (forall d :: Drains(r, d) <==> Drains(s, d))
            && (r.startedBesideDropped <==> s.startedBesideDropped || Draining(s))
            && r.generation == s.generation
  {
  }

  /** Steps that start nothing and release nothing. */
  lemma StreamGuards(cfg: Config, s: Subscriber, e: Event)
    requires SubscriberOk(cfg, s) && AllGuarded(s)
    requires e.Opens? || e.Delivers? || e.Ends? || e.Fails?
    ensures var r := Step(cfg, s, e);
            AllGuarded(r) && r.startedBesideDropped == s.startedBesideDropped
            && (forall d :: Drains(r, d) ==> Drains(s, d)) && r.generation == s.generation
  {
    var r := Step(cfg, s, e);
    forall d | Drains(r, d) ensures Drains(s, d) && Guarded(r, d) {
      StreamGuards1(cfg, s, e, d);
    }
  }

  lemma StreamGuards1(cfg: Config, s: Subscriber, e: Event, d: nat)
    requires SubscriberOk(cfg, s) && AllGuarded(s) && Drains(Step(cfg, s, e), d)
    requires e.Opens? || e.Delivers? || e.Ends? || e.Fails?
    ensures Drains(s, d) && Guarded(Step(cfg, s, e), d)
  {
    assert Drains(s, d) && Guarded(s, d);
  }

  lemma StopGuards(cfg: Config, s: Subscriber, drop: bool)
    requires SubscriberOk(cfg, s) && AllGuarded(s)
    ensures var r := if drop then Drop(s) else Abort(s);
            AllGuarded(r) && r.startedBesideDropped == s.startedBesideDropped && r.generation == s.generation
            && (forall d :: Drains(r, d) ==> Drains(s, d) || (drop && s.abortController == Some(d) && d == s.generation))
  {
    var r := if drop then Drop(s) else Abort(s);
    forall d | Drains(r, d) ensures Guarded(r, d) {
      if Drains(s, d) {
        DrainingBlocks(cfg, s, d);
      }
    }
  }

  lemma RetryGuards(cfg: Config, s: Subscriber)
    requires SubscriberOk(cfg, s) && AllGuarded(s) && cfg.linkFaults == {}
    ensures var r := RetryFires(cfg, s);
            AllGuarded(r) && r.startedBesideDropped == s.startedBesideDropped
            && (forall d :: Drains(r, d) ==> Drains(s, d) && r == s)
  {
    if s.retryTimer.Some? {
      forall d ensures !Drains(s, d) {
        if Drains(s, d) {
          DrainingBlocks(cfg, s, d);
        }
      }
      RetryStartsClean(cfg, s);
    }
  }

  lemma RetryStartsClean(cfg: Config, s: Subscriber)
    requires SubscriberOk(cfg, s) && s.retryTimer.Some? && cfg.linkFaults == {}
    requires forall d :: !Drains(s, d)
    ensures var r := RetryFires(cfg, s);
            r.startedBesideDropped == s.startedBesideDropped && forall d :: !Drains(r, d)
  {
    SubscribeClaims(cfg, s, s.dropped, s.retryTimer.value.retryBudget - 1, s.retryTimer.value.origin);
    var t := Claimed(s, s.dropped);
    assert forall d :: Drains(t, d) ==> Drains(s, d);
    DrainingIs(t);
    if s.activeLoop.None? {
      StartDrains(cfg, t, t.generation, s.retryTimer.value.retryBudget - 1, s.retryTimer.value.origin);
    }
  }

  lemma ResumeGuards(cfg: Config, s: Subscriber, gen: nat)
    requires SubscriberOk(cfg, s) && AllGuarded(s) && cfg.linkFaults == {}
    ensures var r := Resume(cfg, s, gen);
            AllGuarded(r) && r.startedBesideDropped == s.startedBesideDropped && r.generation == s.generation
            && (forall d :: Drains(r, d) ==> Drains(s, d))
  {
    if gen in s.suspended && !Unfinished(s, s.suspended[gen].prior) {
      var t := s.(suspended := s.suspended - {gen});
      if gen == s.generation {
        forall d ensures !Drains(s, d) {
          if Drains(s, d) {
            DrainingBlocks(cfg, s, d);
          }
        }
        forall d ensures !Drains(t, d) {
          assert Drains(t, d) ==> Drains(s, d);
        }
        DrainingIs(t);
        StartDrains(cfg, t, gen, s.suspended[gen].retryBudget, s.suspended[gen].origin);
      } else {
        forall d | Drains(t, d) ensures Guarded(t, d) {
          assert Drains(s, d) && Guarded(s, d);
        }
      }
    }
  }

  // ---------- the turns that start a loop ----------

  /** The generation whose loop turn `e` starts. */
  function Starts(s: Subscriber, e: Event): Option<nat> {
    match e
    case PublicSubscribe => if s.activeLoop.None? then Some(s.generation + 1) else None
    case RetryTimer =>
      if s.retryTimer.Some? && s.retryTimer.value.gen == s.generation && s.retryTimer.value.retryBudget > 0
         && s.activeLoop.None? then Some(s.generation + 1) else None
    case Resumes(gen) =>
      if gen in s.suspended && !Unfinished(s, s.suspended[gen].prior) && gen == s.generation then Some(gen) else None
    case _ => None
  }

  /** The turn starts a loop whose link call gets under way, while a released loop still drives the monitor. */
  ghost predicate StartsBeside(cfg: Config, s: Subscriber, e: Event) {
    Starts(s, e).Some? && Starts(s, e).value !in cfg.linkFaults && Draining(s)
  }

  /** Subscribing, with a barrier that stands or falls with `activeLoop`. */
  lemma ClaimRecords(cfg: Config, s: Subscriber, dropped: bool, budget: nat, origin: nat)
    requires SubscriberOk(cfg, s)
    ensures SubscribeWithBudget(cfg, s.(retryTimer := None, dropped := dropped), budget, origin).startedBesideDropped
       <==> s.startedBesideDropped || (s.activeLoop.None? && s.generation + 1 !in cfg.linkFaults && Draining(s))
  {
    hide StartLoop, Draining;
    var t := Claimed(s, dropped);
    SubscribeClaims(cfg, s, dropped, budget, origin);
    ClaimedDrains(cfg, s, dropped);
    ClaimedIsNew(cfg, s, dropped);
    if s.activeLoop.None? {
      StartDrives(cfg, t, t.generation, budget, origin);
    }
  }

  lemma ClaimedIsNew(cfg: Config, s: Subscriber, dropped: bool)
    requires SubscriberOk(cfg, s)
    ensures var t := Claimed(s, dropped);
            t.generation == s.generation + 1 && t.generation !in t.loops && t.startedBesideDropped == s.startedBesideDropped
  {
  }

  lemma ResumeRecords(cfg: Config, s: Subscriber, gen: nat)
    requires SubscriberOk(cfg, s)
    ensures Resume(cfg, s, gen).startedBesideDropped <==> s.startedBesideDropped || StartsBeside(cfg, s, Resumes(gen))
  {
    hide StartLoop;
    if Starts(s, Resumes(gen)).Some? {
      var t := s.(suspended := s.suspended - {gen});
      assert forall d :: Drains(t, d) <==> Drains(s, d);
      DrainingIs(s);
      DrainingIs(t);
      StartDrives(cfg, t, gen, s.suspended[gen].retryBudget, s.suspended[gen].origin);
    }
  }

  lemma TurnRecords(cfg: Config, s: Subscriber, e: Event)
    requires SubscriberOk(cfg, s)
    ensures Step(cfg, s, e).startedBesideDropped <==> s.startedBesideDropped || StartsBeside(cfg, s, e)
  {
    hide SubscribeWithBudget, Resume, SubscriberOk, Draining;
    match e
    case PublicSubscribe => ClaimRecords(cfg, s, false, cfg.maxRetries, s.generation + 1);
    case RetryTimer =>
      if s.retryTimer.Some? && s.retryTimer.value.retryBudget > 0 {
        ClaimRecords(cfg, s, s.dropped, s.retryTimer.value.retryBudget - 1, s.retryTimer.value.origin);
        assert s.(retryTimer := None) == s.(retryTimer := None, dropped := s.dropped);
      }
    case Resumes(gen) => ResumeRecords(cfg, s, gen);
    case _ =>
  }

  ghost predicate EverStartsBeside(cfg: Config, events: seq<Event>) {
    exists k :: 0 <= k < |events| && StartsBeside(cfg, Run(cfg, events[..k]), events[k])
  }

  lemma EverSnoc(cfg: Config, events: seq<Event>)
    requires events != []
    ensures var n := |events| - 1;
            EverStartsBeside(cfg, events) <==>
              EverStartsBeside(cfg, events[..n]) || StartsBeside(cfg, Run(cfg, events[..n]), events[n])
  {
    hide RunFrom, StartsBeside;
    var n := |events| - 1;
    assert forall k :: 0 <= k < n ==> events[..n][..k] == events[..k] && events[..n][k] == events[k];
    if EverStartsBeside(cfg, events[..n]) {
      var k :| 0 <= k < n && StartsBeside(cfg, Run(cfg, events[..n][..k]), events[..n][k]);
      assert StartsBeside(cfg, Run(cfg, events[..k]), events[k]);
    }
    if EverStartsBeside(cfg, events) {
      var k :| 0 <= k < |events| && StartsBeside(cfg, Run(cfg, events[..k]), events[k]);
      assert k < n ==> StartsBeside(cfg, Run(cfg, events[..n][..k]), events[..n][k]);
    }
  }

  lemma {:induction false} RunRecords(cfg: Config, events: seq<Event>)
    ensures Run(cfg, events).startedBesideDropped <==> EverStartsBeside(cfg, events)
  {
    hide Step, StartsBeside, EverStartsBeside, SubscriberOk;
    if events == [] {
      assert !EverStartsBeside(cfg, events) by { NothingStarted(cfg); }
    } else {
      var n := |events| - 1;
      RunRecords(cfg, events[..n]);
      RunKeeps(cfg, FRESH, events[..n]);
      TurnRecords(cfg, Run(cfg, events[..n]), events[n]);
      EverSnoc(cfg, events);
    }
  }

  lemma NothingStarted(cfg: Config)
    ensures !EverStartsBeside(cfg, [])
  {
  }

  /**
   A single consumption loop drives the monitor at every moment of a run if and
   only if no turn starts a loop, with a link call that gets under way, while a
   loop released by `drop()` still drives the monitor.
   */
  lemma OneDriverIff(cfg: Config, events: seq<Event>)
    ensures AlwaysOneDriver(cfg, events) <==> !EverStartsBeside(cfg, events)
  {
    RunRecords(cfg, events);
    OneDriverUntilRecorded(cfg, events);
  }

  // ---------- the calls that did it ----------

  /** Call `i` is a `drop()` that releases the live loop `d`. */
  ghost predicate Released(cfg: Config, events: seq<Event>, i: nat, d: nat) {
    i < |events| && events[i] == PublicDrop && Run(cfg, events[..i]).abortController == Some(d)
  }

  ghost predicate SubscribedSince(events: seq<Event>, i: nat) {
    exists j :: i < j < |events| && events[j] == PublicSubscribe
  }

  /** Some released loop still reads, and there has been a public subscribe since its release. */
  ghost predicate Overtakable(cfg: Config, events: seq<Event>) {
    exists d, i :: Released(cfg, events, i, d) && SubscribedSince(events, i) && Drives(Run(cfg, events), d)
  }

  /** How a draining loop came to be, as far as the calls go. */
  ghost predicate Recorded(cfg: Config, events: seq<Event>, d: nat) {
    exists i :: Released(cfg, events, i, d) && (Run(cfg, events).generation > d ==> SubscribedSince(events, i))
  }

  ghost predicate AllRecorded(cfg: Config, events: seq<Event>) {
    forall d :: Drains(Run(cfg, events), d) ==> Recorded(cfg, events, d)
  }

  lemma ReleasedStays(cfg: Config, events: seq<Event>, e: Event, i: nat, d: nat)
    requires Released(cfg, events, i, d)
    ensures Released(cfg, events + [e], i, d)
    ensures SubscribedSince(events, i) || e == PublicSubscribe ==> SubscribedSince(events + [e], i)
  {
    var all := events + [e];
    assert all[..i] == events[..i];
    if SubscribedSince(events, i) {
      var j :| i < j < |events| && events[j] == PublicSubscribe;
      assert all[j] == PublicSubscribe;
    } else if e == PublicSubscribe {
      assert all[|events|] == PublicSubscribe;
    }
  }

  lemma StartGeneration(cfg: Config, s: Subscriber, gen: nat, budget: nat, origin: nat)
    ensures StartLoop(cfg, s, gen, budget, origin).generation == s.generation
  {
  }

  lemma SubscribeGeneration(cfg: Config, s: Subscriber, budget: nat, origin: nat)
    ensures SubscribeWithBudget(cfg, s, budget, origin).generation == s.generation + 1
  {
    var gen := s.generation + 1;
    var claimed := s.(generation := gen);
    StartGeneration(cfg, claimed, gen, budget, origin);
    StartGeneration(cfg, Abort(claimed).(activeLoop := None), gen, budget, origin);
  }

  lemma GenerationStep(cfg: Config, s: Subscriber, e: Event)
    ensures Step(cfg, s, e).generation >= s.generation + if e == PublicSubscribe then 1 else 0
  {
    hide SubscribeWithBudget, StartLoop;
    match e
    case PublicSubscribe => SubscribeGeneration(cfg, s.(retryTimer := None, dropped := false), cfg.maxRetries, s.generation + 1);
    case RetryTimer =>
      if s.retryTimer.Some? && s.retryTimer.value.retryBudget > 0 {
        SubscribeGeneration(cfg, s.(retryTimer := None), s.retryTimer.value.retryBudget - 1, s.retryTimer.value.origin);
      }
    case Resumes(gen) =>
      if gen in s.suspended {
        StartGeneration(cfg, s.(suspended := s.suspended - {gen}), gen, s.suspended[gen].retryBudget, s.suspended[gen].origin);
      }
    case _ =>
  }

  lemma {:induction false} GenerationSince(cfg: Config, s: Subscriber, events: seq<Event>)
    ensures RunFrom(cfg, s, events).generation >= s.generation
    ensures PublicSubscribe in events ==> RunFrom(cfg, s, events).generation > s.generation
  {
    if events != [] {
      var n := |events| - 1;
      GenerationSince(cfg, s, events[..n]);
      GenerationStep(cfg, RunFrom(cfg, s, events[..n]), events[n]);
      assert events == events[..n] + [events[n]];
    }
  }

  lemma ReleaseMoment(cfg: Config, events: seq<Event>, i: nat, d: nat)
    requires Released(cfg, events, i, d)
    ensures var s := Run(cfg, events[..i + 1]);
            SubscriberOk(cfg, s) && d in s.loops && s.loops[d].dropped && s.generation == d
  {
    assert events[..i + 1] == events[..i] + [events[i]];
    RunSnoc(cfg, events[..i], events[i]);
    RunKeeps(cfg, FRESH, events[..i]);
    RunKeeps(cfg, FRESH, events[..i + 1]);
    DropMarks(cfg, Run(cfg, events[..i]), d);
  }

  lemma SubscribedAfter(events: seq<Event>, i: nat)
    requires i < |events| && SubscribedSince(events, i)
    ensures PublicSubscribe in events[i + 1..]
  {
    var j :| i < j < |events| && events[j] == PublicSubscribe;
    assert events[i + 1..][j - i - 1] == PublicSubscribe;
  }

  /** A released loop is older than every subscribe since, and stays marked. */
  lemma ReleasedIsOld(cfg: Config, events: seq<Event>, i: nat, d: nat)
    requires Released(cfg, events, i, d)
    ensures var s := Run(cfg, events);
            d in s.loops && s.loops[d].dropped && (SubscribedSince(events, i) ==> s.generation > d)
  {
    hide Drop, Abort, Step, SubscriberOk, RunFrom;
    ReleaseMoment(cfg, events, i, d);
    if SubscribedSince(events, i) {
      SubscribedAfter(events, i);
    }
    Later(cfg, events[..i + 1], events[i + 1..], d);
    assert events == events[..i + 1] + events[i + 1..];
  }

  lemma Later(cfg: Config, before: seq<Event>, after: seq<Event>, d: nat)
    requires SubscriberOk(cfg, Run(cfg, before)) && d in Run(cfg, before).loops && Run(cfg, before).loops[d].dropped
    ensures var r := Run(cfg, before + after);
            && d in r.loops && r.loops[d].dropped
            && (PublicSubscribe in after ==> r.generation > Run(cfg, before).generation)
  {
    RunSplits(cfg, FRESH, before, after);
    RunAges(cfg, Run(cfg, before), after);
    GenerationSince(cfg, Run(cfg, before), after);
  }

  lemma DropMarks(cfg: Config, s: Subscriber, d: nat)
    requires SubscriberOk(cfg, s) && s.abortController == Some(d)
    ensures d in Drop(s).loops && Drop(s).loops[d].dropped && Drop(s).generation == d
  {
  }

  /** In good order, the next public subscribe overtakes exactly when a loop drains and one waits for it. */
  lemma OvertakableIff(cfg: Config, events: seq<Event>)
    requires AllGuarded(Run(cfg, events)) && AllRecorded(cfg, events)
    ensures Overtakable(cfg, events) <==> Run(cfg, events).activeLoop.None? && Draining(Run(cfg, events))
  {
    var s := Run(cfg, events);
    RunKeeps(cfg, FRESH, events);
    DrainingIs(s);
    if Overtakable(cfg, events) {
      var d, i :| Released(cfg, events, i, d) && SubscribedSince(events, i) && Drives(s, d);
      ReleasedIsOld(cfg, events, i, d);
      assert Drains(s, d);
      DrainingBlocks(cfg, s, d);
    }
    if s.activeLoop.None? && Draining(s) {
      var d :| Drains(s, d);
      assert Guarded(s, d) && Recorded(cfg, events, d);
      var i :| Released(cfg, events, i, d) && (s.generation > d ==> SubscribedSince(events, i));
      assert Drives(s, d);
    }
  }

  /** One call further, while no loop has been overtaken. */
  lemma RecordedOn(cfg: Config, events: seq<Event>, e: Event)
    requires cfg.linkFaults == {} && AllGuarded(Run(cfg, events)) && AllRecorded(cfg, events)
    ensures var s, r := Run(cfg, events), Run(cfg, events + [e]);
            && (r.startedBesideDropped <==> s.startedBesideDropped || (e == PublicSubscribe && Overtakable(cfg, events)))
            && (!r.startedBesideDropped ==> AllGuarded(r) && AllRecorded(cfg, events + [e]))
  {
    var s, r := Run(cfg, events), Run(cfg, events + [e]);
    RunSnoc(cfg, events, e);
    RunKeeps(cfg, FRESH, events);
    OvertakableIff(cfg, events);
    CallGuards(cfg, s, e);
    if !r.startedBesideDropped {
      forall d | Drains(r, d) ensures Recorded(cfg, events + [e], d) {
        if Drains(s, d) {
          assert Recorded(cfg, events, d);
          var i :| Released(cfg, events, i, d) && (s.generation > d ==> SubscribedSince(events, i));
          ReleasedStays(cfg, events, e, i, d);
        } else {
          assert (events + [e])[..|events|] == events;
          assert Released(cfg, events + [e], |events|, d);
        }
      }
    }
  }

  /** What one call does to the loops that drain. */
  lemma CallGuards(cfg: Config, s: Subscriber, e: Event)
    requires SubscriberOk(cfg, s) && AllGuarded(s) && cfg.linkFaults == {}
    ensures var r := Step(cfg, s, e);
            && (r.startedBesideDropped <==>
                  s.startedBesideDropped || (e == PublicSubscribe && s.activeLoop.None? && Draining(s)))
            && (!r.startedBesideDropped ==> AllGuarded(r))
            && (forall d :: Drains(r, d) ==>
                  || (Drains(s, d) && (r.generation == s.generation || e == PublicSubscribe))
                  || (e == PublicDrop && s.abortController == Some(d) && r.generation == d))
  {
    match e
    case PublicSubscribe => SubscribeGuards(cfg, s);
    case PublicAbort => StopGuards(cfg, s, false);
    case PublicDrop => StopGuards(cfg, s, true);
    case RetryTimer => RetryGuards(cfg, s);
    case Resumes(gen) => ResumeGuards(cfg, s, gen);
    case _ => StreamGuards(cfg, s, e);
  }

  /** Call `k` is a public subscribe that overtakes another one, while both wait for a released loop. */
  ghost predicate Overtakes(cfg: Config, events: seq<Event>, k: nat)
    requires k < |events|
  {
    events[k] == PublicSubscribe && Overtakable(cfg, events[..k])
  }

  ghost predicate SomeOvertakes(cfg: Config, events: seq<Event>) {
    exists k :: 0 <= k < |events| && Overtakes(cfg, events, k)
  }

  lemma OvertakesSnoc(cfg: Config, events: seq<Event>, e: Event)
    ensures SomeOvertakes(cfg, events + [e]) <==> SomeOvertakes(cfg, events) || (e == PublicSubscribe && Overtakable(cfg, events))
  {
    var all := events + [e];
    assert all[..|events|] == events;
    forall k | 0 <= k < |events| ensures Overtakes(cfg, all, k) <==> Overtakes(cfg, events, k) {
      assert all[..k] == events[..k];
    }
    if e == PublicSubscribe && Overtakable(cfg, events) {
      assert Overtakes(cfg, all, |events|);
    }
  }

  lemma {:induction false} RecordedIff(cfg: Config, events: seq<Event>)
    requires cfg.linkFaults == {}
    ensures Run(cfg, events).startedBesideDropped <==> SomeOvertakes(cfg, events)
    ensures !Run(cfg, events).startedBesideDropped ==> AllGuarded(Run(cfg, events)) && AllRecorded(cfg, events)
  {
    if events != [] {
      var init, e := events[..|events| - 1], events[|events| - 1];
      assert events == init + [e];
      RecordedIff(cfg, init);
      OvertakesSnoc(cfg, init, e);
      if Run(cfg, init).startedBesideDropped {
        OverlapsNow(cfg, init, e);
      } else {
        RecordedOn(cfg, init, e);
      }
    }
  }

  /**
   A single loop drives the monitor at every moment of a run if and only if no
   two public subscribes come between the drop of a live loop and the end of
   its stream.
   */
  lemma OneDriverByCalls(cfg: Config, events: seq<Event>)
    requires cfg.linkFaults == {}
    ensures AlwaysOneDriver(cfg, events) <==> !SomeOvertakes(cfg, events)
  {
    RecordedIff(cfg, events);
    OneDriverUntilRecorded(cfg, events);
  }
}
