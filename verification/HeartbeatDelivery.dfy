/**
 What reaches the watchdog of what a stream delivers, and that a subscription
 gets through to it.
 */
module HeartbeatDeliveries {
  import opened Wrappers
  import Monitors = HeartbeatMonitors
  import opened HeartbeatSubscribers
  import opened HeartbeatTheorems

  /** What the monitor makes of an event that reaches it. */
  function Received(period: nat, m: Monitors.Monitor, e: StreamEvent): (r: Monitors.Monitor)
    ensures r.now == m.now && r.firings == m.firings
  {
    match e
    case ConfigEvent(i, t) => Monitors.Step(period, Monitors.Step(period, m, Monitors.Configure(i, t)), Monitors.Start)
    case PingEvent => Monitors.Step(period, m, Monitors.Ping)
    case OtherEvent => m
  }

  /** The monitor after turn `e` of a subscriber in state `s`: only a loop that reads and is not aborted touches it. */
  function AfterTurn(period: nat, s: Subscriber, m: Monitors.Monitor, e: Event): Monitors.Monitor {
    if e.Delivers? && Listens(s, e.g) then Received(period, m, e.event) else m
  }

  ghost function MonitorAfter(cfg: Config, period: nat, m: Monitors.Monitor, events: seq<Event>): Monitors.Monitor {
    if events == [] then m
    else
      var n := |events| - 1;
      AfterTurn(period, Run(cfg, events[..n]), MonitorAfter(cfg, period, m, events[..n]), events[n])
  }

  lemma MonitorSnoc(cfg: Config, period: nat, m: Monitors.Monitor, events: seq<Event>, e: Event)
    ensures MonitorAfter(cfg, period, m, events + [e])
         == AfterTurn(period, Run(cfg, events), MonitorAfter(cfg, period, m, events), e)
    ensures Run(cfg, events + [e]) == Step(cfg, Run(cfg, events), e)
  {
    assert (events + [e])[..|events|] == events;
  }

  // ---------- a loop in order ----------

  /** The loop of generation `g` has called the link, and nobody has stopped it. */
  predicate Awaits(s: Subscriber, g: nat) {
    g in s.loops && s.loops[g].phase.Calling? && !s.loops[g].aborted
  }

  /** It reads its stream, and nobody has stopped it. */
  predicate Listens(s: Subscriber, g: nat) {
    g in s.loops && s.loops[g].phase.Reading? && !s.loops[g].aborted
  }

  lemma OpensAndDelivers(cfg: Config, s: Subscriber, g: nat, first: StreamEvent, e: StreamEvent)
    requires Awaits(s, g)
    ensures var o := Step(cfg, s, Opens(g));
            var d := Step(cfg, o, Delivers(g, first));
            Listens(o, g) && Listens(d, g) && (d.loops[g].receivedConfig <==> first.ConfigEvent? || s.loops[g].receivedConfig)
  {
  }

  /** `m` was given the window of `intervalMs` and `timeoutMs` just now, polls it, and has heard a ping since. */
  predicate Watches(period: nat, before: Monitors.Monitor, m: Monitors.Monitor, intervalMs: int, timeoutMs: int) {
    m == before.(intervalMs := Some(intervalMs), timeoutMs := Some(timeoutMs), lastPingAt := before.now, timeoutFired := false,
                 pollTimer := Some(Monitors.Poll(before.now, before.now + period)))
  }

  lemma ReceivedConfigures(period: nat, m: Monitors.Monitor, intervalMs: int, timeoutMs: int)
    ensures Watches(period, m, Received(period, m, ConfigEvent(intervalMs, timeoutMs)), intervalMs, timeoutMs)
    ensures Received(period, m, PingEvent) == m.(lastPingAt := m.now, timeoutFired := false)
  {
  }

  /** A loop that awaits its link hands on the configuration and the pings of the stream it gets. */
  lemma LoopGetsThrough(cfg: Config, period: nat, m: Monitors.Monitor, events: seq<Event>, g: nat, intervalMs: int, timeoutMs: int)
    requires Awaits(Run(cfg, events), g)
    ensures var reading := events + [Opens(g)];
            var configured := reading + [Delivers(g, ConfigEvent(intervalMs, timeoutMs))];
            var before, after := MonitorAfter(cfg, period, m, events), MonitorAfter(cfg, period, m, configured);
            && Watches(period, before, after, intervalMs, timeoutMs)
            && MonitorAfter(cfg, period, m, configured + [Delivers(g, PingEvent)])
               == after.(lastPingAt := after.now, timeoutFired := false)
  {
    hide Run, Step, Received, Watches;
    var reading := events + [Opens(g)];
    var configured := reading + [Delivers(g, ConfigEvent(intervalMs, timeoutMs))];
    OpensAndDelivers(cfg, Run(cfg, events), g, ConfigEvent(intervalMs, timeoutMs), PingEvent);
    MonitorSnoc(cfg, period, m, events, Opens(g));
    MonitorSnoc(cfg, period, m, reading, Delivers(g, ConfigEvent(intervalMs, timeoutMs)));
    MonitorSnoc(cfg, period, m, configured, Delivers(g, PingEvent));
    ReceivedConfigures(period, MonitorAfter(cfg, period, m, events), intervalMs, timeoutMs);
    ReceivedConfigures(period, MonitorAfter(cfg, period, m, configured), intervalMs, timeoutMs);
  }

  /** A `drop()` lasts until the next public subscribe, even one whose link call throws. */
  lemma SubscribeUndrops(cfg: Config, s: Subscriber)
    requires SubscriberOk(cfg, s)
    ensures !Step(cfg, s, PublicSubscribe).dropped
  {
    hide StartLoop;
    SubscribeClaims(cfg, s, false, cfg.maxRetries, s.generation + 1);
    StartUndrops(cfg, Claimed(s, false), s.generation + 1, cfg.maxRetries, s.generation + 1);
  }

  lemma StartUndrops(cfg: Config, s: Subscriber, gen: nat, budget: nat, origin: nat)
    ensures StartLoop(cfg, s, gen, budget, origin).dropped == s.dropped
  {
  }

  /** A stream that ends takes its loop out of the fields, and is not retried. */
  lemma EndsQuietly(cfg: Config, events: seq<Event>, g: nat)
    requires Unfinished(Run(cfg, events), g) && !Run(cfg, events).loops[g].phase.Calling?
    ensures var s, r := Run(cfg, events), Run(cfg, events + [Ends(g)]);
            && g in r.loops && r.loops[g].phase.Finished?
            && r.abortController != Some(g) && (g == s.generation ==> r.activeLoop.None?)
            && r.retryTimer == s.retryTimer && r.generation == s.generation
  {
    hide Step, SubscriberOk;
    RunSnoc(cfg, events, Ends(g));
    EndStep(cfg, Run(cfg, events), g);
  }

  lemma EndStep(cfg: Config, s: Subscriber, g: nat)
    requires Unfinished(s, g) && !s.loops[g].phase.Calling?
    ensures Step(cfg, s, Ends(g)) == FinishLoop(s, g)
  {
  }

  lemma SubscribeStarts(cfg: Config, s: Subscriber)
    requires SubscriberOk(cfg, s) && s.activeLoop.None? && s.generation + 1 !in cfg.linkFaults
    ensures Awaits(Step(cfg, s, PublicSubscribe), s.generation + 1)
  {
  }

  lemma BarrierStarts(cfg: Config, s: Subscriber, prior: nat)
    requires SubscriberOk(cfg, s) && s.activeLoop == Some(prior) && Unfinished(s, prior) && s.generation + 1 !in cfg.linkFaults
    ensures var gen := s.generation + 1;
            var u := Step(cfg, Step(cfg, s, PublicSubscribe), Fails(prior));
            Awaits(Step(cfg, u, Resumes(gen)), gen)
  {
    var gen := s.generation + 1;
    SubscribeClaims(cfg, s, false, cfg.maxRetries, gen);
    var t := Step(cfg, s, PublicSubscribe);
    assert t.suspended[gen] == Suspended(prior, cfg.maxRetries, gen) && t.generation == gen && Unfinished(t, prior);
    var u := Step(cfg, t, Fails(prior));
    assert u.generation == gen && u.loops[prior].phase.Finished? && u.suspended == t.suspended;
  }

  /** A loop that has ended but is still in the field holds nobody up. */
  lemma EndedBarrierStarts(cfg: Config, s: Subscriber)
    requires SubscriberOk(cfg, s) && s.activeLoop.Some? && !Unfinished(s, s.activeLoop.value) && s.generation + 1 !in cfg.linkFaults
    ensures var gen := s.generation + 1;
            Awaits(Step(cfg, Step(cfg, s, PublicSubscribe), Resumes(gen)), gen)
  {
    var gen := s.generation + 1;
    SubscribeClaims(cfg, s, false, cfg.maxRetries, gen);
    var t := Step(cfg, s, PublicSubscribe);
    assert t.suspended[gen] == Suspended(s.activeLoop.value, cfg.maxRetries, gen) && t.generation == gen;
  }

  /**
   A subscription gets through. In any run, a public `subscribe()` that finds no
   loop calls the link at once; behind a loop it does so as soon as that loop
   has ended and the barrier lets it pass. `LoopGetsThrough` takes it from there.
   */
  lemma SubscriptionsGetThrough(cfg: Config, events: seq<Event>)
    requires Run(cfg, events).generation + 1 !in cfg.linkFaults
    ensures var s := Run(cfg, events);
            var gen := s.generation + 1;
            && !Run(cfg, events + [PublicSubscribe]).dropped
            && (s.activeLoop.None? ==> Awaits(Run(cfg, events + [PublicSubscribe]), gen))
            && (s.activeLoop.Some? && Unfinished(s, s.activeLoop.value) ==>
                  Awaits(Run(cfg, events + [PublicSubscribe] + [Fails(s.activeLoop.value)] + [Resumes(gen)]), gen))
            && (s.activeLoop.Some? && !Unfinished(s, s.activeLoop.value) ==>
                  Awaits(Run(cfg, events + [PublicSubscribe] + [Resumes(gen)]), gen))
  {
    hide Step, SubscriberOk;
    var s := Run(cfg, events);
    RunKeeps(cfg, FRESH, events);
    RunSnoc(cfg, events, PublicSubscribe);
    SubscribeUndrops(cfg, s);
    if s.activeLoop.None? {
      SubscribeStarts(cfg, s);
    } else if Unfinished(s, s.activeLoop.value) {
      var prior := s.activeLoop.value;
      RunSnoc(cfg, events + [PublicSubscribe], Fails(prior));
      RunSnoc(cfg, events + [PublicSubscribe] + [Fails(prior)], Resumes(s.generation + 1));
      BarrierStarts(cfg, s, prior);
    } else {
      RunSnoc(cfg, events + [PublicSubscribe], Resumes(s.generation + 1));
      EndedBarrierStarts(cfg, s);
    }
  }
}
