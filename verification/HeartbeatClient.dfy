/**
 `HeartbeatSubscriber` with its fields, driving a `HeartbeatMonitor`. Every
 method is tied to the function of the same meaning in `HeartbeatSubscribers`,
 so the theorems about runs hold of the object (`Live`).
 */
module HeartbeatClients {
  import opened Wrappers
  import Monitors = HeartbeatMonitors
  import Model = HeartbeatSubscribers
  import opened HeartbeatDeliveries

  class HeartbeatSubscriber {
    const cfg: Model.Config
    const monitor: Monitors.HeartbeatMonitor
    var generation: nat
    var abortController: Option<nat>
    var activeLoop: Option<nat>
    var dropped: bool
    var retryTimer: Option<Model.Retry>
    var suspended: map<nat, Model.Suspended>
    var loops: map<nat, Model.Loop>
    ghost var startedBesideDropped: bool

    ghost function Value(): Model.Subscriber
      reads this
    {
      Model.Subscriber(generation, abortController, activeLoop, dropped, retryTimer, suspended, loops, startedBesideDropped)
    }

    constructor (cfg: Model.Config, monitor: Monitors.HeartbeatMonitor)
      ensures Value() == Model.FRESH && this.cfg == cfg && this.monitor == monitor
    {
      this.cfg, this.monitor := cfg, monitor;
      generation, abortController, activeLoop, dropped, retryTimer := 0, None, None, false, None;
      suspended, loops, startedBesideDropped := map[], map[], false;
    }

    method Subscribe()
      modifies this
      ensures Value() == Model.Subscribe(cfg, old(Value()))
    {
      retryTimer := None;
      dropped := false;
      SubscribeWithRetryBudget(cfg.maxRetries, generation + 1);
    }

    method SubscribeWithRetryBudget(budget: nat, origin: nat)
      modifies this
      ensures Value() == Model.SubscribeWithBudget(cfg, old(Value()), budget, origin)
    {
      generation := generation + 1;
      var gen := generation;
      if abortController.Some? || activeLoop.Some? {
        Abort();
        var prior := activeLoop;
        activeLoop := None;
        if prior.Some? {
          suspended := suspended[gen := Model.Suspended(prior.value, budget, origin)];
          return;
        }
      }
      StartLoop(gen, budget, origin);
    }

    /** What follows the barrier. */
    method StartLoop(gen: nat, budget: nat, origin: nat)
      modifies this
      ensures Value() == Model.StartLoop(cfg, old(Value()), gen, budget, origin)
    {
      startedBesideDropped := startedBesideDropped || (Model.Draining(Value()) && gen !in cfg.linkFaults);
      abortController := Some(gen);
      loops := loops[gen := Model.Loop(budget, Model.Calling, false, false, origin, false, 0)];
      if gen in cfg.linkFaults {
        CatchStreamError(gen);
      }
      activeLoop := Some(gen);
    }

    method Resume(gen: nat)
      modifies this
      ensures Value() == Model.Resume(cfg, old(Value()), gen)
    {
      if gen !in suspended || (suspended[gen].prior in loops && !loops[suspended[gen].prior].phase.Finished?) {
        return;
      }
      var b := suspended[gen];
      suspended := suspended - {gen};
      if generation != gen {
        return;
      }
      StartLoop(gen, b.retryBudget, b.origin);
    }

    method Abort()
      modifies this
      ensures Value() == Model.Abort(old(Value()))
    {
      retryTimer := None;
      if abortController.Some? {
        var g := abortController.value;
        if g in loops {
          loops := loops[g := loops[g].(aborted := true)];
        }
        abortController := None;
      }
    }

    method Drop()
      modifies this
      ensures Value() == Model.Drop(old(Value()))
    {
      dropped := true;
      retryTimer := None;
      if abortController.Some? && abortController.value in loops {
        var g := abortController.value;
        loops := loops[g := loops[g].(dropped := true)];
      }
      abortController := None;
    }

    method StreamOpens(g: nat)
      modifies this
      ensures Value() == Model.StreamOpens(old(Value()), g)
    {
      if g in loops && loops[g].phase.Calling? {
        loops := loops[g := loops[g].(phase := Model.Reading)];
      }
    }

    /** One turn of the `for await`: an aborted loop leaves it before it touches the monitor. */
    method Deliver(g: nat, e: Model.StreamEvent)
      modifies this, monitor
      ensures Value() == Model.Deliver(old(Value()), g, e)
      ensures monitor.Value() == AfterTurn(monitor.pollIntervalMs, old(Value()), old(monitor.Value()), Model.Delivers(g, e))
    {
      if g !in loops || !loops[g].phase.Reading? {
        return;
      }
      var l := loops[g];
      if l.aborted {
        loops := loops[g := l.(phase := Model.Closing)];
        return;
      }
      match e {
        case ConfigEvent(intervalMs, timeoutMs) =>
          loops := loops[g := l.(receivedConfig := true, monitorCalls := l.monitorCalls + 2)];
          monitor.SetWindow(intervalMs, timeoutMs);
          monitor.StartPolling();
        case PingEvent =>
          loops := loops[g := l.(monitorCalls := l.monitorCalls + 1)];
          monitor.RecordPing();
        case OtherEvent =>
      }
    }

    /** The stream is done. */
    method StreamEnds(g: nat)
      modifies this
      ensures Value() == Model.Step(cfg, old(Value()), Model.Ends(g))
    {
      if g in loops && !loops[g].phase.Finished? && !loops[g].phase.Calling? {
        LeaveLoop(g);
      }
    }

    method StreamFails(g: nat)
      modifies this
      ensures Value() == Model.Step(cfg, old(Value()), Model.Fails(g))
    {
      if g in loops && !loops[g].phase.Finished? {
        CatchStreamError(g);
      }
    }

    method CatchStreamError(g: nat)
      requires g in loops
      modifies this
      ensures Value() == Model.FailLoop(old(Value()), g)
    {
      if !loops[g].aborted && !dropped && !loops[g].receivedConfig {
        SchedulePreConfigRetry(g);
      }
      LeaveLoop(g);
    }

    method SchedulePreConfigRetry(g: nat)
      requires g in loops
      modifies this
      ensures Value() == Model.ScheduleRetry(old(Value()), g)
    {
      if generation != g || loops[g].retryBudget == 0 {
        return;
      }
      retryTimer := Some(Model.Retry(g, loops[g].retryBudget, loops[g].origin));
    }

    method LeaveLoop(g: nat)
      requires g in loops
      modifies this
      ensures Value() == Model.FinishLoop(old(Value()), g)
    {
      loops := loops[g := loops[g].(phase := Model.Finished)];
      if abortController == Some(g) {
        abortController := None;
      }
      if generation == g {
        activeLoop := None;
      }
    }

    method RetryTimerFires()
      modifies this
      ensures Value() == Model.RetryFires(cfg, old(Value()))
    {
      if retryTimer.None? {
        return;
      }
      var r := retryTimer.value;
      retryTimer := None;
      if generation != r.gen || r.retryBudget == 0 {
        return;
      }
      SubscribeWithRetryBudget(r.retryBudget - 1, r.origin);
    }

    method Turn(e: Model.Event)
      modifies this, monitor
      ensures Value() == Model.Step(cfg, old(Value()), e)
      ensures monitor.Value() == AfterTurn(monitor.pollIntervalMs, old(Value()), old(monitor.Value()), e)
    {
      match e {
        case PublicSubscribe => Subscribe();
        case PublicAbort => Abort();
        case PublicDrop => Drop();
        case RetryTimer => RetryTimerFires();
        case Resumes(gen) => Resume(gen);
        case Opens(g) => StreamOpens(g);
        case Delivers(g, event) => Deliver(g, event);
        case Ends(g) => StreamEnds(g);
        case Fails(g) => StreamFails(g);
      }
    }
  }

  /** A subscriber from construction on, and what became of its monitor. */
  method Live(cfg: Model.Config, monitor: Monitors.HeartbeatMonitor, events: seq<Model.Event>) returns (s: HeartbeatSubscriber)
    modifies monitor
    ensures fresh(s) && s.Value() == Model.Run(cfg, events)
    ensures monitor.Value() == MonitorAfter(cfg, monitor.pollIntervalMs, old(monitor.Value()), events)
  {
    s := new HeartbeatSubscriber(cfg, monitor);
    var i := 0;
    while i < |events|
      invariant 0 <= i <= |events|
      invariant fresh(s) && s.cfg == cfg && s.monitor == monitor
      invariant s.Value() == Model.Run(cfg, events[..i])
      invariant monitor.Value() == MonitorAfter(cfg, monitor.pollIntervalMs, old(monitor.Value()), events[..i])
    {
      assert events[..i + 1][..i] == events[..i];
      s.Turn(events[i]);
      i := i + 1;
    }
    assert events[..i] == events;
  }
}
