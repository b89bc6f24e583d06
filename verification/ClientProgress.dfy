/**
 Nobody waits for ever: if timers fire and refreshes settle, every `reconnect()`
 promise is resolved, across `dispose()` too.
 */
module ClientProgress {
  import opened Wrappers
  import opened ConnectionStates
  import opened CloseDecisions
  import opened ReconnectQueue
  import opened RefreshGuard
  import opened ClientModel
  import opened ClientSockets
  import opened ClientRuns
  import opened ClientTheorems

  /** An event the environment owes the waiters: an armed timer, a settled promise, a pending refresh. */
  predicate Due(s: Client, e: Event) {
    match e
    case DebounceTimer => s.queue.armed
    case JitterTimer => s.queue.pass.Jittering?
    case ResumePass(_) =>
      || s.queue.pass.Jittered?
      || (s.queue.pass.Refreshing? && s.queue.pass.flight in s.refresh.outcomes)
    case ProviderSettles(_) =>
      && s.queue.pass.Refreshing?
      && s.refresh.refreshInFlight == Some(s.queue.pass.flight)
    case _ => false
  }

  /** An upper bound on how many of those events there still are. */
  function Work(s: Client): nat {
    (if s.queue.armed then 10 else 0) + (if s.queue.rerun then 5 else 0) +
    match s.queue.pass
    case Idle => 0
    case Jittering(_) => 4
    case Jittered(_) => 3
    case Refreshing(_, flight) => if flight in s.refresh.outcomes then 1 else 2
  }

  /** A pass that awaits a refresh awaits one that has begun. */
  ghost predicate PassOk(s: Client) {
    s.queue.pass.Refreshing? ==> s.queue.pass.flight < |s.refresh.starts|
  }

  ghost predicate Orderly(cfg: Config, s: Client) {
    Quiet(s) && WaitersOk(s) && Rates(cfg, s) && PassOk(s)
  }

  /** Closing sockets never adds to the work. */
  lemma FrameWork(s: Client, r: Client)
    requires QueueFrame(s, r) && r.refresh == s.refresh
    ensures Work(r) <= Work(s)
    ensures r.queue.pass == s.queue.pass || s.queue.pass.Jittering?
  {
  }

  lemma FinishPassWork(s: Client)
    requires !s.queue.pass.Idle?
    ensures Work(FinishPass(s)) < Work(s)
  {
  }

  lemma JitterOverWork(cfg: Config, s: Client, current: Option<string>)
    requires s.queue.pass.Jittered?
    ensures Work(JitterOver(cfg, s, current)) < Work(s)
  {
    if IsStopped(s) {
      FinishPassWork(s);
    } else if !cfg.hasTokenProvider || InsideWindow(cfg.minRefreshIntervalMs, s.refresh) {
      var t := SwapSocket(cfg, s, if cfg.hasTokenProvider then current else None).0;
      FrameWork(s, t);
      FinishPassWork(t);
    }
  }

  lemma DueShrinks(cfg: Config, s: Client, i: Input)
    requires SingleFlight(s.refresh) && Due(s, i.event)
    ensures Work(Step(cfg, s, i)) < Work(s)
  {
    var t := Arrive(s, i);
    match i.event
    case ProviderSettles(_) =>
      assert s.queue.pass.flight in Outstanding(s.refresh);
    case ResumePass(current) =>
      if t.queue.pass.Jittered? {
        JitterOverWork(cfg, t, current);
      } else {
        var u := FlightLanded(cfg, t, t.refresh.outcomes[t.queue.pass.flight]);
        FrameWork(t, u);
        FinishPassWork(u);
      }
    case _ =>
  }

  lemma FramePass(s: Client, r: Client)
    requires QueueFrame(s, r) && PassOk(s)
    ensures PassOk(r)
  {
  }

  lemma FinishedPass(s: Client)
    ensures PassOk(FinishPass(s))
  {
  }

  lemma JitterOverPass(cfg: Config, s: Client, current: Option<string>)
    requires SingleFlight(s.refresh)
    ensures PassOk(JitterOver(cfg, s, current))
  {
    if IsStopped(s) {
      FinishedPass(s);
    } else if !cfg.hasTokenProvider {
      FinishedPass(SwapSocket(cfg, s, None).0);
    } else if InsideWindow(cfg.minRefreshIntervalMs, s.refresh) {
      FinishedPass(SwapSocket(cfg, s, current).0);
    } else {
      OutstandingAfter(cfg.refreshFaults, Stamp(s.refresh, false), Routine);
    }
  }

  lemma PassResumesPass(cfg: Config, s: Client, current: Option<string>)
    requires PassOk(s) && SingleFlight(s.refresh)
    ensures PassOk(PassResumes(cfg, s, current))
  {
    match s.queue.pass
    case Jittered(_) => JitterOverPass(cfg, s, current);
    case Refreshing(_, flight) =>
      if flight in s.refresh.outcomes {
        FinishedPass(FlightLanded(cfg, s, s.refresh.outcomes[flight]));
      }
    case _ =>
  }

  lemma HeartbeatPass(cfg: Config, s: Client)
    requires PassOk(s)
    ensures PassOk(OnHeartbeatTimeout(cfg, s))
  {
    var t := Callback(cfg, s);
    FramePass(s, t);
    FramePass(t, SetState(cfg, t, Disconnected(None, true)));
  }

  lemma HandlePass(cfg: Config, s: Client, e: Event)
    requires PassOk(s) && SingleFlight(s.refresh)
    ensures PassOk(Handle(cfg, s, e))
  {
    match e
    case ResumePass(current) => PassResumesPass(cfg, s, current);
    case HeartbeatTimesOut => HeartbeatPass(cfg, s);
    case Wakes => FramePass(s, Callback(cfg, s));
    case DebounceTimer =>
    case JitterTimer =>
    case ProviderSettles(_) =>
    case UrlRead(_) =>
    case _ => FramePass(s, Handle(cfg, s, e));
  }

  lemma {:induction false} RunOrderly(cfg: Config, inputs: seq<Input>)
    ensures Orderly(cfg, Run(cfg, inputs))
  {
    RunQuiet(cfg, inputs);
    RunWaiters(cfg, inputs);
    RunRates(cfg, inputs);
    if inputs != [] {
      var i := inputs[|inputs| - 1];
      var s := Run(cfg, inputs[..|inputs| - 1]);
      RunOrderly(cfg, inputs[..|inputs| - 1]);
      HandlePass(cfg, Arrive(s, i), i.event);
    }
  }

  // ---------- events that are not owed ----------

  /** A `reconnect()` call arms the debounce timer anew. */
  predicate AddsWork(e: Event) {
    e.HeartbeatTimesOut? || e.Wakes?
  }

  lemma ReconnectWork(s: Client)
    ensures Work(Reconnect(s)) <= Work(s) + 10
  {
  }

  lemma HeartbeatWork(cfg: Config, s: Client)
    ensures Work(OnHeartbeatTimeout(cfg, s)) <= Work(s) + 10
  {
    var t := Callback(cfg, s);
    FrameWork(s, t);
    var u := if t.state.Connected? then SetState(cfg, t, Disconnected(None, true)) else t;
    FrameWork(t, u);
    ReconnectWork(u);
  }

  lemma WakeWork(cfg: Config, s: Client)
    ensures Work(OnWake(cfg, s)) <= Work(s) + 10
  {
    FrameWork(s, Callback(cfg, s));
    ReconnectWork(Callback(cfg, s));
  }

  /** Starting another refresh settles none and unsettles none that a pass awaits. */
  lemma RefreshWork(s: Client, r: Client)
    requires r.queue == s.queue
    requires forall f :: f in s.refresh.outcomes ==> f in r.refresh.outcomes
    ensures Work(r) <= Work(s)
  {
  }

  lemma TryAuthRecoveryWork(cfg: Config, s: Client, trigger: AuthRecoveryTrigger)
    ensures Work(TryAuthRecovery(cfg, s, trigger)) <= Work(s)
  {
    if IsStopped(s) || s.refresh.refreshInFlight.Some? {
    } else if Storm(cfg.minRefreshIntervalMs, s.refresh) {
      FrameWork(s, GiveUp(cfg, s));
    } else {
      RefreshWork(s, TryAuthRecovery(cfg, s, trigger));
    }
  }

  lemma RecoveryResumesWork(cfg: Config, s: Client, flight: nat)
    ensures Work(RecoveryResumes(cfg, s, flight)) <= Work(s)
  {
    if flight in s.refresh.recoveries && flight in s.refresh.outcomes {
      var t := s.(refresh := s.refresh.(recoveries := s.refresh.recoveries - {flight}));
      RefreshWork(s, t);
      FrameWork(t, FlightLanded(cfg, t, s.refresh.outcomes[flight]));
    }
  }

  lemma OnAuthRecoveryWork(cfg: Config, s: Client, trigger: AuthRecoveryTrigger)
    ensures Work(OnAuthRecoveryNeeded(cfg, s, trigger)) <= Work(s)
  {
    if cfg.hasTokenProvider {
      FrameWork(s, Callback(cfg, s));
      TryAuthRecoveryWork(cfg, Callback(cfg, s), trigger);
    } else if trigger.AuthClose? {
      FrameWork(s, FireTerminal(cfg, s));
    }
  }

  lemma SetStateWork(cfg: Config, s: Client, next: ConnectionState)
    ensures Work(SetState(cfg, s, next)) <= Work(s)
  {
    FrameWork(s, SetState(cfg, s, next));
  }

  lemma RecoverWork(cfg: Config, s: Client, code: int, trigger: AuthRecoveryTrigger)
    ensures Work(Recover(cfg, s, code, trigger)) <= Work(s)
  {
    SetStateWork(cfg, s, Disconnected(Some(code), true));
    OnAuthRecoveryWork(cfg, SetState(cfg, s, Disconnected(Some(code), true)), trigger);
  }

  lemma KickWork(cfg: Config, s: Client, w: nat)
    ensures Work(Kick(cfg, s, w)) <= Work(s)
  {
    FrameWork(s, Kick(cfg, s, w));
  }

  lemma HandleCloseWork(cfg: Config, s: Client, w: nat, code: int, reason: string)
    ensures Work(HandleClose(cfg, s, w, code, reason)) <= Work(s)
  {
    assert Work(Dropped(s, w)) == Work(s) == Work(Seen(s, w, CloseEvent));
    match DecideClose(code, reason, s.holder.websocket != Some(w), s.holder.currentAttemptOpened)
    case Ignore =>
    case SessionReplacedClose => KickWork(cfg, Dropped(s, w), w);
    case NormalDisconnect(c) => SetStateWork(cfg, Dropped(s, w), Disconnected(Some(c), true));
    case AuthRecovery(c, trigger) => RecoverWork(cfg, Dropped(s, w), c, trigger);
  }

  lemma SameWork(s: Client, r: Client)
    requires r.queue == s.queue && r.refresh == s.refresh
    ensures Work(r) == Work(s)
  {
  }

  lemma HandleOpenWork(cfg: Config, s: Client, w: nat)
    ensures Work(HandleOpen(cfg, s, w)) <= Work(s)
  {
    hide SetState, Work;
    var t := Seen(s, w, OpenEvent);
    var u := t.(holder := t.holder.(currentAttemptOpened := true));
    SameWork(s, t);
    SameWork(s, u);
    SetStateWork(cfg, u, Connected);
  }

  lemma UploadWork(cfg: Config, s: Client)
    ensures Work(OnUpload401(cfg, s)) <= Work(s)
  {
    FrameWork(s, Callback(cfg, s));
    TryAuthRecoveryWork(cfg, Callback(cfg, s), AuthClose);
  }

  lemma ApiWork(cfg: Config, s: Client)
    ensures Work(Connect(cfg, s)) <= Work(s) && Work(Dispose(cfg, s)) <= Work(s)
  {
    FrameWork(s, Connect(cfg, s));
    FrameWork(s, Dispose(cfg, s));
  }

  /** An event that is owed to nobody leaves the queue to itself. */
  lemma IdleTurnWork(cfg: Config, s: Client, e: Event)
    requires SingleFlight(s.refresh) && PassOk(s)
    requires !Due(s, e)
    requires e.DebounceTimer? || e.JitterTimer? || e.ResumePass? || e.ProviderSettles? || e.UrlRead?
    ensures Work(Handle(cfg, s, e)) <= Work(s)
  {
  }

  predicate IsSocketEvent(e: Event) {
    e.SocketOpens? || e.SocketCloses?
  }

  lemma SocketWork(cfg: Config, s: Client, e: Event)
    requires IsSocketEvent(e)
    ensures Work(Handle(cfg, s, e)) <= Work(s)
  {
    if e.SocketOpens? {
      HandleOpenWork(cfg, s, e.w);
    } else {
      HandleCloseWork(cfg, s, e.w, e.code, e.reason);
    }
  }

  lemma ApiEventWork(cfg: Config, s: Client)
    ensures Work(Handle(cfg, s, ApiConnect)) <= Work(s) && Work(Handle(cfg, s, ApiDispose)) <= Work(s)
  {
    hide Connect, Dispose, Work;
    ApiWork(cfg, s);
  }

  lemma RecoveryEventWork(cfg: Config, s: Client, flight: nat)
    ensures Work(Handle(cfg, s, Upload401)) <= Work(s) && Work(Handle(cfg, s, ResumeRecovery(flight))) <= Work(s)
  {
    hide OnUpload401, RecoveryResumes, Work;
    UploadWork(cfg, s);
    RecoveryResumesWork(cfg, s, flight);
  }

  lemma HandleWork(cfg: Config, s: Client, e: Event)
    requires SingleFlight(s.refresh) && PassOk(s) && !Due(s, e)
    ensures Work(Handle(cfg, s, e)) <= Work(s) + if AddsWork(e) then 10 else 0
  {
    hide Handle, Work;
    match e
    case ApiConnect => ApiEventWork(cfg, s);
    case ApiDispose => ApiEventWork(cfg, s);
    case SocketOpens(_) => SocketWork(cfg, s, e);
    case SocketCloses(_, _, _) => SocketWork(cfg, s, e);
    case Upload401 => RecoveryEventWork(cfg, s, 0);
    case ResumeRecovery(flight) => RecoveryEventWork(cfg, s, flight);
    case HeartbeatTimesOut => HeartbeatEventWork(cfg, s);
    case Wakes => WakeEventWork(cfg, s);
    case _ => IdleTurnWork(cfg, s, e);
  }

  lemma HeartbeatEventWork(cfg: Config, s: Client)
    ensures Work(Handle(cfg, s, HeartbeatTimesOut)) <= Work(s) + 10
  {
    hide OnHeartbeatTimeout, Work;
    HeartbeatWork(cfg, s);
  }

  lemma WakeEventWork(cfg: Config, s: Client)
    ensures Work(Handle(cfg, s, Wakes)) <= Work(s) + 10
  {
    hide OnWake, Work;
    WakeWork(cfg, s);
  }

  /** Any turn adds at most the work of one `reconnect()` call, and only a missed heartbeat or a wake makes one. */
  lemma TurnWork(cfg: Config, s: Client, i: Input)
    requires SingleFlight(s.refresh) && PassOk(s)
    ensures Work(Step(cfg, s, i)) + (if Due(s, i.event) then 1 else 0) <= Work(s) + if AddsWork(i.event) then 10 else 0
  {
    if Due(s, i.event) {
      DueShrinks(cfg, s, i);
    } else {
      var t := Arrive(s, i);
      assert Work(t) == Work(s) && SingleFlight(t.refresh) && PassOk(t) && !Due(t, i.event) by {
        assert Outstanding(t.refresh) == Outstanding(s.refresh);
      }
      HandleWork(cfg, t, i.event);
    }
  }

  /** How many turns of `more` were owed when they came. */
  function Served(cfg: Config, s: Client, more: seq<Input>): nat {
    if more == [] then 0
    else
      var n := |more| - 1;
      Served(cfg, s, more[..n]) + if Due(RunFrom(cfg, s, more[..n]), more[n].event) then 1 else 0
  }

  /** How many turns of `more` may have called `reconnect()`. */
  function Calls(more: seq<Input>): nat {
    if more == [] then 0 else Calls(more[..|more| - 1]) + if AddsWork(more[|more| - 1].event) then 1 else 0
  }

  lemma {:induction false} RunWork(cfg: Config, inputs: seq<Input>, more: seq<Input>)
    ensures RunFrom(cfg, Run(cfg, inputs), more) == Run(cfg, inputs + more)
    ensures Work(Run(cfg, inputs + more)) + Served(cfg, Run(cfg, inputs), more) <= Work(Run(cfg, inputs)) + 10 * Calls(more)
  {
    hide Step, Work, Due;
    if more == [] {
      assert inputs + more == inputs;
    } else {
      var n := |more| - 1;
      RunWork(cfg, inputs, more[..n]);
      assert (inputs + more)[..|inputs + more| - 1] == inputs + more[..n];
      RunOrderly(cfg, inputs + more[..n]);
      TurnWork(cfg, Run(cfg, inputs + more[..n]), more[n]);
    }
  }

  /** A pass that still waits for its refresh waits for the flight in the air. */
  lemma RefreshIsDue(cfg: Config, s: Client)
    requires Orderly(cfg, s) && s.queue.pass.Refreshing? && s.queue.pass.flight !in s.refresh.outcomes
    ensures s.refresh.refreshInFlight == Some(s.queue.pass.flight)
  {
    assert s.queue.pass.flight in Outstanding(s.refresh);
  }

  lemma NothingDue(cfg: Config, s: Client)
    requires Orderly(cfg, s) && forall e :: !Due(s, e)
    ensures forall id :: 0 <= id < |s.queue.calledAt| ==> s.queue.settled[id] == 1
  {
    assert !Due(s, DebounceTimer) && !Due(s, JitterTimer) && !Due(s, ResumePass(None));
    assert !Due(s, ProviderSettles(NoToken));
    if s.queue.pass.Refreshing? {
      RefreshIsDue(cfg, s);
    }
    forall id: nat | id < |s.queue.calledAt|
      ensures s.queue.settled[id] == 1
    {
      assert Places(s.queue, id) == 1;
    }
  }

  /**
   All waiters settle. Whatever else happens in between (closes, opens,
   `connect()`, `dispose()`, recoveries, consumer calls), from any reachable
   moment the environment has at most `Work` owed events to serve, and 10 more
   for every missed heartbeat or wake; and at any moment at which it owes
   nothing, every waiter has been settled, once.
   */
  lemma WaitersSettle(cfg: Config, inputs: seq<Input>, more: seq<Input>)
    ensures Served(cfg, Run(cfg, inputs), more) <= Work(Run(cfg, inputs)) + 10 * Calls(more)
    ensures var s := Run(cfg, inputs + more);
            (forall e :: !Due(s, e)) ==> forall id :: 0 <= id < |s.queue.calledAt| ==> s.queue.settled[id] == 1
  {
    RunWork(cfg, inputs, more);
    RunOrderly(cfg, inputs + more);
    if forall e :: !Due(Run(cfg, inputs + more), e) {
      NothingDue(cfg, Run(cfg, inputs + more));
    }
  }
}
