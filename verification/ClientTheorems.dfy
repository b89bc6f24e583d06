/**
 What holds of every run of a client, whatever the network, the timers, the
 token provider and the consumer's callbacks do.
 */
module ClientTheorems {
  import opened Wrappers
  import opened ConnectionStates
  import opened CloseDecisions
  import opened ReconnectQueue
  import opened RefreshGuard
  import opened ClientModel
  import opened ClientSockets
  import opened ClientRuns

  // ---------- death, sockets, state ----------

  lemma {:induction false} RunGrows(cfg: Config, inputs: seq<Input>, k: nat)
    requires k <= |inputs|
    ensures HistoryGrows(Run(cfg, inputs[..k]), Run(cfg, inputs))
  {
    if k < |inputs| {
      var init := inputs[..|inputs| - 1];
      assert init[..k] == inputs[..k];
      RunGrows(cfg, init, k);
    } else {
      assert inputs[..k] == inputs;
    }
  }

  /** The consumer learns of a terminal failure at most once, over both latches. */
  lemma {:induction false} TerminalAtMostOnce(cfg: Config, inputs: seq<Input>)
    ensures var s := Run(cfg, inputs);
            s.history.terminalCalls == if s.terminalAuthFired then 1 else 0
  {
    if inputs != [] {
      TerminalAtMostOnce(cfg, inputs[..|inputs| - 1]);
      assert ToldOnce(Run(cfg, inputs[..|inputs| - 1]));
    }
  }

  /** No orphan sockets: the wrappers on which nobody called `close()` are the one in the holder. */
  lemma NoOrphanSockets(cfg: Config, inputs: seq<Input>)
    ensures var s := Run(cfg, inputs);
            s.net.live == if s.holder.websocket.Some? then {s.holder.websocket.value} else {}
  {
    RunQuiet(cfg, inputs);
  }

  /** The shown state and the per-attempt flag tell the truth about the socket. */
  lemma StateIsTruthful(cfg: Config, inputs: seq<Input>)
    ensures var s := Run(cfg, inputs);
            && (s.state.Connected? ==> HeldIsOpen(s) && s.holder.websocket.value in s.net.live)
            && (s.holder.currentAttemptOpened <==> HeldIsOpen(s))
            && (s.state.Kicked? ==> s.net.live == {})
            && (IsDead(s) && !s.history.disposedWhileConnecting ==> Final(s.state))
            && (Final(s.state) ==> IsDead(s) || s.history.frames == [])
  {
    RunQuiet(cfg, inputs);
  }

  // ---------- refreshes ----------

  ghost predicate Rates(cfg: Config, s: Client) {
    RatesOk(cfg.minRefreshIntervalMs, s.refresh)
  }

  lemma TryAuthRecoveryRates(cfg: Config, s: Client, trigger: AuthRecoveryTrigger)
    requires Rates(cfg, s)
    ensures Rates(cfg, TryAuthRecovery(cfg, s, trigger))
  {
    if s.refresh.refreshInFlight.None? && !Storm(cfg.minRefreshIntervalMs, s.refresh) {
      AuthKeeps(cfg.minRefreshIntervalMs, cfg.refreshFaults, s.refresh);
    }
  }

  lemma RecoveryResumesRates(cfg: Config, s: Client, flight: nat)
    requires Rates(cfg, s)
    ensures Rates(cfg, RecoveryResumes(cfg, s, flight))
  {
    ResumeKeeps(cfg.minRefreshIntervalMs, s.refresh, flight);
  }

  lemma PassResumesRates(cfg: Config, s: Client, current: Option<string>)
    requires Rates(cfg, s)
    ensures Rates(cfg, PassResumes(cfg, s, current))
  {
    if !InsideWindow(cfg.minRefreshIntervalMs, s.refresh) {
      RoutineKeeps(cfg.minRefreshIntervalMs, cfg.refreshFaults, s.refresh);
    }
  }

  lemma HandleCloseRates(cfg: Config, s: Client, w: nat, code: int, reason: string)
    requires Rates(cfg, s)
    ensures Rates(cfg, HandleClose(cfg, s, w, code, reason))
  {
    var d := DecideClose(code, reason, s.holder.websocket != Some(w), s.holder.currentAttemptOpened);
    if d.AuthRecovery? {
      var t := SetState(cfg, Dropped(s, w), Disconnected(Some(d.closeCode), true));
      TryAuthRecoveryRates(cfg, Callback(cfg, t), d.trigger);
    }
  }

  lemma HandleRates(cfg: Config, s: Client, e: Event)
    requires Rates(cfg, s)
    ensures Rates(cfg, Handle(cfg, s, e))
  {
    match e
    case SocketCloses(w, code, reason) => HandleCloseRates(cfg, s, w, code, reason);
    case Upload401 => TryAuthRecoveryRates(cfg, Callback(cfg, s), AuthClose);
    case ProviderSettles(outcome) => SettleKeeps(cfg.minRefreshIntervalMs, s.refresh, outcome);
    case ResumePass(current) => PassResumesRates(cfg, s, current);
    case ResumeRecovery(flight) => RecoveryResumesRates(cfg, s, flight);
    case _ =>
  }

  lemma {:induction false} RunRates(cfg: Config, inputs: seq<Input>)
    ensures Rates(cfg, Run(cfg, inputs))
  {
    if inputs != [] {
      var i := inputs[|inputs| - 1];
      var s := Run(cfg, inputs[..|inputs| - 1]);
      RunRates(cfg, inputs[..|inputs| - 1]);
      assert Rates(cfg, Arrive(s, i));
      HandleRates(cfg, Arrive(s, i), i.event);
    }
  }

  /**
   Single flight and refresh rate. At most one provider call is unsettled at
   any time; two calls closer together than the storm window are consecutive,
   a routine one followed by an auth-driven one; so calls two apart are never
   closer than the window.
   */
  lemma RefreshRate(cfg: Config, inputs: seq<Input>)
    ensures var r := Run(cfg, inputs).refresh;
            && |Outstanding(r)| <= 1
            && Spaced(cfg.minRefreshIntervalMs, r.starts)
            && forall i :: 0 <= i && i + 2 < |r.starts| ==>
                 r.starts[i + 2].at - r.starts[i].at >= cfg.minRefreshIntervalMs
  {
    RunRates(cfg, inputs);
  }

  // ---------- waiters ----------

  /** Waiters are kept, and whoever was turned away without a pass was turned away by a dead client. */
  ghost predicate WaitersOk(s: Client) {
    QueueOk(s.queue) && (s.queue.refused != {} ==> s.history.death.Some?)
  }

  lemma FrameWaiters(s: Client, r: Client)
    requires QueueFrame(s, r) && Quiet(s) && Quiet(r) && WaitersOk(s)
    ensures WaitersOk(r)
    ensures r.queue.pass.Idle? <==> s.queue.pass.Idle?
  {
    DisposalKeeps(s.queue);
  }

  lemma ReconnectWaiters(s: Client)
    requires Quiet(s) && WaitersOk(s)
    ensures WaitersOk(Reconnect(s))
  {
    EnqueueKeeps(s.queue, IsStopped(s));
  }

  lemma FinishPassWaiters(s: Client)
    requires Quiet(s) && WaitersOk(s) && !s.queue.pass.Idle?
    ensures WaitersOk(FinishPass(s))
  {
    FinishKeeps(s.queue, IsStopped(s));
  }

  lemma HeartbeatWaiters(cfg: Config, s: Client)
    requires Quiet(s) && WaitersOk(s)
    ensures WaitersOk(OnHeartbeatTimeout(cfg, s))
  {
    CallbackQuiet(cfg, s);
    var t := Callback(cfg, s);
    FrameWaiters(s, t);
    var u := if t.state.Connected? then SetState(cfg, t, Disconnected(None, true)) else t;
    if t.state.Connected? {
      SetStateQuiet(cfg, t, Disconnected(None, true));
    }
    FrameWaiters(t, u);
    ReconnectWaiters(u);
  }

  lemma JitterOverWaiters(cfg: Config, s: Client, current: Option<string>)
    requires Quiet(s) && WaitersOk(s) && !s.queue.pass.Idle?
    ensures WaitersOk(JitterOver(cfg, s, current))
  {
    if IsStopped(s) {
      FinishPassWaiters(s);
    } else if !cfg.hasTokenProvider || InsideWindow(cfg.minRefreshIntervalMs, s.refresh) {
      var token := if cfg.hasTokenProvider then current else None;
      SwapQuiet(cfg, s, token);
      var t := SwapSocket(cfg, s, token).0;
      FrameWaiters(s, t);
      FinishPassWaiters(t);
    } else {
      AwaitKeeps(s.queue, RoutineRefresh(cfg.refreshFaults, s.refresh).1);
    }
  }

  lemma RefreshOverWaiters(cfg: Config, s: Client, outcome: Outcome)
    requires Quiet(s) && WaitersOk(s) && !s.queue.pass.Idle?
    ensures WaitersOk(FinishPass(FlightLanded(cfg, s, outcome)))
  {
    FlightLandedQuiet(cfg, s, outcome);
    var t := FlightLanded(cfg, s, outcome);
    FrameWaiters(s, t);
    FinishPassWaiters(t);
  }

  lemma PassResumesWaiters(cfg: Config, s: Client, current: Option<string>)
    requires Quiet(s) && WaitersOk(s)
    ensures WaitersOk(PassResumes(cfg, s, current))
  {
    match s.queue.pass
    case Jittered(_) => JitterOverWaiters(cfg, s, current);
    case Refreshing(_, flight) =>
      if flight in s.refresh.outcomes {
        RefreshOverWaiters(cfg, s, s.refresh.outcomes[flight]);
      }
    case _ =>
  }

  lemma HandleWaiters(cfg: Config, s: Client, e: Event)
    requires Quiet(s) && WaitersOk(s)
    ensures WaitersOk(Handle(cfg, s, e))
  {
    HandleQuiet(cfg, s, e);
    match e
    case HeartbeatTimesOut => HeartbeatWaiters(cfg, s);
    case Wakes =>
      CallbackQuiet(cfg, s);
      FrameWaiters(s, Callback(cfg, s));
      ReconnectWaiters(Callback(cfg, s));
    case DebounceTimer => DebounceKeeps(s.queue, IsStopped(s));
    case JitterTimer => JitterKeeps(s.queue);
    case ProviderSettles(_) =>
    case UrlRead(_) =>
    case ResumePass(current) => PassResumesWaiters(cfg, s, current);
    case _ => FrameWaiters(s, Handle(cfg, s, e));
  }

  lemma {:induction false} RunWaiters(cfg: Config, inputs: seq<Input>)
    ensures WaitersOk(Run(cfg, inputs))
  {
    if inputs != [] {
      var i := inputs[|inputs| - 1];
      var s := Run(cfg, inputs[..|inputs| - 1]);
      RunWaiters(cfg, inputs[..|inputs| - 1]);
      RunQuiet(cfg, inputs[..|inputs| - 1]);
      assert Quiet(Arrive(s, i)) && WaitersOk(Arrive(s, i));
      HandleWaiters(cfg, Arrive(s, i), i.event);
    }
  }

  /**
   Every `reconnect()` call is in exactly one place: debounced, carried by the
   pass in flight, parked for the rerun, or settled, and settled once. While
   the client has not died it is settled only by a pass that began after the
   call. The debounce timer runs iff someone waits for it, and nobody is parked
   without a pass to run after.
   */
  lemma WaitersAreServed(cfg: Config, inputs: seq<Input>, id: nat)
    requires id < |Run(cfg, inputs).queue.calledAt|
    ensures var s := Run(cfg, inputs);
            var q := s.queue;
            && multiset(q.pending)[id] + multiset(Waiters(q.pass))[id] + multiset(q.trailing)[id] + q.settled[id] == 1
            && (id in q.settled && s.history.death.None? ==>
                  id in q.servedBy && q.calledAt[id] < q.servedBy[id] <= q.passes)
            && (q.armed <==> q.pending != [])
            && (q.trailing != [] ==> !q.pass.Idle?)
  {
    RunWaiters(cfg, inputs);
    assert Places(Run(cfg, inputs).queue, id) == 1;
  }
}
