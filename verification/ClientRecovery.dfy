/**
 Recovery recovers: from every reachable live client, a rejected credential or a
 missed heartbeat leads back to an open socket that carries a fresh token, if
 the network and the provider play along and the consumer does not interfere.
 */
module ClientRecovery {
  import opened Wrappers
  import opened ConnectionStates
  import opened CloseDecisions
  import opened WebSocketHolders
  import opened ReconnectQueue
  import opened RefreshGuard
  import opened ClientModel
  import opened ClientSockets
  import opened ClientRuns
  import opened ClientTheorems
  import opened ClientTurns

  /** Some time later, with no consumer call pending. */
  function Later(s: Client, ms: nat): Client {
    Arrive(s, After(ms, Wakes))
  }

  /** A live client in order that holds wrapper `w`, at a moment when no refresh is in the air. */
  ghost predicate Ready(cfg: Config, s: Client, w: nat) {
    && Quiet(s) && !IsStopped(s) && Exists(cfg, s, w)
    && cfg.hasTokenProvider && s.holder.websocket == Some(w)
    && s.refresh.refreshInFlight.None? && |s.refresh.starts| !in cfg.refreshFaults
    && s.net.constructions !in cfg.constructFaults
  }

  /** The socket was rejected or dropped, and flight `f` is to bring a new token. */
  ghost predicate Recovering(s: Client, w: nat, f: nat) {
    && Quiet(s) && !IsStopped(s) && s.holder.websocket == Some(w)
    && s.refresh.refreshInFlight == Some(f) && f in s.refresh.recoveries && f !in s.refresh.outcomes
    && s.state.Disconnected?
  }

  lemma RejectionSteps(cfg: Config, s: Client, ms: nat, w: nat, code: int, reason: string)
    requires Ready(cfg, s, w) && RejectsCredential(code) && !Storm(cfg.minRefreshIntervalMs, Later(s, ms).refresh)
    ensures var r := Step(cfg, s, After(ms, SocketCloses(w, code, reason)));
            && r.refresh == AuthRefresh(cfg.refreshFaults, Later(s, ms).refresh)
            && r == Dropped(s, w).(script := [], state := Disconnected(Some(code), true), refresh := r.refresh, history := r.history)
            && r.history.terminalCalls == s.history.terminalCalls
  {
    var a := Arrive(s, After(ms, SocketCloses(w, code, reason)));
    assert a == Later(s, ms);
    var t := Dropped(a, w);
    Uncalled(cfg, t, Disconnected(Some(code), true), None);
    var u := SetState(cfg, t, Disconnected(Some(code), true));
    Uncalled(cfg, u, GONE, None);
    assert !IsStopped(u);
  }

  /** An explicit rejection of the credential starts one refresh and announces a retry. */
  lemma RejectionRefreshes(cfg: Config, s: Client, ms: nat, w: nat, code: int, reason: string)
    requires Ready(cfg, s, w) && RatesOk(cfg.minRefreshIntervalMs, s.refresh)
    requires RejectsCredential(code) && !Storm(cfg.minRefreshIntervalMs, Later(s, ms).refresh)
    ensures var r := Step(cfg, s, After(ms, SocketCloses(w, code, reason)));
            && Recovering(r, w, |s.refresh.starts|)
            && r.state == Disconnected(Some(code), true)
            && r.refresh.starts == s.refresh.starts + [Start(s.refresh.clock + ms, AuthDriven)]
            && r.net.constructions == s.net.constructions
            && r.history.terminalCalls == s.history.terminalCalls
  {
    var i := After(ms, SocketCloses(w, code, reason));
    assert Quiet(Arrive(s, i));
    HandleQuiet(cfg, Arrive(s, i), i.event);
    RejectionSteps(cfg, s, ms, w, code, reason);
  }

  /** The client holds new wrapper `n`, carrying `token`, and waits for it to open. */
  ghost predicate Dialled(s: Client, n: nat, token: string) {
    && Quiet(s) && !IsStopped(s) && s.state.Disconnected?
    && s.holder == Holder(Some(n), Some(token), false) && s.net.live == {n}
  }

  /** What a swap does on a live client whose consumer stays out of it. */
  lemma QuietSwap(cfg: Config, s: Client, w: nat, token: string)
    requires Quiet(s) && !IsStopped(s) && s.script == [] && s.holder.websocket == Some(w) && s.state.Disconnected?
    requires s.net.constructions !in cfg.constructFaults
    ensures var (r, threw) := SwapSocket(cfg, s, Some(token));
            && !threw && Dialled(r, s.net.constructions, token)
            && r.history == s.history && r.queue == s.queue
            && r.net.constructions == s.net.constructions + 1
  {
    SwapQuiet(cfg, s, Some(token));
    var t := s.(swapping := true, holder := Holder(None, Some(token), false));
    Uncalled(cfg, t, GONE, Some(w));
  }

  /** Flight `f` has brought `token`, and its recovery is about to resume. */
  ghost predicate Recovered(s: Client, w: nat, f: nat, token: string) {
    && Quiet(s) && !IsStopped(s) && s.holder.websocket == Some(w) && s.state.Disconnected? && s.script == []
    && f in s.refresh.recoveries && f in s.refresh.outcomes && s.refresh.outcomes[f] == Fresh(token)
  }

  lemma SettleRecovering(cfg: Config, s: Client, ms: nat, w: nat, f: nat, token: string)
    requires Recovering(s, w, f)
    ensures var a := Step(cfg, s, After(ms, ProviderSettles(Fresh(token))));
            Recovered(a, w, f, token) && a.history == s.history && a.net == s.net
  {
    var a := Step(cfg, s, After(ms, ProviderSettles(Fresh(token))));
    assert a == s.(script := [], refresh := a.refresh);
  }

  /** The fresh token is put on a new socket; the old one is closed. */
  lemma FreshTokenDials(cfg: Config, s: Client, ms: nat, w: nat, f: nat, token: string)
    requires Recovered(s, w, f, token) && s.net.constructions !in cfg.constructFaults
    ensures var r := Step(cfg, s, After(ms, ResumeRecovery(f)));
            && Dialled(r, s.net.constructions, token) && r.history == s.history
            && r.net.constructions == s.net.constructions + 1
  {
    var a := Later(s, ms);
    var b := a.(refresh := a.refresh.(recoveries := a.refresh.recoveries - {f}));
    assert Arrive(s, After(ms, ResumeRecovery(f))) == a;
    assert Quiet(b) && !IsStopped(b);
    QuietSwap(cfg, b, w, token);
  }

  lemma HeldOpens(cfg: Config, s: Client, n: nat)
    requires s.script == [] && s.holder.websocket == Some(n) && !s.state.Connected?
    ensures HandleOpen(cfg, s, n)
         == Assign(Seen(s, n, OpenEvent).(holder := s.holder.(currentAttemptOpened := true)), Connected)
  {
    var t := Seen(s, n, OpenEvent);
    Uncalled(cfg, t.(holder := t.holder.(currentAttemptOpened := true)), Connected, None);
  }

  lemma DialledConnects(cfg: Config, s: Client, ms: nat, n: nat, token: string)
    requires Dialled(s, n, token) && Exists(cfg, s, n)
    ensures var r := Step(cfg, s, After(ms, SocketOpens(n)));
            && r.state == Connected && r.holder == Holder(Some(n), Some(token), true) && r.net.live == {n}
            && r.history.terminalCalls == s.history.terminalCalls
  {
    hide HandleOpen;
    HeldOpens(cfg, Later(s, ms), n);
  }

  /**
   A rejected credential is recovered from. From every reachable state in which a
   refresh may start: the server rejects the held socket, the provider delivers
   a token, the continuation runs, the new socket opens, each after any delay.
   The client is then connected over that one socket with that token, and nobody
   was told of a failure.
   */
  lemma RejectionIsRecovered(cfg: Config, inputs: seq<Input>, w: nat, code: int, reason: string, token: string,
                             a: nat, b: nat, c: nat, d: nat)
    requires Ready(cfg, Run(cfg, inputs), w)
    requires RejectsCredential(code) && !Storm(cfg.minRefreshIntervalMs, Later(Run(cfg, inputs), a).refresh)
    ensures var s := Run(cfg, inputs);
            var n, f := s.net.constructions, |s.refresh.starts|;
            var r := Run(cfg, inputs + [After(a, SocketCloses(w, code, reason))]
                              + [After(b, ProviderSettles(Fresh(token))), After(c, ResumeRecovery(f)), After(d, SocketOpens(n))]);
            && r.state == Connected && r.holder == Holder(Some(n), Some(token), true) && r.net.live == {n}
            && r.history.terminalCalls == s.history.terminalCalls
  {
    hide Step;
    var s := Run(cfg, inputs);
    var n, f := s.net.constructions, |s.refresh.starts|;
    var first := After(a, SocketCloses(w, code, reason));
    RunRates(cfg, inputs);
    RejectionRefreshes(cfg, s, a, w, code, reason);
    RunSnoc(cfg, inputs, first);
    var t := Step(cfg, s, first);
    var u := Step(cfg, t, After(b, ProviderSettles(Fresh(token))));
    SettleRecovering(cfg, t, b, w, f, token);
    FreshTokenDials(cfg, u, c, w, f, token);
    ThreeMore(cfg, inputs + [first], After(b, ProviderSettles(Fresh(token))), After(c, ResumeRecovery(f)), After(d, SocketOpens(n)));
    DialledConnects(cfg, Step(cfg, u, After(c, ResumeRecovery(f))), d, n, token);
  }

  // ---------- a missed heartbeat ----------

  /** A connected client in order, with nobody waiting for a reconnect and no refresh in the window. */
  ghost predicate Idle(cfg: Config, s: Client, w: nat) {
    && Ready(cfg, s, w) && s.state.Connected?
    && s.queue.pass.Idle? && s.queue.pending == [] && !s.queue.rerun && s.queue.trailing == []
    && !InsideWindow(cfg.minRefreshIntervalMs, s.refresh)
  }

  /** The pass of waiter `id` runs, past its jitter. */
  ghost predicate Passing(cfg: Config, s: Client, w: nat, id: nat) {
    && Ready(cfg, s, w) && s.state.Disconnected? && s.queue.pass == Jittered([id])
    && !s.queue.rerun && s.queue.trailing == [] && s.queue.passes > 0
    && !InsideWindow(cfg.minRefreshIntervalMs, s.refresh)
  }

  lemma HeartbeatQueues(cfg: Config, s: Client, ms: nat, w: nat)
    requires Idle(cfg, s, w)
    ensures var r := Step(cfg, s, After(ms, HeartbeatTimesOut));
            && Ready(cfg, r, w) && r.state.Disconnected? && r.refresh == Later(s, ms).refresh && r.net == s.net
            && r.queue == s.queue.(armed := true, pending := [|s.queue.calledAt|], calledAt := s.queue.calledAt + [s.queue.passes])
            && r.history.terminalCalls == s.history.terminalCalls
  {
    var a := Arrive(s, After(ms, HeartbeatTimesOut));
    assert a == Later(s, ms);
    HandleQuiet(cfg, a, HeartbeatTimesOut);
    Uncalled(cfg, a, Disconnected(None, true), None);
  }

  lemma TimersPass(cfg: Config, s: Client, a: nat, b: nat, w: nat, id: nat)
    requires Ready(cfg, s, w) && s.state.Disconnected? && !InsideWindow(cfg.minRefreshIntervalMs, s.refresh)
    requires s.queue.armed && s.queue.pending == [id] && s.queue.pass.Idle? && !s.queue.rerun && s.queue.trailing == []
    ensures var r := Step(cfg, Step(cfg, s, After(a, DebounceTimer)), After(b, JitterTimer));
            && Passing(cfg, r, w, id) && r.refresh == Later(s, a + b).refresh && r.net == s.net && r.history == s.history
  {
    var t := Step(cfg, s, After(a, DebounceTimer));
    assert t == Later(s, a).(queue := DebounceFires(s.queue, false));
    assert t.queue.pass == Jittering([id]);
  }

  /** The pass has its token and is about to resume. */
  ghost predicate Landing(s: Client, w: nat, id: nat, f: nat, token: string) {
    && Quiet(s) && !IsStopped(s) && s.holder.websocket == Some(w) && s.state.Disconnected? && s.script == []
    && s.queue.pass == Refreshing([id], f) && !s.queue.rerun
    && f in s.refresh.outcomes && s.refresh.outcomes[f] == Fresh(token)
  }

  lemma LaterKeepsRates(min: int, s: Client, ms: nat)
    requires RatesOk(min, s.refresh)
    ensures RatesOk(min, Later(s, ms).refresh)
  {
    assert Outstanding(Later(s, ms).refresh) == Outstanding(s.refresh);
  }

  /** Outside the window the pass refreshes first. */
  lemma PassRefreshes(cfg: Config, s: Client, a: nat, b: nat, w: nat, id: nat, token: string)
    requires Passing(cfg, s, w, id) && RatesOk(cfg.minRefreshIntervalMs, s.refresh)
    ensures var r := Step(cfg, Step(cfg, s, After(a, ResumePass(None))), After(b, ProviderSettles(Fresh(token))));
            && Landing(r, w, id, |s.refresh.starts|, token) && r.history == s.history && r.net == s.net
            && r.refresh.starts == s.refresh.starts + [Start(s.refresh.clock + a, Routine)]
  {
    var f := |s.refresh.starts|;
    LaterKeepsRates(cfg.minRefreshIntervalMs, s, a);
    var l := Later(s, a);
    var t := Step(cfg, s, After(a, ResumePass(None)));
    assert t == l.(refresh := RoutineRefresh(cfg.refreshFaults, l.refresh).0, queue := AwaitFlight(l.queue, f));
    var u := Step(cfg, t, After(b, ProviderSettles(Fresh(token))));
    assert u == t.(refresh := u.refresh);
  }

  /** It dials with the token and serves its waiter. */
  lemma PassServes(cfg: Config, s: Client, ms: nat, w: nat, id: nat, f: nat, token: string)
    requires Landing(s, w, id, f, token) && s.net.constructions !in cfg.constructFaults
    ensures var r := Step(cfg, s, After(ms, ResumePass(None)));
            && Dialled(r, s.net.constructions, token) && r.history == s.history
            && r.net.constructions == s.net.constructions + 1
            && id in r.queue.servedBy && r.queue.pass.Idle?
  {
    hide SwapSocket;
    var a := Later(s, ms);
    assert Arrive(s, After(ms, ResumePass(None))) == a;
    QuietSwap(cfg, a, w, token);
    var t := SwapSocket(cfg, a, Some(token)).0;
    assert FlightLanded(cfg, a, Fresh(token)) == t;
    FinishServes(t, s.net.constructions, token, id, f);
  }

  lemma FinishServes(t: Client, n: nat, token: string, id: nat, f: nat)
    requires Dialled(t, n, token) && t.queue.pass == Refreshing([id], f) && !t.queue.rerun
    ensures var r := FinishPass(t);
            && Dialled(r, n, token) && r.history == t.history && r.net == t.net
            && id in r.queue.servedBy && r.queue.pass.Idle?
  {
  }

  /** The missed heartbeat and the timers of the reconnect it asks for, each after its delay. */
  function TimerEvents(a: nat, b: nat, c: nat): seq<Input> {
    [After(a, HeartbeatTimesOut), After(b, DebounceTimer), After(c, JitterTimer)]
  }

  function PassEvents(token: string, a: nat, b: nat, c: nat): seq<Input> {
    [After(a, ResumePass(None)), After(b, ProviderSettles(Fresh(token))), After(c, ResumePass(None))]
  }

  lemma HeartbeatPasses(cfg: Config, inputs: seq<Input>, w: nat, a: nat, b: nat, c: nat)
    requires Idle(cfg, Run(cfg, inputs), w)
    ensures var s, r := Run(cfg, inputs), Run(cfg, inputs + TimerEvents(a, b, c));
            && Passing(cfg, r, w, |s.queue.calledAt|) && r.refresh.starts == s.refresh.starts && r.net == s.net
            && r.history.terminalCalls == s.history.terminalCalls
  {
    hide Step;
    ThreeMore(cfg, inputs, After(a, HeartbeatTimesOut), After(b, DebounceTimer), After(c, JitterTimer));
    var s := Run(cfg, inputs);
    HeartbeatQueues(cfg, s, a, w);
    TimersPass(cfg, Step(cfg, s, After(a, HeartbeatTimesOut)), b, c, w, |s.queue.calledAt|);
  }

  lemma PassDials(cfg: Config, inputs: seq<Input>, w: nat, id: nat, token: string, a: nat, b: nat, c: nat)
    requires Passing(cfg, Run(cfg, inputs), w, id) && RatesOk(cfg.minRefreshIntervalMs, Run(cfg, inputs).refresh)
    ensures var s, r := Run(cfg, inputs), Run(cfg, inputs + PassEvents(token, a, b, c));
            && Dialled(r, s.net.constructions, token) && r.history == s.history
            && Exists(cfg, r, s.net.constructions) && id in r.queue.servedBy
  {
    hide Step;
    var s := Run(cfg, inputs);
    var e := PassEvents(token, a, b, c);
    ThreeMore(cfg, inputs, e[0], e[1], e[2]);
    PassRefreshes(cfg, s, a, b, w, id, token);
    PassServes(cfg, Step(cfg, Step(cfg, s, e[0]), e[1]), c, w, id, |s.refresh.starts|, token);
  }

  /** How long the seven turns of a recovery take. */
  datatype Delays = Delays(heartbeat: nat, debounce: nat, jitter: nat, pass: nat, refresh: nat, landing: nat, dial: nat)

  /**
   A missed heartbeat is recovered from. From every reachable idle connected
   state, timers, refresh and network permitting and however long they take, the
   client ends connected over a new socket with a fresh token, and the reconnect
   it asked for is served.
   */
  lemma MissedHeartbeatIsRecovered(cfg: Config, inputs: seq<Input>, w: nat, token: string, d: Delays)
    requires Idle(cfg, Run(cfg, inputs), w)
    ensures var s := Run(cfg, inputs);
            var n := s.net.constructions;
            var r := Run(cfg, inputs + TimerEvents(d.heartbeat, d.debounce, d.jitter)
                              + PassEvents(token, d.pass, d.refresh, d.landing) + [After(d.dial, SocketOpens(n))]);
            && r.state == Connected && r.holder == Holder(Some(n), Some(token), true) && r.net.live == {n}
            && |s.queue.calledAt| in r.queue.servedBy
            && r.history.terminalCalls == s.history.terminalCalls
  {
    var n := Run(cfg, inputs).net.constructions;
    var timed := inputs + TimerEvents(d.heartbeat, d.debounce, d.jitter);
    var passed := timed + PassEvents(token, d.pass, d.refresh, d.landing);
    HeartbeatPasses(cfg, inputs, w, d.heartbeat, d.debounce, d.jitter);
    RunRates(cfg, timed);
    PassDials(cfg, timed, w, |Run(cfg, inputs).queue.calledAt|, token, d.pass, d.refresh, d.landing);
    RunSnoc(cfg, passed, After(d.dial, SocketOpens(n)));
    DialledConnects(cfg, Run(cfg, passed), d.dial, n, token);
  }
}
