/**
 What a live client holds: the wrapper its last constructor call returned, and
 no other. And what a refresh brought, it brought for good.
 */
module ClientHolding {
  import opened Wrappers
  import opened ConnectionStates
  import opened CloseDecisions
  import opened WebSocketHolders
  import opened ReconnectQueue
  import opened RefreshGuard
  import opened ClientModel
  import opened ClientSockets
  import opened ClientRuns
  import opened ClientTheorems

  /** The wrapper that the last constructor call returned; None if it threw, or there was none. */
  function LastBuilt(cfg: Config, s: Client): Option<nat> {
    var n := s.net.constructions;
    if n == 0 || n - 1 in cfg.constructFaults then None else Some(n - 1)
  }

  /** The client holds what it built last, and shows no state before it built. */
  predicate Fits(cfg: Config, s: Client) {
    && s.holder.websocket == LastBuilt(cfg, s)
    && (s.history.frames != [] ==> s.net.constructions > 0)
  }

  /** A client that outlives consumer code is as it was before, unless that code connected it. */
  predicate Outlives(cfg: Config, s: Client, r: Client) {
    && (IsDead(s) ==> IsDead(r))
    && (!IsDead(r) ==>
          || r == s.(script := r.script)
          || (Connectable(s) && Fits(cfg, r) && |s.history.frames| < |r.history.frames|))
  }

  /** A `connect()` past its guards, once its notification is over. */
  lemma DialOutlives(cfg: Config, s: Client, u: Client)
    requires Connectable(s) && Outlives(cfg, Assign(s, Connecting), u)
    ensures Outlives(cfg, s, Dial(cfg, u))
  {
  }

  lemma ConnectOutlives(cfg: Config, s: Client)
    ensures Outlives(cfg, s, Connect(cfg, s))
    decreases |s.script|, 2
  {
    hide Callback, Outlives, Dial;
    if Connectable(s) {
      CallbackOutlives(cfg, Assign(s, Connecting));
      DialOutlives(cfg, s, Callback(cfg, Assign(s, Connecting)));
    } else {
      OutlivesSelf(cfg, s, s);
    }
  }

  lemma DisposeOutlives(cfg: Config, s: Client)
    ensures Outlives(cfg, s, Dispose(cfg, s))
  {
  }

  lemma OutlivesThrough(cfg: Config, s: Client, t: Client, u: Client, r: Client)
    requires t == s.(script := t.script) && Outlives(cfg, t, u) && Outlives(cfg, u, r)
    ensures Outlives(cfg, s, r)
  {
  }

  lemma CallbackOutlives(cfg: Config, s: Client)
    ensures Outlives(cfg, s, Callback(cfg, s))
    decreases |s.script|, 1
  {
    hide Connect, Dispose, Outlives;
    if s.script == [] {
      OutlivesSelf(cfg, s, s);
    } else {
      var t := s.(script := s.script[1..]);
      match s.script[0]
      case Return => OutlivesSelf(cfg, s, t);
      case CallConnect =>
        ConnectOutlives(cfg, t);
        CallbackOutlives(cfg, Connect(cfg, t));
        OutlivesThrough(cfg, s, t, Connect(cfg, t), Callback(cfg, Connect(cfg, t)));
      case CallDispose =>
        DisposeOutlives(cfg, t);
        CallbackOutlives(cfg, Dispose(cfg, t));
        OutlivesThrough(cfg, s, t, Dispose(cfg, t), Callback(cfg, Dispose(cfg, t)));
    }
  }

  lemma OutlivesSelf(cfg: Config, s: Client, t: Client)
    requires t == s.(script := t.script)
    ensures Outlives(cfg, s, t)
  {
  }

  // ---------- turns ----------

  /** A live client fits. */
  predicate Lasting(cfg: Config, s: Client) {
    !IsDead(s) ==> Fits(cfg, s)
  }

  /** A client that is still alive fits, and the same state is shown if no other was. */
  predicate Endures(cfg: Config, s: Client, r: Client) {
    !IsDead(r) ==>
      && Fits(cfg, r)
      && |s.history.frames| <= |r.history.frames|
      && (|s.history.frames| == |r.history.frames| ==> r.state == s.state)
  }

  lemma CallbackEndures(cfg: Config, s: Client)
    requires Lasting(cfg, s)
    ensures Endures(cfg, s, Callback(cfg, s))
  {
    hide Callback;
    CallbackOutlives(cfg, s);
  }

  lemma EnduresThrough(cfg: Config, s: Client, t: Client, r: Client)
    requires Endures(cfg, s, t) && Endures(cfg, t, r) && (IsDead(t) ==> IsDead(r))
    ensures Endures(cfg, s, r)
  {
  }

  lemma GiveUpKills(cfg: Config, s: Client)
    requires DeathOk(s)
    ensures IsDead(GiveUp(cfg, s))
  {
  }

  lemma RecoveryEndures(cfg: Config, s: Client, trigger: AuthRecoveryTrigger)
    requires DeathOk(s) && Lasting(cfg, s)
    ensures Endures(cfg, s, TryAuthRecovery(cfg, s, trigger)) && (IsDead(s) ==> IsDead(TryAuthRecovery(cfg, s, trigger)))
  {
    hide GiveUp;
    GiveUpKills(cfg, s);
  }

  /** In a swap from `s`, the holder is empty unless consumer code has connected. */
  predicate Empties(cfg: Config, s: Client, r: Client) {
    !IsDead(r) ==>
      && (r.holder.websocket.None? || Fits(cfg, r))
      && |s.history.frames| <= |r.history.frames|
      && (|s.history.frames| == |r.history.frames| ==> r.state == s.state)
  }

  lemma DropEmpties(cfg: Config, s: Client, token: Option<string>)
    ensures var t := s.(holder := Holder(None, token, false));
            Empties(cfg, s, if t.state.Connected? then SetState(cfg, t, Disconnected(None, true)) else t)
  {
    hide Callback;
    CallbackOutlives(cfg, Assign(s.(holder := Holder(None, token, false)), Disconnected(None, true)));
  }

  lemma LatchEmpties(cfg: Config, s: Client, u: Client, w: nat, v: Client)
    requires Empties(cfg, s, u) && Outlives(cfg, Latch(u, w), v)
    ensures Empties(cfg, s, v)
  {
  }

  lemma TearDownEmpties(cfg: Config, s: Client, token: Option<string>)
    ensures Empties(cfg, s, TearDown(cfg, s, token))
  {
    hide Callback, SetState, Empties, Outlives;
    var t := s.(holder := Holder(None, token, false));
    var u := if t.state.Connected? then SetState(cfg, t, Disconnected(None, true)) else t;
    DropEmpties(cfg, s, token);
    if s.holder.websocket.Some? {
      var w := s.holder.websocket.value;
      CallbackOutlives(cfg, Latch(u, w));
      LatchEmpties(cfg, s, u, w, Callback(cfg, Latch(u, w)));
    }
  }

  /** Whichever way the swap goes on from there. */
  lemma SwapGoesOn(cfg: Config, s: Client, torn: Client)
    requires Empties(cfg, s.(swapping := true), torn)
    ensures var t := torn.(swapping := false);
            && (IsDead(t) ==> Endures(cfg, s, t.(holder := t.holder.(currentToken := None)))
                              && IsDead(t.(holder := t.holder.(currentToken := None))))
            && (t.holder.websocket.Some? ==> Endures(cfg, s, t))
            && (t.holder.websocket.None? ==> Endures(cfg, s, Construct(cfg, t).0))
  {
  }

  lemma SwapEndures(cfg: Config, s: Client, token: Option<string>)
    requires Quiet(s) && Lasting(cfg, s)
    ensures Endures(cfg, s, SwapSocket(cfg, s, token).0)
    ensures IsDead(s) ==> IsDead(SwapSocket(cfg, s, token).0)
  {
    if IsDead(s) {
      DeadSwapEndures(cfg, s, token);
    } else {
      hide TearDown, Quiet, Construct, Endures, Empties;
      NotSwapping(s);
      TearDownEmpties(cfg, s.(swapping := true), token);
      SwapGoesOn(cfg, s, TearDown(cfg, s.(swapping := true), token));
    }
  }

  lemma DeadSwapEndures(cfg: Config, s: Client, token: Option<string>)
    requires IsDead(s)
    ensures SwapSocket(cfg, s, token).0 == s && Endures(cfg, s, s)
  {
  }

  lemma LandingEndures(cfg: Config, s: Client, outcome: Outcome)
    requires Quiet(s) && Lasting(cfg, s)
    ensures Endures(cfg, s, FlightLanded(cfg, s, outcome))
  {
    hide GiveUp, SwapSocket;
    if outcome.Fresh? {
      SwapQuiet(cfg, s, Some(outcome.token));
      SwapEndures(cfg, s, Some(outcome.token));
    }
    GiveUpKills(cfg, AfterRefresh(cfg, s, outcome).0);
  }

  lemma JitterOverEndures(cfg: Config, s: Client, current: Option<string>)
    requires Quiet(s) && Lasting(cfg, s)
    ensures Endures(cfg, s, JitterOver(cfg, s, current))
  {
    hide SwapSocket, Finish;
    SwapEndures(cfg, s, if cfg.hasTokenProvider then current else None);
  }

  lemma PassEndures(cfg: Config, s: Client, current: Option<string>)
    requires Quiet(s) && Lasting(cfg, s)
    ensures Endures(cfg, s, PassResumes(cfg, s, current))
  {
    hide JitterOver, FlightLanded, Finish;
    match s.queue.pass
    case Jittered(_) => JitterOverEndures(cfg, s, current);
    case Refreshing(_, flight) =>
      if flight in s.refresh.outcomes {
        LandingEndures(cfg, s, s.refresh.outcomes[flight]);
      }
    case _ =>
  }

  lemma ResumeEndures(cfg: Config, s: Client, flight: nat)
    requires Quiet(s) && Lasting(cfg, s)
    ensures Endures(cfg, s, RecoveryResumes(cfg, s, flight))
  {
    hide FlightLanded;
    if flight in s.refresh.recoveries && flight in s.refresh.outcomes {
      var t := s.(refresh := s.refresh.(recoveries := s.refresh.recoveries - {flight}));
      BookkeepingQuiet(s, t);
      LandingEndures(cfg, t, s.refresh.outcomes[flight]);
    }
  }

  lemma FireKills(cfg: Config, s: Client)
    ensures IsDead(FireTerminal(cfg, s))
  {
  }

  lemma NeededEndures(cfg: Config, s: Client, trigger: AuthRecoveryTrigger)
    requires Quiet(s) && Lasting(cfg, s)
    ensures Endures(cfg, s, OnAuthRecoveryNeeded(cfg, s, trigger))
    ensures IsDead(s) ==> IsDead(OnAuthRecoveryNeeded(cfg, s, trigger))
  {
    hide Callback, TryAuthRecovery, FireTerminal, Quiet;
    FireKills(cfg, s);
    if cfg.hasTokenProvider {
      var t := Callback(cfg, s);
      CallbackOutlives(cfg, s);
      CallbackEndures(cfg, s);
      CallbackQuiet(cfg, s);
      QuietDeath(t);
      RecoveryEndures(cfg, t, trigger);
      EnduresThrough(cfg, s, t, TryAuthRecovery(cfg, t, trigger));
    }
  }

  lemma QuietDeath(s: Client)
    requires Quiet(s)
    ensures DeathOk(s)
  {
  }

  lemma RecoverEndures(cfg: Config, s: Client, w: nat, code: int, trigger: AuthRecoveryTrigger)
    requires Quiet(s) && Lasting(cfg, s) && s.holder.websocket == Some(w)
    ensures Endures(cfg, s, Recover(cfg, Dropped(s, w), code, trigger))
  {
    hide SetState, OnAuthRecoveryNeeded, Quiet;
    var t := Dropped(s, w);
    var u := SetState(cfg, t, Disconnected(Some(code), true));
    DropQuiet(cfg, s, w, Disconnected(Some(code), true));
    DropEndures(cfg, s, w, Disconnected(Some(code), true));
    NeededEndures(cfg, u, trigger);
    EnduresThrough(cfg, s, u, OnAuthRecoveryNeeded(cfg, u, trigger));
  }

  /** A drop of the held socket is shown, and whoever lives on still holds it. */
  lemma DropEndures(cfg: Config, s: Client, w: nat, next: ConnectionState)
    requires Quiet(s) && Lasting(cfg, s) && s.holder.websocket == Some(w) && next.Disconnected? && next.willRetry
    ensures Endures(cfg, s, SetState(cfg, Dropped(s, w), next))
  {
    hide Callback;
    var t := Dropped(s, w);
    CallbackOutlives(cfg, Assign(t, next));
  }

  lemma KickKills(cfg: Config, s: Client, w: nat)
    ensures IsDead(Kick(cfg, s, w))
  {
    hide Callback;
    CallbackOutlives(cfg, Assign(Latch(s, w), Kicked(SessionReplaced)));
  }

  lemma CloseEndures(cfg: Config, s: Client, w: nat, code: int, reason: string)
    requires Quiet(s) && Lasting(cfg, s)
    ensures Endures(cfg, s, HandleClose(cfg, s, w, code, reason))
  {
    hide Kick, SetState, Recover, Quiet;
    if s.holder.websocket == Some(w) {
      match DecideClose(code, reason, false, s.holder.currentAttemptOpened)
      case SessionReplacedClose => KickKills(cfg, Dropped(s, w), w);
      case NormalDisconnect(c) => DropEndures(cfg, s, w, Disconnected(Some(c), true));
      case AuthRecovery(c, trigger) => RecoverEndures(cfg, s, w, c, trigger);
    } else {
      StaleEventsIgnored(cfg, s, w, code, reason);
    }
  }

  lemma OpenEndures(cfg: Config, s: Client, w: nat)
    requires Quiet(s) && Lasting(cfg, s)
    ensures Endures(cfg, s, HandleOpen(cfg, s, w))
  {
    hide Callback, Quiet, Outlives;
    if s.holder.websocket == Some(w) {
      var a := ShownOpen(s, w);
      CallbackOutlives(cfg, a);
      OpenedEndures(cfg, s, w, Callback(cfg, a));
    }
  }

  /** The `connected` notification of an open. */
  function ShownOpen(s: Client, w: nat): Client {
    var t := Seen(s, w, OpenEvent);
    Assign(t.(holder := t.holder.(currentAttemptOpened := true)), Connected)
  }

  lemma OpenedEndures(cfg: Config, s: Client, w: nat, r: Client)
    requires Quiet(s) && Lasting(cfg, s) && s.holder.websocket == Some(w) && Outlives(cfg, ShownOpen(s, w), r)
    ensures Endures(cfg, s, r)
  {
  }

  lemma HeartbeatEndures(cfg: Config, s: Client)
    requires Quiet(s) && Lasting(cfg, s)
    ensures Endures(cfg, s, OnHeartbeatTimeout(cfg, s))
  {
    hide Callback, Enqueue;
    var t := Callback(cfg, s);
    CallbackOutlives(cfg, s);
    CallbackQuiet(cfg, s);
    CallbackOutlives(cfg, Assign(t, Disconnected(None, true)));
  }

  lemma UploadEndures(cfg: Config, s: Client)
    requires Quiet(s) && Lasting(cfg, s)
    ensures Endures(cfg, s, OnUpload401(cfg, s))
  {
    hide Callback, TryAuthRecovery, Quiet;
    var t := Callback(cfg, s);
    CallbackOutlives(cfg, s);
    CallbackEndures(cfg, s);
    CallbackQuiet(cfg, s);
    QuietDeath(t);
    RecoveryEndures(cfg, t, AuthClose);
    EnduresThrough(cfg, s, t, TryAuthRecovery(cfg, t, AuthClose));
  }

  lemma ApiEndures(cfg: Config, s: Client)
    requires Lasting(cfg, s)
    ensures Endures(cfg, s, Connect(cfg, s)) && Endures(cfg, s, Dispose(cfg, s))
  {
    hide Connect, Callback;
    ConnectOutlives(cfg, s);
  }

  lemma HandleEndures(cfg: Config, s: Client, e: Event)
    requires Quiet(s) && Lasting(cfg, s)
    ensures Endures(cfg, s, Handle(cfg, s, e))
  {
    hide Quiet, Callback, Connect, Dispose, HandleOpen, HandleClose, OnHeartbeatTimeout, OnUpload401, PassResumes,
      RecoveryResumes;
    match e
    case ApiConnect => ApiEndures(cfg, s);
    case ApiDispose => ApiEndures(cfg, s);
    case SocketOpens(w) => OpenEndures(cfg, s, w);
    case SocketCloses(w, code, reason) => CloseEndures(cfg, s, w, code, reason);
    case HeartbeatTimesOut => HeartbeatEndures(cfg, s);
    case Wakes => CallbackEndures(cfg, s);
    case Upload401 => UploadEndures(cfg, s);
    case ResumePass(current) => PassEndures(cfg, s, current);
    case ResumeRecovery(flight) => ResumeEndures(cfg, s, flight);
    case _ =>
  }

  lemma StepEndures(cfg: Config, s: Client, i: Input)
    requires Quiet(s) && Lasting(cfg, s)
    ensures Endures(cfg, s, Step(cfg, s, i))
  {
    hide Handle;
    var a := Arrive(s, i);
    assert Quiet(a);
    HandleEndures(cfg, a, i.event);
  }

  lemma {:induction false} RunLasting(cfg: Config, inputs: seq<Input>)
    ensures Lasting(cfg, Run(cfg, inputs))
  {
    hide Step, Quiet;
    if inputs != [] {
      var n := |inputs| - 1;
      RunLasting(cfg, inputs[..n]);
      RunQuiet(cfg, inputs[..n]);
      StepEndures(cfg, Run(cfg, inputs[..n]), inputs[n]);
    }
  }

  /**
   No limbo. A live client holds exactly the wrapper its last constructor call
   returned, un-closed. So once it has shown a state something retries, unless
   that call threw: then, and only then, it holds nothing.
   */
  lemma NobodyInLimbo(cfg: Config, inputs: seq<Input>)
    requires !IsDead(Run(cfg, inputs))
    ensures var s := Run(cfg, inputs);
            && s.holder.websocket == LastBuilt(cfg, s)
            && s.net.live == Held(s)
            && (s.history.frames != [] ==>
                  && s.net.constructions > 0
                  && (s.net.live == {} <==> s.net.constructions - 1 in cfg.constructFaults))
  {
    RunQuiet(cfg, inputs);
    RunLasting(cfg, inputs);
  }

  // ---------- one outcome a flight ----------

  predicate OutcomesStay(s: Client, r: Client) {
    forall f :: f in s.refresh.outcomes ==> f in r.refresh.outcomes && r.refresh.outcomes[f] == s.refresh.outcomes[f]
  }

  lemma SettleStays(r: Refresher, outcome: Outcome)
    requires SingleFlight(r)
    ensures forall f :: f in r.outcomes ==> f in Settle(r, outcome).outcomes && Settle(r, outcome).outcomes[f] == r.outcomes[f]
  {
    if r.refreshInFlight.Some? {
      assert r.refreshInFlight.value in Outstanding(r);
    }
  }

  lemma RecoveryOutcomes(cfg: Config, s: Client, trigger: AuthRecoveryTrigger)
    requires SingleFlight(s.refresh)
    ensures OutcomesStay(s, TryAuthRecovery(cfg, s, trigger))
  {
  }

  lemma PassOutcomes(cfg: Config, s: Client, current: Option<string>)
    requires SingleFlight(s.refresh)
    ensures OutcomesStay(s, PassResumes(cfg, s, current))
  {
  }

  lemma CloseOutcomes(cfg: Config, s: Client, w: nat, code: int, reason: string)
    requires SingleFlight(s.refresh)
    ensures OutcomesStay(s, HandleClose(cfg, s, w, code, reason))
  {
    var d := DecideClose(code, reason, s.holder.websocket != Some(w), s.holder.currentAttemptOpened);
    if d.AuthRecovery? {
      var t := SetState(cfg, Dropped(s, w), Disconnected(Some(d.closeCode), true));
      RecoveryOutcomes(cfg, Callback(cfg, t), d.trigger);
    }
  }

  lemma HandleOutcomes(cfg: Config, s: Client, e: Event)
    requires SingleFlight(s.refresh)
    ensures OutcomesStay(s, Handle(cfg, s, e))
  {
    hide HandleClose, PassResumes, TryAuthRecovery, Settle;
    match e
    case SocketCloses(w, code, reason) => CloseOutcomes(cfg, s, w, code, reason);
    case Upload401 => RecoveryOutcomes(cfg, Callback(cfg, s), AuthClose);
    case ProviderSettles(outcome) => SettleStays(s.refresh, outcome);
    case ResumePass(current) => PassOutcomes(cfg, s, current);
    case _ =>
  }

  lemma TurnOutcomes(cfg: Config, s: Client, i: Input)
    requires Rates(cfg, s)
    ensures OutcomesStay(s, Step(cfg, s, i))
  {
    assert Outstanding(Arrive(s, i).refresh) == Outstanding(s.refresh);
    HandleOutcomes(cfg, Arrive(s, i), i.event);
  }

  lemma StaysThrough(s: Client, t: Client, r: Client)
    requires OutcomesStay(s, t) && OutcomesStay(t, r)
    ensures OutcomesStay(s, r)
  {
  }

  lemma StaysSelf(s: Client)
    ensures OutcomesStay(s, s)
  {
  }

  /** All drivers of a flight see one outcome: once recorded, it is there for good. */
  lemma {:induction false} OneOutcome(cfg: Config, inputs: seq<Input>, more: seq<Input>)
    ensures OutcomesStay(Run(cfg, inputs), Run(cfg, inputs + more))
  {
    hide Step, OutcomesStay, Rates;
    if more == [] {
      assert inputs + more == inputs;
      StaysSelf(Run(cfg, inputs));
    } else {
      var n := |more| - 1;
      OneOutcome(cfg, inputs, more[..n]);
      RunRates(cfg, inputs + more[..n]);
      assert (inputs + more)[..|inputs + more| - 1] == inputs + more[..n];
      TurnOutcomes(cfg, Run(cfg, inputs + more[..n]), more[n]);
      StaysThrough(Run(cfg, inputs), Run(cfg, inputs + more[..n]), Run(cfg, inputs + more));
    }
  }
}
