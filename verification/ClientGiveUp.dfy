/**
 When the client gives up, and why.
 */
module ClientGiveUp {
  import opened Wrappers
  import opened ConnectionStates
  import opened CloseDecisions
  import opened WebSocketHolders
  import opened RefreshGuard
  import opened ClientModel
  import opened ClientSockets
  import opened ClientTheorems
  import opened ClientRates
  import opened ClientTurns
  import opened ClientRuns
  import opened ClientAbandonment

  // ---------- justified give-up ----------

  /** A wrapper constructor or a provider `refresh()` threw between `s` and `r`. */
  predicate Threw(cfg: Config, s: Client, r: Client) {
    || (exists n :: s.net.constructions <= n < r.net.constructions && n in cfg.constructFaults)
    || (exists f :: |s.refresh.starts| <= f < |r.refresh.starts| && f in cfg.refreshFaults)
  }

  /**
   Whether turn `i` gives the client a reason to give up: the server rejects
   the credential of its current socket, or, where there is a provider, an
   upload is answered 401, a refresh fails, or something throws.
   */
  predicate Reason(cfg: Config, s: Client, i: Input) {
    || (i.event.SocketCloses? && s.holder.websocket == Some(i.event.w) && RejectsCredential(i.event.code))
    || (cfg.hasTokenProvider &&
          (i.event.Upload401?
           || (i.event.ProviderSettles? && !i.event.outcome.Fresh?)
           || Threw(cfg, s, Step(cfg, s, i))))
  }

  /** So far nothing has gone wrong that could end in a terminal failure. */
  ghost predicate Blameless(cfg: Config, s: Client) {
    && !s.terminalAuthFired
    && (forall f :: f in s.refresh.outcomes ==> f < |s.refresh.starts| && s.refresh.outcomes[f].Fresh?)
    && (s.refresh.refreshInFlight.Some? ==> s.refresh.refreshInFlight.value < |s.refresh.starts|)
    && (!cfg.hasTokenProvider ==> s.refresh.starts == [])
  }

  lemma FlightLandedBlameless(cfg: Config, s: Client, outcome: Outcome)
    requires Blameless(cfg, s) && outcome.Fresh?
    ensures Blameless(cfg, FlightLanded(cfg, s, outcome)) || Threw(cfg, s, FlightLanded(cfg, s, outcome))
  {
    var x := AfterRefresh(cfg, s, outcome);
    if !x.1 {
      var n := x.0.net.constructions - 1;
      assert s.net.constructions <= n < FlightLanded(cfg, s, outcome).net.constructions;
    }
  }

  lemma AuthRefreshBlameless(cfg: Config, s: Client)
    requires Blameless(cfg, s) && cfg.hasTokenProvider && s.refresh.refreshInFlight.None?
    ensures var r := s.(refresh := AuthRefresh(cfg.refreshFaults, s.refresh));
            Blameless(cfg, r) || Threw(cfg, s, r)
  {
    var r := s.(refresh := AuthRefresh(cfg.refreshFaults, s.refresh));
    var f := |s.refresh.starts|;
    assert |r.refresh.starts| == f + 1;
  }

  lemma TryAuthRecoveryBlameless(cfg: Config, s: Client)
    requires Blameless(cfg, s) && cfg.hasTokenProvider
    ensures var r := TryAuthRecovery(cfg, s, PreOpen1000);
            Blameless(cfg, r) || Threw(cfg, s, r)
  {
    if s.refresh.refreshInFlight.None? {
      AuthRefreshBlameless(cfg, s);
    }
  }

  lemma HandleCloseBlameless(cfg: Config, s: Client, w: nat, code: int, reason: string)
    requires Blameless(cfg, s)
    requires !(s.holder.websocket == Some(w) && RejectsCredential(code))
    ensures var r := HandleClose(cfg, s, w, code, reason);
            Blameless(cfg, r) || (cfg.hasTokenProvider && Threw(cfg, s, r))
  {
    hide Callback, SetState, TryAuthRecovery;
    var d := DecideClose(code, reason, s.holder.websocket != Some(w), s.holder.currentAttemptOpened);
    if d.AuthRecovery? {
      var t := SetState(cfg, Dropped(s, w), Disconnected(Some(d.closeCode), true));
      if cfg.hasTokenProvider {
        TryAuthRecoveryBlameless(cfg, Callback(cfg, t));
      }
    }
  }

  lemma SwapBlameless(cfg: Config, s: Client, token: Option<string>)
    requires Blameless(cfg, s)
    ensures Blameless(cfg, FinishPass(SwapSocket(cfg, s, token).0))
  {
  }

  lemma RoutineBlameless(cfg: Config, s: Client)
    requires Blameless(cfg, s) && cfg.hasTokenProvider
    ensures var r := s.(refresh := RoutineRefresh(cfg.refreshFaults, s.refresh).0);
            Blameless(cfg, r) || Threw(cfg, s, r)
  {
    var r := s.(refresh := RoutineRefresh(cfg.refreshFaults, s.refresh).0);
    var f := |s.refresh.starts|;
    assert r.refresh.starts == s.refresh.starts || |r.refresh.starts| == f + 1;
  }

  lemma JitterOverBlameless(cfg: Config, s: Client, current: Option<string>)
    requires Blameless(cfg, s)
    ensures var r := JitterOver(cfg, s, current);
            Blameless(cfg, r) || (cfg.hasTokenProvider && Threw(cfg, s, r))
  {
    if !IsStopped(s) {
      if cfg.hasTokenProvider && !InsideWindow(cfg.minRefreshIntervalMs, s.refresh) {
        RoutineBlameless(cfg, s);
      } else {
        SwapBlameless(cfg, s, if cfg.hasTokenProvider then current else None);
      }
    }
  }

  lemma PassResumesBlameless(cfg: Config, s: Client, current: Option<string>)
    requires Blameless(cfg, s)
    ensures var r := PassResumes(cfg, s, current);
            Blameless(cfg, r) || (cfg.hasTokenProvider && Threw(cfg, s, r))
  {
    match s.queue.pass
    case Jittered(_) => JitterOverBlameless(cfg, s, current);
    case Refreshing(_, flight) =>
      if flight in s.refresh.outcomes {
        FlightLandedBlameless(cfg, s, s.refresh.outcomes[flight]);
      }
    case _ =>
  }

  lemma RecoveryResumesBlameless(cfg: Config, s: Client, flight: nat)
    requires Blameless(cfg, s)
    ensures var r := RecoveryResumes(cfg, s, flight);
            Blameless(cfg, r) || (cfg.hasTokenProvider && Threw(cfg, s, r))
  {
    if flight in s.refresh.recoveries && flight in s.refresh.outcomes {
      var t := s.(refresh := s.refresh.(recoveries := s.refresh.recoveries - {flight}));
      assert Blameless(cfg, t);
      FlightLandedBlameless(cfg, t, s.refresh.outcomes[flight]);
    }
  }

  lemma HandleBlameless(cfg: Config, s: Client, e: Event)
    requires Blameless(cfg, s)
    requires e.SocketCloses? ==> !(s.holder.websocket == Some(e.w) && RejectsCredential(e.code))
    requires cfg.hasTokenProvider ==> !e.Upload401? && (e.ProviderSettles? ==> e.outcome.Fresh?)
    ensures var r := Handle(cfg, s, e);
            Blameless(cfg, r) || (cfg.hasTokenProvider && Threw(cfg, s, r))
  {
    match e
    case SocketCloses(w, code, reason) => HandleCloseBlameless(cfg, s, w, code, reason);
    case ResumePass(current) => PassResumesBlameless(cfg, s, current);
    case ResumeRecovery(flight) => RecoveryResumesBlameless(cfg, s, flight);
    case _ =>
  }

  lemma StepBlameless(cfg: Config, s: Client, i: Input)
    requires Blameless(cfg, s) && !Reason(cfg, s, i)
    ensures Blameless(cfg, Step(cfg, s, i))
  {
    assert Blameless(cfg, Arrive(s, i));
    HandleBlameless(cfg, Arrive(s, i), i.event);
  }

  lemma NewIsBlameless(cfg: Config)
    ensures Blameless(cfg, NEW_CLIENT)
  {
  }

  lemma {:induction false} RunBlameless(cfg: Config, inputs: seq<Input>)
    requires forall k :: 0 <= k < |inputs| ==> !Reason(cfg, Run(cfg, inputs[..k]), inputs[k])
    ensures Blameless(cfg, Run(cfg, inputs))
  {
    hide Step, Reason, Blameless;
    if inputs == [] {
      NewIsBlameless(cfg);
    } else {
      var n := |inputs| - 1;
      forall k | 0 <= k < n
        ensures !Reason(cfg, Run(cfg, inputs[..n][..k]), inputs[..n][k])
      {
        assert inputs[..n][..k] == inputs[..k];
      }
      RunBlameless(cfg, inputs[..n]);
      StepBlameless(cfg, Run(cfg, inputs[..n]), inputs[n]);
    }
  }

  /**
   Justified give-up. If the consumer was told of a terminal failure, some
   earlier turn of the run gave a reason: pre-open closes, connection timeouts,
   heartbeat timeouts and wakes alone never do, in whatever number. Without a
   provider the only reason is that the server rejected the current socket.
   */
  lemma GiveUpIsJustified(cfg: Config, inputs: seq<Input>)
    requires Run(cfg, inputs).history.terminalCalls > 0
    ensures exists k :: 0 <= k < |inputs| && Reason(cfg, Run(cfg, inputs[..k]), inputs[k])
  {
    if forall k :: 0 <= k < |inputs| ==> !Reason(cfg, Run(cfg, inputs[..k]), inputs[k]) {
      RunBlameless(cfg, inputs);
      TerminalAtMostOnce(cfg, inputs);
    }
  }

  // ---------- and when it must ----------

  /**
   The client as turn `i` finds that auth is beyond repair, after the consumer
   calls of that turn before it; None if the turn does not.
    - The credential is rejected in a storm: auth recovery with an explicit
      rejection, no flight in the air, an auth-driven refresh inside the window.
    - A refresh that a recovery or a pass awaited brought no token, or the dial
      with it threw, and the client is not stopped.
    - The credential of the held socket is rejected and there is no provider.
   */
  function BeyondRepair(cfg: Config, s: Client, i: Input): Option<Client> {
    var a := Arrive(s, i);
    match i.event
    case ResumeRecovery(f) =>
      if f !in a.refresh.recoveries || f !in a.refresh.outcomes then None
      else Unrepaired(cfg, a.(refresh := a.refresh.(recoveries := a.refresh.recoveries - {f})), a.refresh.outcomes[f])
    case ResumePass(_) =>
      if !a.queue.pass.Refreshing? || a.queue.pass.flight !in a.refresh.outcomes then None
      else Unrepaired(cfg, a, a.refresh.outcomes[a.queue.pass.flight])
    case SocketCloses(w, code, reason) => if cfg.hasTokenProvider then Stormy(cfg, s, i) else Unprovided(cfg, a, w, code)
    case _ => Stormy(cfg, s, i)
  }

  function Unrepaired(cfg: Config, s: Client, outcome: Outcome): Option<Client> {
    var (r, ok) := AfterRefresh(cfg, s, outcome);
    if ok || IsStopped(r) then None else Some(r)
  }

  function Stormy(cfg: Config, s: Client, i: Input): Option<Client> {
    match RecoveryPoint(cfg, s, i)
    case None => None
    case Some((p, trigger)) =>
      if trigger.AuthClose? && !IsStopped(p) && p.refresh.refreshInFlight.None? && Storm(cfg.minRefreshIntervalMs, p.refresh)
      then Some(p) else None
  }

  function Unprovided(cfg: Config, a: Client, w: nat, code: int): Option<Client> {
    if Exists(cfg, a, w) && a.holder.websocket == Some(w) && RejectsCredential(code) && !a.terminalAuthFired
    then Some(SetState(cfg, Dropped(a, w), Disconnected(Some(code), true))) else None
  }

  /** The consumer has been told, and the client is dead. */
  predicate GaveUp(s: Client) {
    s.terminalAuthFired && s.history.terminalCalls == 1 && IsDead(s)
  }

  /** `r` follows `s` and has told the consumer once more if and only if `told`. */
  predicate Tells(s: Client, r: Client, told: bool) {
    && r.history.terminalCalls == s.history.terminalCalls + (if told then 1 else 0)
    && (told ==> r.terminalAuthFired)
  }

  lemma GiveUpTells(cfg: Config, s: Client)
    ensures Tells(s, GiveUp(cfg, s), !IsStopped(s))
  {
  }

  lemma FireTells(cfg: Config, s: Client)
    ensures Tells(s, FireTerminal(cfg, s), !s.terminalAuthFired)
  {
  }

  lemma LandingTells(cfg: Config, s: Client, outcome: Outcome)
    ensures Tells(s, FlightLanded(cfg, s, outcome), Unrepaired(cfg, s, outcome).Some?)
  {
    GiveUpTells(cfg, AfterRefresh(cfg, s, outcome).0);
  }

  lemma RecoveryTells(cfg: Config, s: Client, trigger: AuthRecoveryTrigger)
    ensures Tells(s, TryAuthRecovery(cfg, s, trigger),
                  trigger.AuthClose? && !IsStopped(s) && s.refresh.refreshInFlight.None? && Storm(cfg.minRefreshIntervalMs, s.refresh))
  {
    GiveUpTells(cfg, s);
  }

  lemma PointTells(cfg: Config, s: Client, i: Input)
    requires RecoveryPoint(cfg, s, i).Some?
    ensures Tells(s, Step(cfg, s, i), Stormy(cfg, s, i).Some?)
  {
    var (p, trigger) := RecoveryPoint(cfg, s, i).value;
    assert Step(cfg, s, i) == TryAuthRecovery(cfg, p, trigger);
    RecoveryTells(cfg, p, trigger);
  }

  lemma CloseTells(cfg: Config, s: Client, i: Input)
    requires i.event.SocketCloses? && RecoveryPoint(cfg, s, i).None?
    ensures Tells(s, Step(cfg, s, i), BeyondRepair(cfg, s, i).Some?)
  {
    hide Callback, SetState, FireTerminal;
    var a := Arrive(s, i);
    var w, code := i.event.w, i.event.code;
    if Exists(cfg, a, w) && a.holder.websocket == Some(w) && RejectsCredential(code) && !cfg.hasTokenProvider {
      var t := SetState(cfg, Dropped(a, w), Disconnected(Some(code), true));
      assert Step(cfg, s, i) == FireTerminal(cfg, t);
      FireTells(cfg, t);
    } else {
      QuietCloseTells(cfg, s, i);
    }
  }

  lemma QuietCloseTells(cfg: Config, s: Client, i: Input)
    requires i.event.SocketCloses? && RecoveryPoint(cfg, s, i).None?
    requires cfg.hasTokenProvider || Unprovided(cfg, Arrive(s, i), i.event.w, i.event.code).None?
    requires s.holder.websocket == Some(i.event.w) && RejectsCredential(i.event.code) ==> cfg.hasTokenProvider || !Exists(cfg, s, i.event.w)
    ensures Tells(s, Step(cfg, s, i), false)
  {
  }

  lemma PassTells(cfg: Config, s: Client, current: Option<string>)
    requires !s.queue.pass.Refreshing?
    ensures Tells(s, PassResumes(cfg, s, current), false)
  {
  }

  lemma ResumedRecoveryTells(cfg: Config, s: Client, i: Input, f: nat)
    requires i.event == ResumeRecovery(f)
    ensures Tells(s, Step(cfg, s, i), BeyondRepair(cfg, s, i).Some?)
  {
    var a := Arrive(s, i);
    if f in a.refresh.recoveries && f in a.refresh.outcomes {
      LandingTells(cfg, a.(refresh := a.refresh.(recoveries := a.refresh.recoveries - {f})), a.refresh.outcomes[f]);
    }
  }

  /** The `finally` of a pass tells nobody anything. */
  lemma FinishTells(s: Client, r: Client, told: bool)
    requires Tells(s, r, told)
    ensures Tells(s, FinishPass(r), told)
  {
  }

  lemma PassLandingTells(cfg: Config, s: Client, current: Option<string>)
    requires s.queue.pass.Refreshing? && s.queue.pass.flight in s.refresh.outcomes
    ensures Tells(s, PassResumes(cfg, s, current), Unrepaired(cfg, s, s.refresh.outcomes[s.queue.pass.flight]).Some?)
  {
    var outcome := s.refresh.outcomes[s.queue.pass.flight];
    LandingTells(cfg, s, outcome);
    FinishTells(s, FlightLanded(cfg, s, outcome), Unrepaired(cfg, s, outcome).Some?);
  }

  lemma ResumedPassTells(cfg: Config, s: Client, i: Input, current: Option<string>)
    requires i.event == ResumePass(current)
    ensures Tells(s, Step(cfg, s, i), BeyondRepair(cfg, s, i).Some?)
  {
    var a := Arrive(s, i);
    assert Step(cfg, s, i) == PassResumes(cfg, a, current);
    if !a.queue.pass.Refreshing? {
      PassTells(cfg, a, current);
    } else if a.queue.pass.flight in a.refresh.outcomes {
      PassLandingTells(cfg, a, current);
    }
  }

  /** A turn tells the consumer of a terminal failure if and only if it finds auth beyond repair. */
  lemma TerminalTurnIff(cfg: Config, s: Client, i: Input)
    ensures Tells(s, Step(cfg, s, i), BeyondRepair(cfg, s, i).Some?)
  {
    if RecoveryPoint(cfg, s, i).Some? {
      PointTells(cfg, s, i);
    } else {
      match i.event
      case SocketCloses(_, _, _) => CloseTells(cfg, s, i);
      case ResumeRecovery(f) => ResumedRecoveryTells(cfg, s, i, f);
      case ResumePass(current) => ResumedPassTells(cfg, s, i, current);
      case _ => OtherTells(cfg, Arrive(s, i), i.event);
    }
  }

  lemma OtherTells(cfg: Config, s: Client, e: Event)
    requires !e.SocketCloses? && !e.ResumeRecovery? && !e.ResumePass? && (e.Upload401? ==> !cfg.hasTokenProvider)
    ensures Tells(s, Handle(cfg, s, e), false)
  {
  }

  /**
   The converse: the client gives up, and tells the consumer the first and only
   time, in exactly those turns of any run that find auth beyond repair.
   */
  lemma GivesUpWhenDue(cfg: Config, inputs: seq<Input>, i: Input)
    ensures var s, r := Run(cfg, inputs), Run(cfg, inputs + [i]);
            && (BeyondRepair(cfg, s, i).Some? ==> s.history.terminalCalls == 0 && GaveUp(r))
            && (BeyondRepair(cfg, s, i).None? ==> r.history.terminalCalls == s.history.terminalCalls)
  {
    assert (inputs + [i])[..|inputs|] == inputs;
    TerminalTurnIff(cfg, Run(cfg, inputs), i);
    TerminalAtMostOnce(cfg, inputs);
    TerminalAtMostOnce(cfg, inputs + [i]);
  }

  // ---------- and when that is, in terms of the state before the turn ----------

  /** Flight `f` has settled without a token, or the dial with its token will throw. */
  predicate BroughtNothing(cfg: Config, s: Client, f: nat) {
    f in s.refresh.outcomes && (!s.refresh.outcomes[f].Fresh? || s.net.constructions in cfg.constructFaults)
  }

  /** Auth is rejected while the client storms, with no flight in the air that could still help. */
  predicate Storms(cfg: Config, s: Client, i: Input) {
    s.refresh.refreshInFlight.None? && s.refresh.lastRefreshWasAuthRecovery && Recent(cfg, s, i)
  }

  predicate Rejected(cfg: Config, s: Client, w: nat, code: int) {
    Exists(cfg, s, w) && s.holder.websocket == Some(w) && RejectsCredential(code)
  }

  /**
   The reasons by name: a second rejection in the window, over the socket or
   over an upload; a recovery or a routine refresh that came to nothing; a
   rejection without a provider.
   */
  predicate PlainlyBroken(cfg: Config, s: Client, i: Input) {
    match i.event
    case SocketCloses(w, code, _) => Rejected(cfg, s, w, code) && (cfg.hasTokenProvider ==> Storms(cfg, s, i))
    case Upload401 => cfg.hasTokenProvider && Storms(cfg, s, i)
    case ResumeRecovery(f) => f in s.refresh.recoveries && BroughtNothing(cfg, s, f)
    case ResumePass(_) => s.queue.pass.Refreshing? && BroughtNothing(cfg, s, s.queue.pass.flight)
    case _ => false
  }

  lemma UncalledSwap(cfg: Config, s: Client, token: Option<string>)
    requires Quiet(s) && !IsStopped(s) && s.script == []
    ensures var (r, threw) := SwapSocket(cfg, s, token);
            !IsStopped(r) && (threw <==> s.net.constructions in cfg.constructFaults)
  {
    hide Callback;
    var t := s.(swapping := true, holder := Holder(None, token, false));
    Uncalled(cfg, t, Disconnected(None, true), s.holder.websocket);
    var u := if t.state.Connected? then Assign(t, Disconnected(None, true)) else t;
    Uncalled(cfg, u, GONE, s.holder.websocket);
    assert TearDown(cfg, s.(swapping := true), token) == CloseWrapper(cfg, u, s.holder.websocket);
  }

  lemma UncalledLanding(cfg: Config, s: Client, outcome: Outcome)
    requires Quiet(s) && !IsStopped(s) && s.script == []
    ensures Unrepaired(cfg, s, outcome).Some? <==> !outcome.Fresh? || s.net.constructions in cfg.constructFaults
  {
    hide SwapSocket, Quiet;
    if outcome.Fresh? {
      UncalledSwap(cfg, s, Some(outcome.token));
    }
  }

  lemma PlainResumption(cfg: Config, s: Client, i: Input, f: nat)
    requires Quiet(Arrive(s, i)) && !IsStopped(s) && i.calls == [] && i.event == ResumeRecovery(f)
    ensures BeyondRepair(cfg, s, i).Some? <==> PlainlyBroken(cfg, s, i)
  {
    hide Unrepaired, Quiet;
    var a := Arrive(s, i);
    if f in a.refresh.recoveries && f in a.refresh.outcomes {
      var t := a.(refresh := a.refresh.(recoveries := a.refresh.recoveries - {f}));
      BookkeepingQuiet(a, t);
      UncalledLanding(cfg, t, a.refresh.outcomes[f]);
    }
  }

  lemma PlainClose(cfg: Config, s: Client, i: Input, w: nat, code: int, reason: string)
    requires Quiet(Arrive(s, i)) && !IsStopped(s) && i.calls == [] && i.event == SocketCloses(w, code, reason)
    ensures BeyondRepair(cfg, s, i).Some? <==> PlainlyBroken(cfg, s, i)
  {
    hide Callback;
    var t := Dropped(Arrive(s, i), w);
    var next := Disconnected(Some(code), true);
    Uncalled(cfg, t, next, None);
    Uncalled(cfg, SetState(cfg, t, next), GONE, None);
  }

  /**
   For a client that is not stopped, and a turn in which the consumer calls
   nothing: the client finds auth beyond repair for one of the reasons by name,
   and for no other.
   */
  lemma PlainlyBeyondRepair(cfg: Config, inputs: seq<Input>, i: Input)
    requires !IsStopped(Run(cfg, inputs)) && i.calls == []
    ensures BeyondRepair(cfg, Run(cfg, inputs), i).Some? <==> PlainlyBroken(cfg, Run(cfg, inputs), i)
  {
    hide Quiet, Callback, Unrepaired;
    var s := Run(cfg, inputs);
    var a := Arrive(s, i);
    RunQuiet(cfg, inputs);
    ArriveQuiet(s, i);
    match i.event
    case SocketCloses(w, code, reason) => PlainClose(cfg, s, i, w, code, reason);
    case Upload401 => Uncalled(cfg, a, GONE, None);
    case ResumeRecovery(f) => PlainResumption(cfg, s, i, f);
    case ResumePass(_) =>
      if a.queue.pass.Refreshing? && a.queue.pass.flight in a.refresh.outcomes {
        UncalledLanding(cfg, a, a.refresh.outcomes[a.queue.pass.flight]);
      }
    case _ =>
  }

  // ---------- told after death ----------

  /**
   The credential of the held socket is rejected, there is no provider, and the
   consumer either had abandoned the client, or disposes of it in the
   `disconnected` notification, if the turn has one.
   */
  predicate TellsTheDead(cfg: Config, s: Client, i: Input) {
    && !cfg.hasTokenProvider && i.event.SocketCloses? && !s.terminalAuthFired
    && Rejected(cfg, s, i.event.w, i.event.code)
    && (s.disposed || (s.state != Disconnected(Some(i.event.code), true) && DisposesFirst(i.calls)))
  }

  lemma DropKills(cfg: Config, s: Client, w: nat, code: int)
    requires Quiet(s) && s.holder.websocket == Some(w) && !s.terminalAuthFired
    ensures var next := Disconnected(Some(code), true);
            IsDead(SetState(cfg, Dropped(s, w), next)) <==> s.disposed || (s.state != next && DisposesFirst(s.script))
  {
    hide Callback;
    var a := Assign(Dropped(s, w), Disconnected(Some(code), true));
    if !s.disposed {
      DisposedIff(cfg, a);
    }
  }

  /** Whoever finds auth beyond repair otherwise is not dead. */
  lemma LivingAreTold(cfg: Config, s: Client, i: Input)
    requires i.event.SocketCloses? ==> cfg.hasTokenProvider
    ensures BeyondRepair(cfg, s, i).Some? ==> !IsDead(BeyondRepair(cfg, s, i).value)
  {
    hide Callback, AfterRefresh;
  }

  /**
   The client that is told dead is not dead already, except in exactly the turns
   that tell the dead.
   */
  lemma DeadAreToldIff(cfg: Config, inputs: seq<Input>, i: Input)
    ensures var s := Run(cfg, inputs);
            (BeyondRepair(cfg, s, i).Some? && IsDead(BeyondRepair(cfg, s, i).value)) <==> TellsTheDead(cfg, s, i)
  {
    hide Quiet, BeyondRepair, TellsTheDead;
    var s := Run(cfg, inputs);
    RunQuiet(cfg, inputs);
    ArriveQuiet(s, i);
    if i.event.SocketCloses? && !cfg.hasTokenProvider {
      DeadCloseIff(cfg, s, i);
    } else {
      LivingAreTold(cfg, s, i);
      assert !TellsTheDead(cfg, s, i) by { TellsOnClose(cfg, s, i); }
    }
  }

  lemma TellsOnClose(cfg: Config, s: Client, i: Input)
    ensures TellsTheDead(cfg, s, i) ==> i.event.SocketCloses? && !cfg.hasTokenProvider
  {
  }

  lemma DeadCloseIff(cfg: Config, s: Client, i: Input)
    requires Quiet(Arrive(s, i)) && i.event.SocketCloses? && !cfg.hasTokenProvider
    ensures (BeyondRepair(cfg, s, i).Some? && IsDead(BeyondRepair(cfg, s, i).value)) <==> TellsTheDead(cfg, s, i)
  {
    hide Quiet, Callback, SetState;
    if Rejected(cfg, s, i.event.w, i.event.code) && !s.terminalAuthFired {
      DropKills(cfg, Arrive(s, i), i.event.w, i.event.code);
    }
  }
}
