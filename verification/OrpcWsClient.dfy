/**
 The client as an object: `createOrpcWsClient` and the collaborators it wires
 together. The collaborators call one another in a cycle (the swap closes a
 wrapper, the close runs consumer code, the consumer disposes of the client, the
 disposal reaches back into the reconnect manager), so their methods are the
 methods of this one class over their separate state.

 Every method does to `State()` what the function of that name in `ClientModel`
 does, and `Run` therefore inherits what `ClientTheorems` proves.
 */
module OrpcWsClients {
  import opened Wrappers
  import opened ConnectionStates
  import opened CloseDecisions
  import opened WebSocketHolders
  import opened ReconnectQueue
  import opened RefreshGuard
  import opened ClientModel
  import opened ClientSockets
  import opened ClientTheorems
  import opened ClientAbandonment

  class OrpcWsClient {
    const cfg: Config
    const connectionState: ConnectionStateManager
    const holder: WebSocketHolder
    const gate: RefreshGate
    const waiters: WaiterQueue
    var disposed: bool              // ClientLifecycle
    var terminalAuthFired: bool     // ClientLifecycle
    var terminalFired: bool         // ReconnectManager
    var swapping: bool              // TokenRefreshHandler.reconnectInProgress
    // The environment: wrappers, and what consumer code will do when called back.
    var constructions: nat
    var live: set<nat>
    var lastEvent: map<nat, SocketEvent>
    var script: seq<Call>
    // History.
    ghost var terminalCalls: nat
    ghost var death: Option<DeathMark>
    ghost var disposedWhileConnecting: bool

    ghost function State(): Client
      reads this, connectionState, holder, gate, waiters
    {
      Client(connectionState.state, holder.Value(), disposed, terminalAuthFired, terminalFired, swapping,
             gate.Value(), waiters.Value(), Net(constructions, live, lastEvent),
             History(connectionState.frames, terminalCalls, death, disposedWhileConnecting), script)
    }

    ghost predicate Valid()
      reads this, connectionState, gate
    {
      && connectionState.Valid()
      && connectionState.initial == NEW_CLIENT.state
      && gate.minRefreshIntervalMs == cfg.minRefreshIntervalMs
      && gate.faults == cfg.refreshFaults
    }

    constructor (cfg: Config)
      ensures Valid() && State() == NEW_CLIENT && this.cfg == cfg
      ensures fresh(connectionState) && fresh(holder) && fresh(gate) && fresh(waiters)
    {
      this.cfg := cfg;
      connectionState := new ConnectionStateManager(Disconnected(None, false));
      holder := new WebSocketHolder();
      gate := new RefreshGate(cfg.minRefreshIntervalMs, cfg.refreshFaults);
      waiters := new WaiterQueue();
      disposed, terminalAuthFired, terminalFired, swapping := false, false, false, false;
      constructions, live, lastEvent, script := 0, {}, map[], [];
      terminalCalls, death, disposedWhileConnecting := 0, None, false;
    }

    method CheckDead() returns (dead: bool)
      ensures dead <==> IsDead(State())
    {
      dead := disposed || terminalAuthFired || connectionState.state.Kicked?;
    }

    method CheckStopped() returns (stopped: bool)
      ensures stopped <==> IsStopped(State())
    {
      var dead := CheckDead();
      stopped := waiters.disposed || terminalFired || dead;
    }

    ghost method MarkDeath()
      modifies this`death
      ensures State() == Mark(old(State()))
    {
      if death.None? {
        death := Some(DeathMark(constructions, |gate.starts|, |connectionState.frames|));
      }
    }

    // ---------- consumer code ----------

    /** One callback: the consumer's code runs the scripted calls up to a `Return`. */
    method RunConsumer()
      requires Valid()
      modifies this, connectionState, holder, waiters
      ensures Valid() && State() == Callback(cfg, old(State()))
      decreases |script|, 0
    {
      if script == [] { return; }
      var call := script[0];
      script := script[1..];
      match call
      case Return =>
      case CallConnect =>
        Connect();
        RunConsumer();
      case CallDispose =>
        Dispose();
        RunConsumer();
    }

    method SetConnectionState(next: ConnectionState)
      requires Valid()
      modifies this, connectionState, holder, waiters
      ensures Valid() && State() == SetState(cfg, old(State()), next)
      decreases |script|, 1
    {
      if next.Kicked? && next != connectionState.state { MarkDeath(); }
      var notify := connectionState.SetState(next);
      if notify { RunConsumer(); }
    }

    // ---------- wrappers ----------

    method LatchWrapper(w: nat)
      modifies this`live, this`lastEvent
      ensures State() == Latch(old(State()), w)
    {
      live := live - {w};
      lastEvent := lastEvent[w := CloseEvent];
    }

    method CloseCaptured(w: Option<nat>)
      requires Valid()
      modifies this, connectionState, holder, waiters
      ensures Valid() && State() == CloseWrapper(cfg, old(State()), w)
      decreases |script|, 1
    {
      if w.Some? {
        LatchWrapper(w.value);
        RunConsumer();
      }
    }

    method ConstructWrapper() returns (threw: bool)
      modifies this`constructions, this`live, holder
      ensures (State(), threw) == ClientModel.Construct(cfg, old(State()))
    {
      var w := constructions;
      constructions := constructions + 1;
      if w in cfg.constructFaults { return true; }
      live := live + {w};
      holder.Set(w);
      return false;
    }

    // ---------- ClientLifecycle ----------

    method Connect()
      requires Valid()
      modifies this, connectionState, holder, waiters
      ensures Valid() && State() == ClientModel.Connect(cfg, old(State()))
      decreases |script|, 3
    {
      if disposed || terminalAuthFired { return; }
      var s := connectionState.state;
      if s.Connecting? || s.Connected? || s.Kicked? { return; }
      if holder.websocket.Some? { return; }
      SetConnectionState(Connecting);
      if disposed { disposedWhileConnecting := true; }
      var threw := ConstructWrapper();
    }

    method ShutDown(w: Option<nat>)
      requires Valid()
      modifies this, connectionState, holder, waiters
      ensures Valid() && State() == Shut(cfg, old(State()), w)
      decreases |script|, 2
    {
      CloseCaptured(w);
      SetConnectionState(Disconnected(None, false));
    }

    method Dispose()
      requires Valid()
      modifies this, connectionState, holder, waiters
      ensures Valid() && State() == ClientModel.Dispose(cfg, old(State()))
      decreases |script|, 3
    {
      if disposed { return; }
      MarkDeath();
      disposed := true;
      waiters.Dispose();
      var ws := holder.websocket;
      holder.Clear();
      ShutDown(ws);
    }

    /** The `auth_failure` event, then the consumer's terminal callback. */
    method AnnounceTerminal()
      requires Valid()
      modifies this, connectionState, holder, waiters
      ensures Valid() && State() == Announce(cfg, old(State()))
    {
      RunConsumer();
      terminalCalls := terminalCalls + 1;
      RunConsumer();
    }

    method FireTerminalAuthFailure()
      requires Valid()
      modifies this, connectionState, holder, waiters
      ensures Valid() && State() == FireTerminal(cfg, old(State()))
    {
      if terminalAuthFired { return; }
      MarkDeath();
      terminalAuthFired := true;
      var ws := holder.websocket;
      holder.Clear();
      assert State() == Entomb(old(State()));
      ShutDown(ws);
      AnnounceTerminal();
    }

    /** The manager's own single-fire latch in front of it. */
    method GiveUp()
      requires Valid()
      modifies this, connectionState, holder, waiters
      ensures Valid() && State() == ClientModel.GiveUp(cfg, old(State()))
    {
      var stopped := CheckStopped();
      if stopped { return; }
      terminalFired := true;
      FireTerminalAuthFailure();
    }

    // ---------- TokenRefreshHandler ----------

    /** `swapSocket` up to and including the close of the old wrapper: clear first, then close. */
    method TearDownSocket(token: Option<string>)
      requires Valid()
      modifies this, connectionState, holder, waiters
      ensures Valid() && State() == TearDown(cfg, old(State()), token)
    {
      var ws := holder.websocket;
      holder.Clear();
      holder.SetCurrentToken(token);
      if connectionState.state.Connected? {
        SetConnectionState(Disconnected(None, true));
      }
      CloseCaptured(ws);
    }

    method SwapSocket(token: Option<string>) returns (threw: bool)
      requires Valid()
      modifies this, connectionState, holder, waiters
      ensures Valid() && (State(), threw) == ClientModel.SwapSocket(cfg, old(State()), token)
    {
      hide ClientModel.TearDown, ClientModel.Construct;
      var dead := CheckDead();
      if dead || swapping { return false; }
      swapping := true;
      TearDownSocket(token);
      swapping := false;
      threw := false;
      dead := CheckDead();
      if dead {
        holder.SetCurrentToken(None);
      } else if holder.websocket.None? {
        threw := ConstructWrapper();
      }
    }

    /** `refreshAndReconnect` and its caller, once the flight has settled. */
    method FlightLanded(outcome: Outcome)
      requires Valid()
      modifies this, connectionState, holder, waiters
      ensures Valid() && State() == ClientModel.FlightLanded(cfg, old(State()), outcome)
    {
      var ok := false;
      if outcome.Fresh? {
        var threw := SwapSocket(Some(outcome.token));
        ok := !threw;
      }
      var stopped := CheckStopped();
      if stopped || ok { return; }
      GiveUp();
    }

    // ---------- ReconnectManager ----------

    method TryAuthRecovery(trigger: AuthRecoveryTrigger)
      requires Valid()
      modifies this, connectionState, holder, waiters, gate
      ensures Valid() && State() == ClientModel.TryAuthRecovery(cfg, old(State()), trigger)
    {
      var stopped := CheckStopped();
      if stopped || gate.refreshInFlight.Some? { return; }
      var inside := gate.IsInsideWindow();
      if inside && gate.lastRefreshWasAuthRecovery {
        if trigger.AuthClose? { GiveUp(); }
        return;
      }
      gate.BeginAuthRecovery();
    }

    method ResumeRecovery(flight: nat)
      requires Valid()
      modifies this, connectionState, holder, waiters, gate
      ensures Valid() && State() == RecoveryResumes(cfg, old(State()), flight)
    {
      if flight in gate.recoveries && flight in gate.outcomes {
        gate.recoveries := gate.recoveries - {flight};
        FlightLanded(gate.outcomes[flight]);
      }
    }

    method Reconnect()
      modifies waiters
      ensures State() == ClientModel.Reconnect(old(State()))
    {
      var stopped := CheckStopped();
      waiters.Reconnect(stopped);
    }

    method FinishPass()
      modifies waiters
      ensures State() == ClientModel.FinishPass(old(State()))
    {
      var stopped := CheckStopped();
      waiters.FinishPass(stopped);
    }

    method AfterJitter(current: Option<string>)
      requires Valid()
      modifies this, connectionState, holder, waiters, gate
      ensures Valid() && State() == JitterOver(cfg, old(State()), current)
    {
      var stopped := CheckStopped();
      var inside := gate.IsInsideWindow();
      if stopped {
        FinishPass();
      } else if !cfg.hasTokenProvider {
        var _ := SwapSocket(None);
        FinishPass();
      } else if inside {
        var _ := SwapSocket(current);
        FinishPass();
      } else {
        var flight := gate.BeginRoutine();
        waiters.Await(flight);
      }
    }

    method ResumePass(current: Option<string>)
      requires Valid()
      modifies this, connectionState, holder, waiters, gate
      ensures Valid() && State() == PassResumes(cfg, old(State()), current)
    {
      hide ClientModel.JitterOver, ClientModel.FlightLanded, ClientModel.FinishPass;
      match waiters.pass
      case Jittered(_) => AfterJitter(current);
      case Refreshing(_, flight) =>
        if flight in gate.outcomes {
          FlightLanded(gate.outcomes[flight]);
          FinishPass();
        }
      case _ =>
    }

    // ---------- EventHandlers ----------

    method HandleOpen(w: nat)
      requires Valid()
      modifies this, connectionState, holder, waiters
      ensures Valid() && State() == ClientModel.HandleOpen(cfg, old(State()), w)
    {
      lastEvent := lastEvent[w := OpenEvent];
      if holder.websocket != Some(w) { return; }
      holder.MarkCurrentAttemptOpened();
      SetConnectionState(Connected);
    }

    method KickOut(w: nat)
      requires Valid()
      modifies this, connectionState, holder, waiters
      ensures Valid() && State() == Kick(cfg, old(State()), w)
    {
      LatchWrapper(w);
      SetConnectionState(Kicked(SessionReplaced));
      holder.Clear();
    }

    method AttemptRecovery(code: int, trigger: AuthRecoveryTrigger)
      requires Valid()
      modifies this, connectionState, holder, waiters, gate
      ensures Valid() && State() == Recover(cfg, old(State()), code, trigger)
    {
      SetConnectionState(Disconnected(Some(code), true));
      OnAuthRecoveryNeeded(trigger);
    }

    method HandleClose(w: nat, code: int, reason: string)
      requires Valid()
      modifies this, connectionState, holder, waiters, gate
      ensures Valid() && State() == ClientModel.HandleClose(cfg, old(State()), w, code, reason)
    {
      var isStaleWs := holder.websocket != Some(w);
      var attemptHadOpened := holder.currentAttemptOpened;
      lastEvent := lastEvent[w := CloseEvent];
      if !isStaleWs { holder.ResetCurrentAttempt(); }
      match DecideClose(code, reason, isStaleWs, attemptHadOpened)
      case Ignore =>
      case SessionReplacedClose => KickOut(w);
      case AuthRecovery(c, trigger) => AttemptRecovery(c, trigger);
      case NormalDisconnect(c) => SetConnectionState(Disconnected(Some(c), true));
    }

    // ---------- wiring ----------

    method OnAuthRecoveryNeeded(trigger: AuthRecoveryTrigger)
      requires Valid()
      modifies this, connectionState, holder, waiters, gate
      ensures Valid() && State() == ClientModel.OnAuthRecoveryNeeded(cfg, old(State()), trigger)
    {
      if !cfg.hasTokenProvider {
        if trigger.AuthClose? { FireTerminalAuthFailure(); }
        return;
      }
      RunConsumer();
      TryAuthRecovery(trigger);
    }

    method OnHeartbeatTimeout()
      requires Valid()
      modifies this, connectionState, holder, waiters
      ensures Valid() && State() == ClientModel.OnHeartbeatTimeout(cfg, old(State()))
    {
      if connectionState.state.Kicked? { return; }
      RunConsumer();
      if connectionState.state.Connected? {
        SetConnectionState(Disconnected(None, true));
      }
      Reconnect();
    }

    method OnWake()
      requires Valid()
      modifies this, connectionState, holder, waiters
      ensures Valid() && State() == ClientModel.OnWake(cfg, old(State()))
    {
      RunConsumer();
      if connectionState.state.Kicked? { return; }
      Reconnect();
    }

    method OnUpload401()
      requires Valid()
      modifies this, connectionState, holder, waiters, gate
      ensures Valid() && State() == ClientModel.OnUpload401(cfg, old(State()))
    {
      if !cfg.hasTokenProvider { return; }
      RunConsumer();
      TryAuthRecovery(AuthClose);
    }

    // ---------- the event loop ----------

    method HandleSocketEvent(e: Event)
      requires Valid() && (e.SocketOpens? || e.SocketCloses?)
      modifies this, connectionState, holder, waiters, gate
      ensures Valid() && State() == Handle(cfg, old(State()), e)
    {
      if e.w < constructions && e.w !in cfg.constructFaults {
        match e
        case SocketOpens(w) => HandleOpen(w);
        case SocketCloses(w, code, reason) => HandleClose(w, code, reason);
      }
    }

    method HandleTimer(e: Event)
      requires Valid() && (e.DebounceTimer? || e.JitterTimer? || e.ProviderSettles?)
      modifies waiters, gate
      ensures Valid() && State() == Handle(cfg, old(State()), e)
    {
      match e
      case DebounceTimer =>
        var stopped := CheckStopped();
        waiters.DebounceTimer(stopped);
      case JitterTimer => waiters.JitterTimer();
      case ProviderSettles(outcome) => gate.ProviderSettles(outcome);
    }

    method HandleEvent(e: Event)
      requires Valid()
      modifies this, connectionState, holder, waiters, gate
      ensures Valid() && State() == Handle(cfg, old(State()), e)
    {
      match e
      case ApiConnect => Connect();
      case ApiDispose => Dispose();
      case UrlRead(token) => holder.SetCurrentToken(token);
      case HeartbeatTimesOut => OnHeartbeatTimeout();
      case Wakes => OnWake();
      case Upload401 => OnUpload401();
      case ResumePass(current) => ResumePass(current);
      case ResumeRecovery(flight) => ResumeRecovery(flight);
      case DebounceTimer => HandleTimer(e);
      case JitterTimer => HandleTimer(e);
      case ProviderSettles(_) => HandleTimer(e);
      case _ => HandleSocketEvent(e);
    }

    method Begin(i: Input)
      requires Valid()
      modifies this`script, gate`clock
      ensures Valid() && State() == Arrive(old(State()), i)
    {
      script := i.calls;
      gate.clock := gate.clock + i.elapsed;
    }

    method Turn(i: Input)
      requires Valid()
      modifies this, connectionState, holder, waiters, gate
      ensures Valid() && State() == Step(cfg, old(State()), i)
    {
      Begin(i);
      HandleEvent(i.event);
    }
  }

  /** A whole life of a client, and what holds at its end. */
  method Live(cfg: Config, inputs: seq<Input>) returns (c: OrpcWsClient)
    ensures fresh(c) && c.Valid() && c.State() == Run(cfg, inputs)
    ensures Deduplicated(NEW_CLIENT.state, c.connectionState.frames)
    ensures c.State().net.live == Held(c.State())
    ensures Absorbed(c.State()) <==> !Abandoned(cfg, inputs)
  {
    c := new OrpcWsClient(cfg);
    for k := 0 to |inputs|
      invariant fresh(c) && fresh(c.connectionState) && fresh(c.holder) && fresh(c.gate) && fresh(c.waiters)
      invariant c.cfg == cfg && c.Valid() && c.State() == Run(cfg, inputs[..k])
    {
      assert inputs[..k + 1][..k] == inputs[..k];
      c.Turn(inputs[k]);
    }
    assert inputs[..|inputs|] == inputs;
    NoOrphanSockets(cfg, inputs);
    DeathIsAbsorbing(cfg, inputs);
  }
}
