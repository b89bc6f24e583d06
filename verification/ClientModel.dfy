/**
 One browser client as a value, and every synchronous stretch of its code as a
 function from client to client.

 An `async` method is one function up to its first `await` and one function per
 continuation; `Step` lets the environment pick which of them runs next. The
 consumer's code runs inside the client's own calls (state observers, `onEvent`,
 the terminal callback, listeners of a closing socket). What it does there is
 scripted by `script`: every such callback consumes calls up to a `Return`.
 */
module ClientModel {
  import opened Wrappers
  import opened ConnectionStates
  import opened CloseDecisions
  import opened WebSocketHolders
  import opened ReconnectQueue
  import opened RefreshGuard

  datatype Call = CallConnect | CallDispose | Return

  datatype SocketEvent = OpenEvent | CloseEvent

  /**
   What the consumer configures, and which constructor and `refresh()` calls
   throw synchronously (by the number of the call).
   */
  datatype Config = Config(
    hasTokenProvider: bool,
    minRefreshIntervalMs: int,
    constructFaults: set<nat>,
    refreshFaults: set<nat>)

  /** The wrappers out there. */
  datatype Net = Net(
    constructions: nat,                   // constructor calls so far
    live: set<nat>,                       // wrappers on which close() was not called
    lastEvent: map<nat, SocketEvent>)     // last lifecycle event delivered, by wrapper

  datatype DeathMark = DeathMark(constructions: nat, refreshes: nat, frames: nat)

  /** What observers could record; no operation of the client reads it. */
  datatype History = History(
    frames: seq<ConnectionState>,         // states observers were notified of
    terminalCalls: nat,                   // onTerminalAuthFailure calls
    death: Option<DeathMark>,             // what had happened when the client first died
    disposedWhileConnecting: bool)        // dispose() ran inside the `connecting` notification

  datatype Client = Client(
    state: ConnectionState,
    holder: Holder,
    disposed: bool,               // ClientLifecycle
    terminalAuthFired: bool,      // ClientLifecycle
    terminalFired: bool,          // ReconnectManager
    swapping: bool,               // TokenRefreshHandler.reconnectInProgress
    refresh: Refresher,
    queue: Queue,
    net: Net,
    history: History,
    script: seq<Call>)

  const NEW_CLIENT := Client(
    Disconnected(None, false), Holder(None, None, false), false, false, false, false,
    UNUSED, EMPTY, Net(0, {}, map[]), History([], 0, None, false), [])

  predicate IsDead(s: Client) {
    s.disposed || s.terminalAuthFired || s.state.Kicked?
  }

  predicate IsStopped(s: Client) {
    s.queue.disposed || s.terminalFired || IsDead(s)
  }

  /** Records, the first time only, how much the client had done when it died. */
  function Mark(s: Client): Client {
    if s.history.death.Some? then s
    else
      s.(history := s.history.(death := Some(
           DeathMark(s.net.constructions, |s.refresh.starts|, |s.history.frames|))))
  }

  // ---------- what the socket side of the client never touches ----------

  ghost predicate HistoryGrows(s: Client, r: Client) {
    && s.net.constructions <= r.net.constructions
    && |s.refresh.starts| <= |r.refresh.starts|
    && (s.history.death.Some? ==> r.history.death == s.history.death)
    && (s.history.disposedWhileConnecting ==> r.history.disposedWhileConnecting)
  }

  ghost predicate QueueFrame(s: Client, r: Client) {
    (r.queue == s.queue || r.queue == DisposeQueue(s.queue)) && HistoryGrows(s, r)
  }

  /** Tearing down or replacing a socket leaves refreshes alone, and waiters but for disposal. */
  ghost predicate SocketFrame(s: Client, r: Client) {
    r.refresh == s.refresh && QueueFrame(s, r)
  }

  /** The same for a whole callback, whatever the consumer does in it. */
  ghost predicate CallbackFrame(s: Client, r: Client) {
    && SocketFrame(s, r)
    && |r.script| <= |s.script|
    && SameTerminal(s, r)
    && r.terminalFired == s.terminalFired
    && r.swapping == s.swapping
    && (s.disposed ==> r.disposed)
  }

  /** The consumer has been told of the terminal failure once if the latch is set, and never otherwise. */
  ghost predicate ToldOnce(s: Client) {
    s.history.terminalCalls == if s.terminalAuthFired then 1 else 0
  }

  /** No new terminal failure. */
  ghost predicate SameTerminal(s: Client, r: Client) {
    r.terminalAuthFired == s.terminalAuthFired && r.history.terminalCalls == s.history.terminalCalls
  }

  // ---------- callbacks, connection state, sockets ----------

  /** One synchronous run of consumer code. */
  function Callback(cfg: Config, s: Client): (r: Client)
    ensures CallbackFrame(s, r)
    decreases |s.script|, 0
  {
    if s.script == [] then s
    else
      var t := s.(script := s.script[1..]);
      match s.script[0]
      case Return => t
      case CallConnect => Callback(cfg, Connect(cfg, t))
      case CallDispose => Callback(cfg, Dispose(cfg, t))
  }

  /** `setState` up to the notification. */
  function Assign(s: Client, next: ConnectionState): Client {
    var t := if next.Kicked? then Mark(s) else s;
    t.(state := next, history := t.history.(frames := t.history.frames + [next]))
  }

  function SetState(cfg: Config, s: Client, next: ConnectionState): (r: Client)
    ensures CallbackFrame(s, r)
    decreases |s.script|, 1
  {
    if StatesEqual(s.state, next) then s else Callback(cfg, Assign(s, next))
  }

  function ClearHolder(s: Client): Client {
    s.(holder := Holder(None, None, false))
  }

  /** What `close()` does to the wrapper itself. */
  function Latch(s: Client, w: nat): Client {
    s.(net := s.net.(live := s.net.live - {w}, lastEvent := s.net.lastEvent[w := CloseEvent]))
  }

  /**
   `close()` on a wrapper the holder no longer names. The close event is
   dispatched synchronously: the client's own handler drops it as stale
   (`StaleEventsIgnored`), every other listener is consumer code.
   */
  function CloseWrapper(cfg: Config, s: Client, w: Option<nat>): (r: Client)
    ensures CallbackFrame(s, r)
    decreases |s.script|, 1
  {
    if w.None? then s else Callback(cfg, Latch(s, w.value))
  }

  /** `WebSocketFactory.create` and `holder.set`; the flag says whether the constructor threw. */
  function Construct(cfg: Config, s: Client): (Client, bool) {
    var w := s.net.constructions;
    if w in cfg.constructFaults then (s.(net := s.net.(constructions := w + 1)), true)
    else
      (s.(holder := s.holder.(websocket := Some(w), currentAttemptOpened := false),
          net := s.net.(constructions := w + 1, live := s.net.live + {w})),
       false)
  }

  /** `connect()` after its `connecting` notification. */
  function Dial(cfg: Config, s: Client): (r: Client)
    ensures CallbackFrame(s, r)
  {
    var t := if s.disposed then s.(history := s.history.(disposedWhileConnecting := true)) else s;
    Construct(cfg, t).0
  }

  // ---------- ClientLifecycle ----------

  function Connect(cfg: Config, s: Client): (r: Client)
    ensures CallbackFrame(s, r)
    decreases |s.script|, 3
  {
    if s.disposed || s.terminalAuthFired then s
    else if s.state.Connecting? || s.state.Connected? || s.state.Kicked? then s
    else if s.holder.websocket.Some? then s
    else Dial(cfg, SetState(cfg, s, Connecting))
  }

  /** The end of both teardowns: close the captured wrapper, then show the final state. */
  function Shut(cfg: Config, s: Client, w: Option<nat>): (r: Client)
    ensures CallbackFrame(s, r)
    decreases |s.script|, 2
  {
    SetState(cfg, CloseWrapper(cfg, s, w), Disconnected(None, false))
  }

  /** `dispose()` up to the close of its wrapper: latch first, clear the holder before closing. */
  function Bury(s: Client): Client {
    ClearHolder(Mark(s).(disposed := true, queue := DisposeQueue(s.queue)))
  }

  function Dispose(cfg: Config, s: Client): (r: Client)
    ensures CallbackFrame(s, r)
    decreases |s.script|, 3
  {
    if s.disposed then s else Shut(cfg, Bury(s), s.holder.websocket)
  }

  function HandleKicked(s: Client): Client {
    ClearHolder(s)
  }

  /** `fireTerminalAuthFailure` up to the close of its wrapper. */
  function Entomb(s: Client): Client {
    ClearHolder(Mark(s).(terminalAuthFired := true))
  }

  /** The `auth_failure` event, then the consumer's terminal callback. */
  function Announce(cfg: Config, s: Client): (r: Client)
    ensures SocketFrame(s, r) && r.terminalAuthFired == s.terminalAuthFired
    ensures r.history.terminalCalls == s.history.terminalCalls + 1
  {
    var t := Callback(cfg, s);
    Callback(cfg, t.(history := t.history.(terminalCalls := t.history.terminalCalls + 1)))
  }

  /** `ClientLifecycle.fireTerminalAuthFailure`. */
  function FireTerminal(cfg: Config, s: Client): (r: Client)
    ensures SocketFrame(s, r)
    ensures ToldOnce(s) ==> ToldOnce(r)
  {
    if s.terminalAuthFired then s else Announce(cfg, Shut(cfg, Entomb(s), s.holder.websocket))
  }

  /** `ReconnectManager.fireTerminalAuthFailure`. */
  function GiveUp(cfg: Config, s: Client): (r: Client)
    ensures SocketFrame(s, r)
    ensures ToldOnce(s) ==> ToldOnce(r)
  {
    if IsStopped(s) then s else FireTerminal(cfg, s.(terminalFired := true))
  }

  // ---------- TokenRefreshHandler ----------

  /** `swapSocket` up to and including the close of the old wrapper. */
  function TearDown(cfg: Config, s: Client, token: Option<string>): (r: Client)
    ensures CallbackFrame(s, r)
  {
    var t := s.(holder := Holder(None, token, false));
    var u := if t.state.Connected? then SetState(cfg, t, Disconnected(None, true)) else t;
    CloseWrapper(cfg, u, s.holder.websocket)
  }

  /** `swapSocket`; the flag says whether it threw. */
  function SwapSocket(cfg: Config, s: Client, token: Option<string>): (r: (Client, bool))
    ensures SocketFrame(s, r.0)
    ensures r.1 ==> s.net.constructions < r.0.net.constructions && r.0.net.constructions - 1 in cfg.constructFaults
    ensures SameTerminal(s, r.0)
  {
    if IsDead(s) || s.swapping then (s, false)
    else
      var t := TearDown(cfg, s.(swapping := true), token).(swapping := false);
      if IsDead(t) then (t.(holder := t.holder.(currentToken := None)), false)
      else if t.holder.websocket.Some? then (t, false)
      else Construct(cfg, t)
  }

  /** `refreshAndReconnect` after its await; the flag is its result, false also when it threw. */
  function AfterRefresh(cfg: Config, s: Client, outcome: Outcome): (r: (Client, bool))
    ensures SocketFrame(s, r.0)
    ensures SameTerminal(s, r.0)
  {
    if !outcome.Fresh? then (s, false)
    else
      var x := SwapSocket(cfg, s, Some(outcome.token));
      (x.0, !x.1)
  }

  /** What `tryAuthRecovery` and `runReconnect` do alike once their flight has settled. */
  function FlightLanded(cfg: Config, s: Client, outcome: Outcome): (r: Client)
    ensures SocketFrame(s, r)
    ensures ToldOnce(s) ==> ToldOnce(r)
  {
    var x := AfterRefresh(cfg, s, outcome);
    if IsStopped(x.0) || x.1 then x.0 else GiveUp(cfg, x.0)
  }

  // ---------- ReconnectManager ----------

  function TryAuthRecovery(cfg: Config, s: Client, trigger: AuthRecoveryTrigger): (r: Client)
    ensures QueueFrame(s, r) && (ToldOnce(s) ==> ToldOnce(r))
  {
    if IsStopped(s) then s
    else if s.refresh.refreshInFlight.Some? then s
    else if Storm(cfg.minRefreshIntervalMs, s.refresh) then
      if trigger.PreOpen1000? then s else GiveUp(cfg, s)
    else s.(refresh := AuthRefresh(cfg.refreshFaults, s.refresh))
  }

  /** A suspended `tryAuthRecovery` resumes once its flight has settled. */
  function RecoveryResumes(cfg: Config, s: Client, flight: nat): (r: Client)
    ensures QueueFrame(s, r) && (ToldOnce(s) ==> ToldOnce(r))
  {
    if flight !in s.refresh.recoveries || flight !in s.refresh.outcomes then s
    else
      FlightLanded(cfg, s.(refresh := s.refresh.(recoveries := s.refresh.recoveries - {flight})),
                   s.refresh.outcomes[flight])
  }

  function Reconnect(s: Client): Client {
    s.(queue := Enqueue(s.queue, IsStopped(s)))
  }

  function FinishPass(s: Client): Client {
    s.(queue := Finish(s.queue, IsStopped(s)))
  }

  /** `runReconnect` after its jitter delay. `current` is what `getToken()` returns. */
  function JitterOver(cfg: Config, s: Client, current: Option<string>): (r: Client)
    ensures HistoryGrows(s, r) && (ToldOnce(s) ==> ToldOnce(r))
  {
    if IsStopped(s) then FinishPass(s)
    else if !cfg.hasTokenProvider then FinishPass(SwapSocket(cfg, s, None).0)
    else if InsideWindow(cfg.minRefreshIntervalMs, s.refresh) then FinishPass(SwapSocket(cfg, s, current).0)
    else
      var x := RoutineRefresh(cfg.refreshFaults, s.refresh);
      s.(refresh := x.0, queue := AwaitFlight(s.queue, x.1))
  }

  /** The continuations of `runReconnect`. */
  function PassResumes(cfg: Config, s: Client, current: Option<string>): (r: Client)
    ensures HistoryGrows(s, r) && (ToldOnce(s) ==> ToldOnce(r))
  {
    match s.queue.pass
    case Jittered(_) => JitterOver(cfg, s, current)
    case Refreshing(_, flight) =>
      if flight !in s.refresh.outcomes then s
      else FinishPass(FlightLanded(cfg, s, s.refresh.outcomes[flight]))
    case _ => s
  }

  // ---------- EventHandlers ----------

  /** The last lifecycle event wrapper `w` delivered. */
  function Seen(s: Client, w: nat, e: SocketEvent): Client {
    s.(net := s.net.(lastEvent := s.net.lastEvent[w := e]))
  }

  function HandleOpen(cfg: Config, s: Client, w: nat): (r: Client)
    ensures QueueFrame(s, r) && (ToldOnce(s) ==> ToldOnce(r))
  {
    var t := Seen(s, w, OpenEvent);
    if s.holder.websocket != Some(w) then t
    else SetState(cfg, t.(holder := t.holder.(currentAttemptOpened := true)), Connected)
  }

  /** The attempt flag is reset before the close is dispatched. */
  function Dropped(s: Client, w: nat): (r: Client)
    ensures QueueFrame(s, r) && SameTerminal(s, r)
  {
    var t := Seen(s, w, CloseEvent);
    t.(holder := t.holder.(currentAttemptOpened := false))
  }

  /** Session replaced. The socket behind the wrapper has just closed, so `close(4005)` only latches. */
  function Kick(cfg: Config, s: Client, w: nat): (r: Client)
    ensures SocketFrame(s, r) && SameTerminal(s, r)
  {
    HandleKicked(SetState(cfg, Latch(s, w), Kicked(SessionReplaced)))
  }

  /** Retrying is announced before recovery is attempted. */
  function Recover(cfg: Config, s: Client, code: int, trigger: AuthRecoveryTrigger): (r: Client)
    ensures QueueFrame(s, r) && (ToldOnce(s) ==> ToldOnce(r))
  {
    OnAuthRecoveryNeeded(cfg, SetState(cfg, s, Disconnected(Some(code), true)), trigger)
  }

  function HandleClose(cfg: Config, s: Client, w: nat, code: int, reason: string): (r: Client)
    ensures QueueFrame(s, r) && (ToldOnce(s) ==> ToldOnce(r))
  {
    match DecideClose(code, reason, s.holder.websocket != Some(w), s.holder.currentAttemptOpened)
    case Ignore => Seen(s, w, CloseEvent)
    case SessionReplacedClose => Kick(cfg, Dropped(s, w), w)
    case AuthRecovery(c, trigger) => Recover(cfg, Dropped(s, w), c, trigger)
    case NormalDisconnect(c) => SetState(cfg, Dropped(s, w), Disconnected(Some(c), true))
  }

  // ---------- wiring in createOrpcWsClient ----------

  function OnAuthRecoveryNeeded(cfg: Config, s: Client, trigger: AuthRecoveryTrigger): (r: Client)
    ensures QueueFrame(s, r) && (ToldOnce(s) ==> ToldOnce(r))
  {
    if !cfg.hasTokenProvider then
      if trigger.PreOpen1000? then s else FireTerminal(cfg, s)
    else TryAuthRecovery(cfg, Callback(cfg, s), trigger)
  }

  function OnHeartbeatTimeout(cfg: Config, s: Client): (r: Client)
    ensures HistoryGrows(s, r) && (ToldOnce(s) ==> ToldOnce(r))
  {
    if s.state.Kicked? then s
    else
      var t := Callback(cfg, s);
      Reconnect(if t.state.Connected? then SetState(cfg, t, Disconnected(None, true)) else t)
  }

  function OnWake(cfg: Config, s: Client): (r: Client)
    ensures HistoryGrows(s, r) && (ToldOnce(s) ==> ToldOnce(r))
  {
    var t := Callback(cfg, s);
    if t.state.Kicked? then t else Reconnect(t)
  }

  function OnUpload401(cfg: Config, s: Client): (r: Client)
    ensures QueueFrame(s, r) && (ToldOnce(s) ==> ToldOnce(r))
  {
    if !cfg.hasTokenProvider then s
    else TryAuthRecovery(cfg, Callback(cfg, s), AuthClose)
  }

  // ---------- runs ----------

  datatype Event =
    | ApiConnect
    | ApiDispose
    | SocketOpens(w: nat)
    | SocketCloses(w: nat, code: int, reason: string)
    | UrlRead(token: Option<string>)   // the URL provider closure, on every attempt
    | HeartbeatTimesOut
    | Wakes
    | Upload401
    | DebounceTimer
    | JitterTimer
    | ProviderSettles(outcome: Outcome)
    | ResumePass(current: Option<string>)
    | ResumeRecovery(flight: nat)

  /** One turn of the event loop: how much time passed, what happens, what consumer code does meanwhile. */
  datatype Input = Input(elapsed: nat, event: Event, calls: seq<Call>)

  /** A wrapper that a constructor call returned. */
  predicate Exists(cfg: Config, s: Client, w: nat) {
    w < s.net.constructions && w !in cfg.constructFaults
  }

  function Arrive(s: Client, i: Input): Client {
    s.(script := i.calls, refresh := s.refresh.(clock := s.refresh.clock + i.elapsed))
  }

  function Handle(cfg: Config, s: Client, e: Event): (r: Client)
    ensures HistoryGrows(s, r) && (ToldOnce(s) ==> ToldOnce(r))
  {
    match e
    case ApiConnect => Connect(cfg, s)
    case ApiDispose => Dispose(cfg, s)
    case SocketOpens(w) => if Exists(cfg, s, w) then HandleOpen(cfg, s, w) else s
    case SocketCloses(w, code, reason) => if Exists(cfg, s, w) then HandleClose(cfg, s, w, code, reason) else s
    case UrlRead(token) => s.(holder := s.holder.(currentToken := token))
    case HeartbeatTimesOut => OnHeartbeatTimeout(cfg, s)
    case Wakes => OnWake(cfg, s)
    case Upload401 => OnUpload401(cfg, s)
    case DebounceTimer => s.(queue := DebounceFires(s.queue, IsStopped(s)))
    case JitterTimer => s.(queue := JitterElapses(s.queue))
    case ProviderSettles(outcome) => s.(refresh := Settle(s.refresh, outcome))
    case ResumePass(current) => PassResumes(cfg, s, current)
    case ResumeRecovery(flight) => RecoveryResumes(cfg, s, flight)
  }

  function Step(cfg: Config, s: Client, i: Input): Client {
    Handle(cfg, Arrive(s, i), i.event)
  }

  /** The client after `inputs`, in order. */
  function RunFrom(cfg: Config, s: Client, inputs: seq<Input>): Client {
    if inputs == [] then s
    else Step(cfg, RunFrom(cfg, s, inputs[..|inputs| - 1]), inputs[|inputs| - 1])
  }

  function Run(cfg: Config, inputs: seq<Input>): Client {
    RunFrom(cfg, NEW_CLIENT, inputs)
  }
}
