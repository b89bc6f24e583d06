/**
 What starts and what ends the waiting for a reconnect: a wake and a missed
 heartbeat each make one `reconnect()` call, nothing else makes any, and
 disposal leaves nobody waiting.
 */
module ClientTriggers {
  import opened Wrappers
  import opened ConnectionStates
  import opened CloseDecisions
  import opened ReconnectQueue
  import opened RefreshGuard
  import opened ClientModel
  import opened ClientSockets
  import opened ClientRuns
  import opened ClientTheorems
  import opened ClientTurns

  // ---------- disposal ----------

  /** No timer is armed and nobody waits but those of a pass past its jitter. */
  predicate Released(q: Queue) {
    !q.armed && q.pending == [] && !q.rerun && q.trailing == [] && !q.pass.Jittering?
  }

  /** The manager is disposed of with the client, and its waiters are then released. */
  predicate Linked(s: Client) {
    (s.disposed ==> s.queue.disposed) && (s.queue.disposed ==> Released(s.queue))
  }

  lemma DisposalReleases(q: Queue)
    ensures !q.disposed ==> Released(DisposeQueue(q))
  {
  }

  lemma {:induction false} CallbackLinks(cfg: Config, s: Client)
    requires Linked(s)
    ensures Linked(Callback(cfg, s))
    decreases |s.script|, 0
  {
    hide Connect, Dispose, Linked;
    if s.script != [] {
      var t := s.(script := s.script[1..]);
      assert Linked(t) by { SameLinks(s, t); }
      match s.script[0]
      case Return =>
      case CallConnect =>
        ConnectLinks(cfg, t);
        CallbackLinks(cfg, Connect(cfg, t));
      case CallDispose =>
        DisposeLinks(cfg, t);
        CallbackLinks(cfg, Dispose(cfg, t));
    }
  }

  /** Only the two latches and the queue matter. */
  lemma SameLinks(s: Client, t: Client)
    requires Linked(s) && t.disposed == s.disposed && t.queue == s.queue
    ensures Linked(t)
  {
  }

  lemma {:induction false} SetStateLinks(cfg: Config, s: Client, next: ConnectionState)
    requires Linked(s)
    ensures Linked(SetState(cfg, s, next))
    decreases |s.script|, 1
  {
    hide Callback;
    if s.state != next {
      SameLinks(s, Assign(s, next));
      CallbackLinks(cfg, Assign(s, next));
    }
  }

  lemma {:induction false} CloseLinks(cfg: Config, s: Client, w: Option<nat>)
    requires Linked(s)
    ensures Linked(CloseWrapper(cfg, s, w))
    decreases |s.script|, 1
  {
    hide Callback;
    if w.Some? {
      CallbackLinks(cfg, Latch(s, w.value));
    }
  }

  lemma {:induction false} ShutLinks(cfg: Config, s: Client, w: Option<nat>)
    requires Linked(s)
    ensures Linked(Shut(cfg, s, w))
    decreases |s.script|, 2
  {
    hide CloseWrapper, SetState;
    CloseLinks(cfg, s, w);
    SetStateLinks(cfg, CloseWrapper(cfg, s, w), Disconnected(None, false));
  }

  lemma BuryLinks(s: Client)
    requires Linked(s)
    ensures Linked(Bury(s)) && Bury(s).script == s.script
  {
    DisposalReleases(s.queue);
  }

  lemma {:induction false} DisposeLinks(cfg: Config, s: Client)
    requires Linked(s)
    ensures Linked(Dispose(cfg, s))
    decreases |s.script|, 3
  {
    hide Bury, Shut, Linked;
    if !s.disposed {
      BuryLinks(s);
      ShutLinks(cfg, Bury(s), s.holder.websocket);
    }
  }

  lemma {:induction false} ConnectLinks(cfg: Config, s: Client)
    requires Linked(s)
    ensures Linked(Connect(cfg, s))
    decreases |s.script|, 3
  {
    hide SetState;
    if Connectable(s) {
      SetStateLinks(cfg, s, Connecting);
      SameLinks(SetState(cfg, s, Connecting), Dial(cfg, SetState(cfg, s, Connecting)));
    }
  }

  lemma FireLinks(cfg: Config, s: Client)
    requires Linked(s)
    ensures Linked(FireTerminal(cfg, s))
  {
    hide Shut, Callback, Linked;
    if !s.terminalAuthFired {
      SameLinks(s, Entomb(s));
      ShutLinks(cfg, Entomb(s), s.holder.websocket);
      var t := Shut(cfg, Entomb(s), s.holder.websocket);
      CallbackLinks(cfg, t);
      var u := Callback(cfg, t);
      var v := u.(history := u.history.(terminalCalls := u.history.terminalCalls + 1));
      SameLinks(u, v);
      CallbackLinks(cfg, v);
    }
  }

  lemma GiveUpLinks(cfg: Config, s: Client)
    requires Linked(s)
    ensures Linked(GiveUp(cfg, s))
  {
    hide FireTerminal;
    FireLinks(cfg, s.(terminalFired := true));
  }

  lemma TearDownLinks(cfg: Config, s: Client, token: Option<string>)
    requires Linked(s)
    ensures Linked(TearDown(cfg, s, token))
  {
    hide Callback, CloseWrapper, Linked;
    var a := Emptied(s, token);
    SameLinks(s, a);
    CallbackLinks(cfg, a);
    var u := if s.state.Connected? then Callback(cfg, a) else a;
    CloseLinks(cfg, u, s.holder.websocket);
    assert TearDown(cfg, s, token) == CloseWrapper(cfg, u, s.holder.websocket);
  }

  lemma SwapLinks(cfg: Config, s: Client, token: Option<string>)
    requires Linked(s)
    ensures Linked(SwapSocket(cfg, s, token).0)
  {
    hide TearDown, Construct, Linked;
    var mid := s.(swapping := true);
    SameLinks(s, mid);
    TearDownLinks(cfg, mid, token);
    var t := TearDown(cfg, mid, token).(swapping := false);
    SameLinks(TearDown(cfg, mid, token), t);
    SameLinks(t, t.(holder := t.holder.(currentToken := None)));
    ConstructLinks(cfg, t);
  }

  lemma ConstructLinks(cfg: Config, s: Client)
    requires Linked(s)
    ensures Linked(Construct(cfg, s).0)
  {
  }

  lemma LandingLinks(cfg: Config, s: Client, outcome: Outcome)
    requires Linked(s)
    ensures Linked(FlightLanded(cfg, s, outcome))
  {
    hide SwapSocket, GiveUp, Linked;
    if outcome.Fresh? {
      SwapLinks(cfg, s, Some(outcome.token));
    }
    GiveUpLinks(cfg, AfterRefresh(cfg, s, outcome).0);
  }

  lemma RecoveryLinks(cfg: Config, s: Client, trigger: AuthRecoveryTrigger)
    requires Linked(s)
    ensures Linked(TryAuthRecovery(cfg, s, trigger))
  {
    hide GiveUp;
    GiveUpLinks(cfg, s);
  }

  /** A manager that is stopped takes in nobody. */
  lemma StoppedTakesNobody(q: Queue)
    requires Released(q)
    ensures Released(Enqueue(q, true)) && Released(DebounceFires(q, true))
    ensures Released(Finish(q, true)) && Released(JitterElapses(q))
  {
  }

  /** Steps of the queue that a stopped client takes, or that anyone else may. */
  lemma QueueLinks(s: Client)
    requires Linked(s)
    ensures Linked(Reconnect(s)) && Linked(FinishPass(s))
    ensures Linked(s.(queue := DebounceFires(s.queue, IsStopped(s)))) && Linked(s.(queue := JitterElapses(s.queue)))
  {
    if s.queue.disposed {
      StoppedTakesNobody(s.queue);
    }
  }

  lemma JitterOverLinks(cfg: Config, s: Client, current: Option<string>)
    requires Linked(s)
    ensures Linked(JitterOver(cfg, s, current))
  {
    hide SwapSocket, Finish;
    QueueLinks(s);
    SwapLinks(cfg, s, if cfg.hasTokenProvider then current else None);
    QueueLinks(SwapSocket(cfg, s, if cfg.hasTokenProvider then current else None).0);
  }

  lemma PassLinks(cfg: Config, s: Client, current: Option<string>)
    requires Linked(s)
    ensures Linked(PassResumes(cfg, s, current))
  {
    hide JitterOver, FlightLanded, FinishPass, Linked;
    match s.queue.pass
    case Jittered(_) => JitterOverLinks(cfg, s, current);
    case Refreshing(_, flight) =>
      if flight in s.refresh.outcomes {
        LandingLinks(cfg, s, s.refresh.outcomes[flight]);
        QueueLinks(FlightLanded(cfg, s, s.refresh.outcomes[flight]));
      }
    case _ =>
  }

  lemma NeededLinks(cfg: Config, s: Client, trigger: AuthRecoveryTrigger)
    requires Linked(s)
    ensures Linked(OnAuthRecoveryNeeded(cfg, s, trigger))
  {
    hide Callback, TryAuthRecovery, FireTerminal, Linked;
    FireLinks(cfg, s);
    CallbackLinks(cfg, s);
    RecoveryLinks(cfg, Callback(cfg, s), trigger);
  }

  lemma HandleCloseLinks(cfg: Config, s: Client, w: nat, code: int, reason: string)
    requires Linked(s)
    ensures Linked(HandleClose(cfg, s, w, code, reason))
  {
    hide SetState, OnAuthRecoveryNeeded;
    var t := Dropped(s, w);
    match DecideClose(code, reason, s.holder.websocket != Some(w), s.holder.currentAttemptOpened)
    case Ignore =>
    case SessionReplacedClose => SetStateLinks(cfg, Latch(t, w), Kicked(SessionReplaced));
    case NormalDisconnect(c) => SetStateLinks(cfg, t, Disconnected(Some(c), true));
    case AuthRecovery(c, trigger) =>
      SetStateLinks(cfg, t, Disconnected(Some(c), true));
      NeededLinks(cfg, SetState(cfg, t, Disconnected(Some(c), true)), trigger);
  }

  lemma HeartbeatLinks(cfg: Config, s: Client)
    requires Linked(s)
    ensures Linked(OnHeartbeatTimeout(cfg, s)) && Linked(OnWake(cfg, s))
  {
    hide SetState, Callback, Enqueue;
    var t := Callback(cfg, s);
    CallbackLinks(cfg, s);
    SetStateLinks(cfg, t, Disconnected(None, true));
    QueueLinks(t);
    QueueLinks(SetState(cfg, t, Disconnected(None, true)));
  }

  lemma HandleLinks(cfg: Config, s: Client, e: Event)
    requires Linked(s)
    ensures Linked(Handle(cfg, s, e))
  {
    hide Callback, Connect, Dispose, SetState, HandleClose, OnHeartbeatTimeout, OnWake, TryAuthRecovery, PassResumes, FlightLanded;
    match e
    case ApiConnect => ConnectLinks(cfg, s);
    case ApiDispose => DisposeLinks(cfg, s);
    case SocketOpens(w) =>
      var t := Seen(s, w, OpenEvent);
      SetStateLinks(cfg, t.(holder := t.holder.(currentAttemptOpened := true)), Connected);
    case SocketCloses(w, code, reason) => HandleCloseLinks(cfg, s, w, code, reason);
    case HeartbeatTimesOut => HeartbeatLinks(cfg, s);
    case Wakes => HeartbeatLinks(cfg, s);
    case Upload401 =>
      CallbackLinks(cfg, s);
      RecoveryLinks(cfg, Callback(cfg, s), AuthClose);
    case DebounceTimer => QueueLinks(s);
    case JitterTimer => QueueLinks(s);
    case ResumePass(current) => PassLinks(cfg, s, current);
    case ResumeRecovery(f) =>
      if f in s.refresh.outcomes {
        LandingLinks(cfg, s.(refresh := s.refresh.(recoveries := s.refresh.recoveries - {f})), s.refresh.outcomes[f]);
      }
    case _ =>
  }

  lemma {:induction false} RunLinked(cfg: Config, inputs: seq<Input>)
    ensures Linked(Run(cfg, inputs))
  {
    hide Handle;
    if inputs != [] {
      var n := |inputs| - 1;
      RunLinked(cfg, inputs[..n]);
      HandleLinks(cfg, Arrive(Run(cfg, inputs[..n]), inputs[n]), inputs[n].event);
    }
  }

  /**
   Disposal leaves nobody waiting. In every run the manager is disposed of iff
   the client is; then no timer of it is armed, nothing is debounced, parked or
   still to be rerun, and every `reconnect()` promise has been resolved, once,
   but for those that the pass in flight will resolve when it ends.
   */
  lemma DisposedReleasesAll(cfg: Config, inputs: seq<Input>)
    ensures var s := Run(cfg, inputs);
            var q := s.queue;
            && (s.disposed <==> q.disposed)
            && (s.disposed ==>
                  && !q.armed && q.pending == [] && !q.rerun && q.trailing == [] && !q.pass.Jittering?
                  && forall id: nat :: id < |q.calledAt| && id !in Waiters(q.pass) ==> q.settled[id] == 1)
  {
    RunLinked(cfg, inputs);
    RunQuiet(cfg, inputs);
    RunWaiters(cfg, inputs);
    var q := Run(cfg, inputs).queue;
    if q.disposed {
      forall id: nat | id < |q.calledAt| && id !in Waiters(q.pass) ensures q.settled[id] == 1 {
        assert Places(q, id) == 1;
      }
    }
  }

  // ---------- who asks for a reconnect ----------

  /** A `reconnect()` of the manager would be turned away. */
  predicate TurnedAway(s: Client) {
    s.disposed || s.terminalAuthFired || s.terminalFired || s.state.Kicked?
  }

  /**
   Between `s` and `r` one `reconnect()` call was made. Its promise waits for
   the debounce timer, behind those that waited already, or is resolved at once
   on a client that turned it away.
   */
  predicate Asked(s: Client, r: Client) {
    var id: nat := |s.queue.calledAt|;
    && r.queue.calledAt == s.queue.calledAt + [s.queue.passes]
    && if TurnedAway(r) then r.queue.settled[id] == 1
       else r.queue == s.queue.(calledAt := r.queue.calledAt, armed := true, pending := s.queue.pending + [id])
  }

  lemma AsksOnce(s: Client, u: Client)
    requires Linked(u) && DeathOk(u) && QueueFrame(s, u) && QueueOk(Reconnect(u).queue)
    ensures Asked(s, Reconnect(u))
  {
    hide Places;
    var id: nat := |s.queue.calledAt|;
    var r := Reconnect(u);
    assert TurnedAway(r) <==> IsStopped(u);
    if IsStopped(u) {
      assert id in r.queue.settled;
      SettledOnce(r.queue, id);
    }
  }

  lemma SettledOnce(q: Queue, id: nat)
    requires QueueOk(q) && id in q.settled && id < |q.calledAt|
    ensures q.settled[id] == 1
  {
    assert Places(q, id) == 1;
  }

  /** Consumer code inside a callback calls no `reconnect()`. */
  lemma FrameCalls(s: Client, r: Client)
    requires QueueFrame(s, r)
    ensures r.queue.calledAt == s.queue.calledAt
  {
  }

  lemma WakeAsks(cfg: Config, s: Client)
    requires Linked(s) && Quiet(s) && QueueOk(OnWake(cfg, s).queue)
    ensures var r := OnWake(cfg, s);
            if r.state.Kicked? then r.queue.calledAt == s.queue.calledAt else Asked(s, r)
  {
    hide Callback, Asked, Quiet, Linked, Enqueue;
    var t := Callback(cfg, s);
    CallbackLinks(cfg, s);
    CallbackQuiet(cfg, s);
    QuietIsOk(t);
    FrameCalls(s, t);
    if !t.state.Kicked? {
      AsksOnce(s, t);
    }
  }

  lemma QuietIsOk(s: Client)
    requires Quiet(s)
    ensures DeathOk(s)
  {
  }

  lemma HeartbeatAsks(cfg: Config, s: Client)
    requires Linked(s) && Quiet(s) && QueueOk(OnHeartbeatTimeout(cfg, s).queue) && !s.state.Kicked?
    ensures Asked(s, OnHeartbeatTimeout(cfg, s))
  {
    hide Callback, SetState, Asked, Quiet, Linked, Enqueue;
    var t := Callback(cfg, s);
    var u := if t.state.Connected? then SetState(cfg, t, Disconnected(None, true)) else t;
    CallbackLinks(cfg, s);
    CallbackQuiet(cfg, s);
    SetStateLinks(cfg, t, Disconnected(None, true));
    if t.state.Connected? {
      DropIsQuiet(cfg, t);
    }
    QuietIsOk(u);
    FrameThrough(s, t, u);
    AsksOnce(s, u);
  }

  lemma DropIsQuiet(cfg: Config, t: Client)
    requires Quiet(t) && t.state.Connected?
    ensures Quiet(SetState(cfg, t, Disconnected(None, true)))
  {
    SetStateQuiet(cfg, t, Disconnected(None, true));
  }

  lemma FrameThrough(s: Client, t: Client, u: Client)
    requires QueueFrame(s, t) && QueueFrame(t, u)
    ensures QueueFrame(s, u)
  {
  }

  /** No other event makes a call. */
  lemma OthersAskNothing(cfg: Config, s: Client, e: Event)
    requires !e.Wakes? && !e.HeartbeatTimesOut?
    ensures Handle(cfg, s, e).queue.calledAt == s.queue.calledAt
  {
    hide Callback, Connect, Dispose, HandleOpen, HandleClose, TryAuthRecovery, PassResumes, FlightLanded;
    match e
    case ResumePass(current) => PassAsksNothing(cfg, s, current);
    case _ =>
  }

  lemma PassAsksNothing(cfg: Config, s: Client, current: Option<string>)
    ensures PassResumes(cfg, s, current).queue.calledAt == s.queue.calledAt
  {
    hide JitterOver, FlightLanded, Finish;
    JitterAsksNothing(cfg, s, current);
    match s.queue.pass
    case Refreshing(_, flight) =>
      if flight in s.refresh.outcomes {
        FinishAsksNothing(FlightLanded(cfg, s, s.refresh.outcomes[flight]));
      }
    case _ =>
  }

  lemma FinishAsksNothing(s: Client)
    ensures FinishPass(s).queue.calledAt == s.queue.calledAt
  {
  }

  lemma JitterAsksNothing(cfg: Config, s: Client, current: Option<string>)
    ensures JitterOver(cfg, s, current).queue.calledAt == s.queue.calledAt
  {
    hide SwapSocket, Finish;
    FinishAsksNothing(s);
    FinishAsksNothing(SwapSocket(cfg, s, if cfg.hasTokenProvider then current else None).0);
  }

  /** Event `e`, between `s` and `r`, asks for a reconnect. */
  predicate Asks(s: Client, r: Client, e: Event) {
    match e
    case Wakes => !r.state.Kicked?
    case HeartbeatTimesOut => !s.state.Kicked?
    case _ => false
  }

  /**
   Who asks for a reconnect. In every run a wake makes exactly one `reconnect()`
   call, whatever the client shows, unless it shows that it was kicked once the
   consumer has been told; a missed heartbeat makes exactly one, unless the
   client showed that before; and no other event makes any.
   */
  lemma ReconnectsIff(cfg: Config, inputs: seq<Input>, i: Input)
    ensures var s, r := Run(cfg, inputs), Run(cfg, inputs + [i]);
            && (Asks(s, r, i.event) ==> Asked(s, r))
            && (!Asks(s, r, i.event) ==> r.queue.calledAt == s.queue.calledAt)
  {
    hide Handle, Quiet, Linked, QueueOk, Asked;
    var s := Run(cfg, inputs);
    var a := Arrive(s, i);
    RunSnoc(cfg, inputs, i);
    RunLinked(cfg, inputs);
    SameLinks(s, a);
    RunQuiet(cfg, inputs);
    ArrivesQuiet(s, i);
    RunWaiters(cfg, inputs + [i]);
    match i.event
    case Wakes => WakeTurn(cfg, s, i);
    case HeartbeatTimesOut => HeartbeatTurn(cfg, s, i);
    case _ => OthersAskNothing(cfg, a, i.event);
  }

  lemma ArrivesQuiet(s: Client, i: Input)
    requires Quiet(s)
    ensures Quiet(Arrive(s, i))
  {
  }

  /** Both calls are about the queue alone, which time and the script leave as it is. */
  lemma AskedOnArrival(s: Client, i: Input, r: Client)
    requires Asked(Arrive(s, i), r)
    ensures Asked(s, r)
  {
  }

  lemma WakeTurn(cfg: Config, s: Client, i: Input)
    requires Linked(Arrive(s, i)) && Quiet(Arrive(s, i)) && i.event.Wakes? && QueueOk(Step(cfg, s, i).queue)
    ensures var r := Step(cfg, s, i);
            if r.state.Kicked? then r.queue.calledAt == s.queue.calledAt else Asked(s, r)
  {
    hide Quiet, Linked, QueueOk, OnWake, Asked;
    var a := Arrive(s, i);
    WakeAsks(cfg, a);
    if !Step(cfg, s, i).state.Kicked? {
      AskedOnArrival(s, i, Step(cfg, s, i));
    }
  }

  lemma HeartbeatTurn(cfg: Config, s: Client, i: Input)
    requires Linked(Arrive(s, i)) && Quiet(Arrive(s, i)) && i.event.HeartbeatTimesOut? && QueueOk(Step(cfg, s, i).queue)
    ensures var r := Step(cfg, s, i);
            if s.state.Kicked? then r.queue.calledAt == s.queue.calledAt else Asked(s, r)
  {
    hide Quiet, Linked, QueueOk, Callback, SetState, Enqueue, Asked;
    var a := Arrive(s, i);
    if !s.state.Kicked? {
      HeartbeatAsks(cfg, a);
      AskedOnArrival(s, i, Step(cfg, s, i));
    }
  }
}
