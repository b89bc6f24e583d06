/**
 Every turn of the event loop keeps the sockets in order: runs of a client.
 */
module ClientRuns {
  import opened Wrappers
  import opened ConnectionStates
  import opened CloseDecisions
  import opened WebSocketHolders
  import opened ReconnectQueue
  import opened RefreshGuard
  import opened ClientModel
  import opened ClientSockets

  // ---------- the swap ----------

  /** The client with its holder emptied, as it shows the drop. */
  function Emptied(s: Client, token: Option<string>): Client {
    var t := s.(holder := Holder(None, token, false));
    if t.state.Connected? then Assign(t, Disconnected(None, true)) else t
  }

  lemma EmptiedIsSane(s: Client, token: Option<string>)
    requires Quiet(s.(swapping := false)) && !IsDead(s)
    ensures var a := Emptied(s, token);
            && SocketsOk(a) && DeathOk(a) && !IsDead(a) && Orphans(a) == Held(s) && a.script == s.script
            && (Connectable(a) <==> s.state.Connected? || s.state.Disconnected?)
            && (s.state.Connected? ==> s.holder.websocket.Some?)
            && (s.holder.websocket.Some? ==> s.holder.websocket.value < a.net.constructions)
            && !a.history.disposedWhileConnecting
  {
  }

  /** A swap has closed the old wrapper: nothing is orphaned, and the holder is empty unless the consumer refilled it. */
  lemma TearDownKeeps(cfg: Config, s: Client, token: Option<string>)
    requires Quiet(s.(swapping := false)) && !IsDead(s)
    ensures var r := TearDown(cfg, s, token);
            && SocketsOk(r) && DeathOk(r)
            && Orphans(r) == {}
            && (s.holder.websocket.Some? ==> s.holder.websocket.value !in r.net.live)
            && (IsDead(r) ==> r.state == GONE && Held(r) <= r.net.live
                              && (r.holder.websocket.None? || r.history.disposedWhileConnecting))
  {
    hide Callback;
    var w := s.holder.websocket;
    var a := Emptied(s, token);
    EmptiedIsSane(s, token);
    CallbackKeeps(cfg, a);
    Popped(a);
    var u := if s.state.Connected? then Callback(cfg, a) else a;
    assert TearDown(cfg, s, token) == CloseWrapper(cfg, u, w);
    if w.Some? {
      LatchKeeps(a, u, w.value);
      CallbackKeeps(cfg, Latch(u, w.value));
    }
  }

  lemma LatchKeeps(a: Client, u: Client, w: nat)
    requires SocketsOk(a) && DeathOk(a) && Kept(a, u)
    requires Orphans(a) == {w} && a.holder.websocket.None? && w < a.net.constructions
    ensures SocketsOk(Latch(u, w)) && DeathOk(Latch(u, w))
    ensures Orphans(Latch(u, w)) == {} && w !in Latch(u, w).net.live
  {
  }

  lemma ConstructQuiet(cfg: Config, s: Client)
    requires Quiet(s) && !IsDead(s) && s.holder.websocket.None?
    ensures Quiet(Construct(cfg, s).0)
  {
  }

  /** Once the old wrapper is torn down, and before the new one is dialled. */
  lemma TornDownQuiet(cfg: Config, s: Client, token: Option<string>)
    requires Quiet(s) && !IsDead(s)
    ensures var t := TearDown(cfg, s.(swapping := true), token).(swapping := false);
            && Quiet(t) && t.net.live == Held(t)
            && (s.holder.websocket.Some? ==> s.holder.websocket.value !in t.net.live && s.holder.websocket.value < t.net.constructions)
  {
    hide TearDown;
    var mid := s.(swapping := true);
    assert mid.(swapping := false) == s;
    TearDownKeeps(cfg, mid, token);
    assert Orphans(TearDown(cfg, mid, token)) == {};
  }

  /** A swap that finds the client dead forgets the token. */
  lemma ForgetQuiet(t: Client)
    requires Quiet(t)
    ensures Quiet(t.(holder := t.holder.(currentToken := None)))
  {
  }

  /**
   A swap keeps the client in order. On a client that survives it the old
   wrapper is closed, and unless the constructor threw there is a wrapper in
   the holder: the new one, or the one the consumer dialled meanwhile.
   */
  lemma SwapQuiet(cfg: Config, s: Client, token: Option<string>)
    requires Quiet(s)
    ensures var (r, threw) := SwapSocket(cfg, s, token);
            && Quiet(r)
            && (s.holder.websocket.Some? && !IsDead(s) ==> s.holder.websocket.value !in r.net.live)
            && (!IsDead(r) && !threw ==> r.holder.websocket.Some?)
            && (threw ==> !IsDead(r) && r.holder.websocket.None?)
  {
    hide TearDown, Quiet;
    if !IsDead(s) {
      NotSwapping(s);
      TornDownQuiet(cfg, s, token);
      var t := TearDown(cfg, s.(swapping := true), token).(swapping := false);
      ForgetQuiet(t);
      if !IsDead(t) && t.holder.websocket.None? {
        ConstructQuiet(cfg, t);
      }
    }
  }

  lemma NotSwapping(s: Client)
    requires Quiet(s)
    ensures !s.swapping
  {
  }

  // ---------- refreshes and passes ----------

  lemma FlightLandedQuiet(cfg: Config, s: Client, outcome: Outcome)
    requires Quiet(s)
    ensures Quiet(FlightLanded(cfg, s, outcome))
  {
    if outcome.Fresh? {
      SwapQuiet(cfg, s, Some(outcome.token));
    }
    GiveUpQuiet(cfg, AfterRefresh(cfg, s, outcome).0);
  }

  /** Changing who waits, or refreshing on a live client, touches no socket. */
  lemma BookkeepingQuiet(s: Client, r: Client)
    requires Quiet(s)
    requires r == s.(queue := r.queue, refresh := r.refresh)
    requires r.queue.disposed == s.queue.disposed
    requires IsDead(s) ==> r.refresh.starts == s.refresh.starts
    ensures Quiet(r)
  {
  }

  lemma TryAuthRecoveryQuiet(cfg: Config, s: Client, trigger: AuthRecoveryTrigger)
    requires Quiet(s)
    ensures Quiet(TryAuthRecovery(cfg, s, trigger))
  {
    GiveUpQuiet(cfg, s);
    if !IsStopped(s) {
      BookkeepingQuiet(s, s.(refresh := AuthRefresh(cfg.refreshFaults, s.refresh)));
    }
  }

  lemma JitterOverQuiet(cfg: Config, s: Client, current: Option<string>)
    requires Quiet(s) && !s.queue.pass.Idle?
    ensures Quiet(JitterOver(cfg, s, current))
  {
    if IsStopped(s) {
      BookkeepingQuiet(s, FinishPass(s));
    } else if !cfg.hasTokenProvider || InsideWindow(cfg.minRefreshIntervalMs, s.refresh) {
      var token := if cfg.hasTokenProvider then current else None;
      SwapQuiet(cfg, s, token);
      var t := SwapSocket(cfg, s, token).0;
      BookkeepingQuiet(t, FinishPass(t));
    } else {
      BookkeepingQuiet(s, JitterOver(cfg, s, current));
    }
  }

  lemma RefreshOverQuiet(cfg: Config, s: Client, outcome: Outcome)
    requires Quiet(s) && !s.queue.pass.Idle?
    ensures Quiet(FinishPass(FlightLanded(cfg, s, outcome)))
  {
    FlightLandedQuiet(cfg, s, outcome);
    var t := FlightLanded(cfg, s, outcome);
    BookkeepingQuiet(t, FinishPass(t));
  }

  lemma PassResumesQuiet(cfg: Config, s: Client, current: Option<string>)
    requires Quiet(s)
    ensures Quiet(PassResumes(cfg, s, current))
  {
    match s.queue.pass
    case Jittered(_) => JitterOverQuiet(cfg, s, current);
    case Refreshing(_, flight) =>
      if flight in s.refresh.outcomes {
        RefreshOverQuiet(cfg, s, s.refresh.outcomes[flight]);
      }
    case _ =>
  }

  // ---------- socket events ----------

  lemma HandleOpenQuiet(cfg: Config, s: Client, w: nat)
    requires Quiet(s) && w < s.net.constructions
    ensures Quiet(HandleOpen(cfg, s, w))
  {
    if s.holder.websocket == Some(w) {
      var t := Seen(s, w, OpenEvent);
      var u := t.(holder := t.holder.(currentAttemptOpened := true));
      SetStateQuiet(cfg, u, Connected);
    }
  }

  /** A wrapper the holder no longer names cannot change anything but its own last event. */
  lemma StaleEventsIgnored(cfg: Config, s: Client, w: nat, code: int, reason: string)
    requires s.holder.websocket != Some(w)
    ensures HandleOpen(cfg, s, w) == Seen(s, w, OpenEvent)
    ensures HandleClose(cfg, s, w, code, reason) == Seen(s, w, CloseEvent)
  {
  }

  lemma DropQuiet(cfg: Config, s: Client, w: nat, next: ConnectionState)
    requires Quiet(s) && s.holder.websocket == Some(w)
    requires next.Disconnected? && next.willRetry
    ensures Quiet(SetState(cfg, Dropped(s, w), next))
  {
    var t := Assign(Dropped(s, w), next);
    assert Quiet(t);
    CallbackQuiet(cfg, t);
  }

  /** The kicked state is shown while the closed wrapper is still in the holder. */
  function ShownKicked(s: Client, w: nat): Client {
    Assign(Latch(Dropped(s, w), w), Kicked(SessionReplaced))
  }

  lemma KickAssigns(s: Client, w: nat)
    requires Quiet(s) && s.holder.websocket == Some(w)
    ensures SocketsOk(ShownKicked(s, w)) && DeathOk(ShownKicked(s, w)) && ShownKicked(s, w).net.live == {}
  {
  }

  /** Whatever the consumer does then, clearing the holder leaves nothing behind. */
  lemma KickClears(t: Client, u: Client)
    requires t.state.Kicked? && t.net.live == {} && !t.swapping && Kept(t, u) && CallbackFrame(t, u)
    ensures Quiet(HandleKicked(u))
  {
    assert Orphans(u) == {};
  }

  lemma KickQuiet(cfg: Config, s: Client, w: nat)
    requires Quiet(s) && s.holder.websocket == Some(w)
    ensures Quiet(Kick(cfg, Dropped(s, w), w))
  {
    hide Callback, Quiet;
    var t := ShownKicked(s, w);
    KickAssigns(s, w);
    CallbackKeeps(cfg, t);
    KickIsFresh(s, w);
    KickClears(t, Callback(cfg, t));
  }

  lemma KickIsFresh(s: Client, w: nat)
    requires Quiet(s) && s.holder.websocket == Some(w)
    ensures !s.state.Kicked? && !s.swapping
  {
  }

  lemma HandleCloseQuiet(cfg: Config, s: Client, w: nat, code: int, reason: string)
    requires Quiet(s) && w < s.net.constructions
    ensures Quiet(HandleClose(cfg, s, w, code, reason))
  {
    if s.holder.websocket != Some(w) {
      StaleEventsIgnored(cfg, s, w, code, reason);
    } else {
      match DecideClose(code, reason, false, s.holder.currentAttemptOpened)
      case SessionReplacedClose => KickQuiet(cfg, s, w);
      case NormalDisconnect(c) => DropQuiet(cfg, s, w, Disconnected(Some(c), true));
      case AuthRecovery(c, trigger) =>
        DropQuiet(cfg, s, w, Disconnected(Some(c), true));
        OnAuthRecoveryQuiet(cfg, SetState(cfg, Dropped(s, w), Disconnected(Some(c), true)), trigger);
    }
  }

  lemma OnAuthRecoveryQuiet(cfg: Config, s: Client, trigger: AuthRecoveryTrigger)
    requires Quiet(s)
    ensures Quiet(OnAuthRecoveryNeeded(cfg, s, trigger))
  {
    if cfg.hasTokenProvider {
      CallbackQuiet(cfg, s);
      TryAuthRecoveryQuiet(cfg, Callback(cfg, s), trigger);
    } else if trigger.AuthClose? {
      FireTerminalQuiet(cfg, s);
    }
  }

  // ---------- whole turns and runs ----------

  lemma ReconnectQuiet(s: Client)
    requires Quiet(s)
    ensures Quiet(Reconnect(s))
  {
    BookkeepingQuiet(s, Reconnect(s));
  }

  lemma HeartbeatQuiet(cfg: Config, s: Client)
    requires Quiet(s)
    ensures Quiet(OnHeartbeatTimeout(cfg, s))
  {
    CallbackQuiet(cfg, s);
    var t := Callback(cfg, s);
    if t.state.Connected? {
      SetStateQuiet(cfg, t, Disconnected(None, true));
    }
    ReconnectQuiet(if t.state.Connected? then SetState(cfg, t, Disconnected(None, true)) else t);
  }

  lemma ConnectQuiet(cfg: Config, s: Client)
    requires Quiet(s)
    ensures Quiet(Connect(cfg, s))
  {
    ConnectKeeps(cfg, s);
    KeptQuiet(s, Connect(cfg, s));
  }

  lemma DisposeQuiet(cfg: Config, s: Client)
    requires Quiet(s)
    ensures Quiet(Dispose(cfg, s))
  {
    DisposeKeeps(cfg, s);
    KeptQuiet(s, Dispose(cfg, s));
  }

  lemma WakeQuiet(cfg: Config, s: Client)
    requires Quiet(s)
    ensures Quiet(OnWake(cfg, s))
  {
    CallbackQuiet(cfg, s);
    ReconnectQuiet(Callback(cfg, s));
  }

  lemma UploadQuiet(cfg: Config, s: Client)
    requires Quiet(s)
    ensures Quiet(OnUpload401(cfg, s))
  {
    CallbackQuiet(cfg, s);
    TryAuthRecoveryQuiet(cfg, Callback(cfg, s), AuthClose);
  }

  lemma RecoveryResumesQuiet(cfg: Config, s: Client, flight: nat)
    requires Quiet(s)
    ensures Quiet(RecoveryResumes(cfg, s, flight))
  {
    if flight in s.refresh.recoveries && flight in s.refresh.outcomes {
      var t := s.(refresh := s.refresh.(recoveries := s.refresh.recoveries - {flight}));
      BookkeepingQuiet(s, t);
      FlightLandedQuiet(cfg, t, s.refresh.outcomes[flight]);
    }
  }

  lemma TimersQuiet(s: Client, outcome: Outcome)
    requires Quiet(s)
    ensures Quiet(s.(queue := DebounceFires(s.queue, IsStopped(s))))
    ensures Quiet(s.(queue := JitterElapses(s.queue)))
    ensures Quiet(s.(refresh := Settle(s.refresh, outcome)))
  {
    BookkeepingQuiet(s, s.(queue := DebounceFires(s.queue, IsStopped(s))));
    BookkeepingQuiet(s, s.(queue := JitterElapses(s.queue)));
    BookkeepingQuiet(s, s.(refresh := Settle(s.refresh, outcome)));
  }

  lemma UrlQuiet(s: Client, token: Option<string>)
    requires Quiet(s)
    ensures Quiet(s.(holder := s.holder.(currentToken := token)))
  {
  }

  lemma HandleQuiet(cfg: Config, s: Client, e: Event)
    requires Quiet(s)
    ensures Quiet(Handle(cfg, s, e))
  {
    hide Quiet, Connect, Dispose, HandleOpen, HandleClose, OnHeartbeatTimeout, OnWake, OnUpload401, PassResumes, RecoveryResumes;
    match e
    case ApiConnect => ConnectQuiet(cfg, s);
    case ApiDispose => DisposeQuiet(cfg, s);
    case SocketOpens(w) => if Exists(cfg, s, w) { HandleOpenQuiet(cfg, s, w); }
    case SocketCloses(w, code, reason) => if Exists(cfg, s, w) { HandleCloseQuiet(cfg, s, w, code, reason); }
    case UrlRead(token) => UrlQuiet(s, token);
    case HeartbeatTimesOut => HeartbeatQuiet(cfg, s);
    case Wakes => WakeQuiet(cfg, s);
    case Upload401 => UploadQuiet(cfg, s);
    case DebounceTimer => TimersQuiet(s, NoToken);
    case JitterTimer => TimersQuiet(s, NoToken);
    case ProviderSettles(outcome) => TimersQuiet(s, outcome);
    case ResumePass(current) => PassResumesQuiet(cfg, s, current);
    case ResumeRecovery(flight) => RecoveryResumesQuiet(cfg, s, flight);
  }

  lemma {:induction false} RunQuiet(cfg: Config, inputs: seq<Input>)
    ensures Quiet(Run(cfg, inputs))
  {
    if inputs != [] {
      var i := inputs[|inputs| - 1];
      var s := Run(cfg, inputs[..|inputs| - 1]);
      RunQuiet(cfg, inputs[..|inputs| - 1]);
      assert Quiet(Arrive(s, i));
      HandleQuiet(cfg, Arrive(s, i), i.event);
    }
  }
}
