/**
 What the client shows, whom it asks for a token and which token it carries
 after each turn in which the consumer calls nothing, with the close codes and
 the window spelled out.
 */
module ClientQuietTurns {
  import opened Wrappers
  import opened ConnectionStates
  import opened CloseDecisions
  import opened WebSocketHolders
  import opened ReconnectQueue
  import opened RefreshGuard
  import opened ClientModel
  import opened ClientSockets
  import opened ClientRuns
  import opened ClientTurns
  import opened ClientTriggers

  /** The consumer was told of a terminal failure between `s` and `r`. */
  predicate Told(s: Client, r: Client) {
    s.history.terminalCalls < r.history.terminalCalls
  }

  /** Event of a wrapper that exists and that the holder names. */
  predicate Current(cfg: Config, s: Client, w: nat) {
    Exists(cfg, s, w) && s.holder.websocket == Some(w)
  }

  // ---------- what is shown ----------

  /** The state after turn `i` from `s`, given whether the consumer was told of a terminal failure in it. */
  function Shown(cfg: Config, s: Client, i: Input, told: bool): ConnectionState {
    if told then Disconnected(None, false)
    else match i.event
      case ApiConnect => if !TurnedAway(s) && s.state.Disconnected? && s.holder.websocket.None? then Connecting else s.state
      case ApiDispose => if s.disposed then s.state else Disconnected(None, false)
      case SocketOpens(w) => if Current(cfg, s, w) then Connected else s.state
      case SocketCloses(w, code, _) =>
        if !Current(cfg, s, w) then s.state
        else if code == 4005 then Kicked(SessionReplaced)
        else Disconnected(Some(code), true)
      case HeartbeatTimesOut => if s.state.Connected? then Disconnected(None, true) else s.state
      case _ => if s.state.Connected? && !TurnedAway(s) && Swaps(cfg, s, i) then Disconnected(None, true) else s.state
  }

  lemma UncalledShut(cfg: Config, s: Client, w: Option<nat>)
    requires s.script == []
    ensures var r := Shut(cfg, s, w);
            && r.script == [] && r.state == GONE && r.holder == s.holder
            && r.history.terminalCalls == s.history.terminalCalls && r.net.constructions == s.net.constructions
  {
    hide Callback;
    Uncalled(cfg, s, GONE, w);
    Uncalled(cfg, if w.None? then s else Latch(s, w.value), GONE, None);
  }

  lemma UncalledAnnounce(cfg: Config, s: Client)
    requires s.script == []
    ensures Announce(cfg, s) == s.(history := s.history.(terminalCalls := s.history.terminalCalls + 1))
  {
    hide Callback;
    Uncalled(cfg, s, GONE, None);
    Uncalled(cfg, s.(history := s.history.(terminalCalls := s.history.terminalCalls + 1)), GONE, None);
  }

  /** `r` is `s` after a give-up, if there was one. */
  predicate GivesUp(s: Client, r: Client, told: bool) {
    && (Told(s, r) <==> told)
    && r.state == (if told then GONE else s.state)
    && r.holder.currentToken == (if told then None else s.holder.currentToken)
    && r.net.constructions == s.net.constructions
  }

  lemma EntombKeepsScript(s: Client)
    ensures Entomb(s).script == s.script && Entomb(s).holder.currentToken == None
    ensures Entomb(s).history.terminalCalls == s.history.terminalCalls && Entomb(s).net == s.net
  {
  }

  lemma UncalledFire(cfg: Config, s: Client)
    requires s.script == []
    ensures GivesUp(s, FireTerminal(cfg, s), !s.terminalAuthFired)
  {
    hide Shut, Announce, Entomb;
    EntombKeepsScript(s);
    UncalledShut(cfg, Entomb(s), s.holder.websocket);
    UncalledAnnounce(cfg, Shut(cfg, Entomb(s), s.holder.websocket));
  }

  lemma UncalledGiveUp(cfg: Config, s: Client)
    requires s.script == [] && DeathOk(s)
    ensures GivesUp(s, GiveUp(cfg, s), !IsStopped(s))
  {
    hide FireTerminal;
    UncalledFire(cfg, s.(terminalFired := true));
  }

  // ---------- swaps ----------

  /** The client once its old wrapper is torn down, without a call from the consumer. */
  function Torn(s: Client, token: Option<string>): Client {
    var a := Emptied(s, token);
    if s.holder.websocket.None? then a else Latch(a, s.holder.websocket.value)
  }

  lemma UncalledTearDown(cfg: Config, s: Client, token: Option<string>)
    requires s.script == []
    ensures TearDown(cfg, s, token) == Torn(s, token)
  {
    hide Callback;
    Uncalled(cfg, s.(holder := Holder(None, token, false)), Disconnected(None, true), None);
    Uncalled(cfg, Emptied(s, token), GONE, s.holder.websocket);
  }

  /** `r` is `s` in a swap to `token`, after `built` constructor calls. */
  predicate Swapped(s: Client, r: Client, token: Option<string>, built: nat) {
    && r.script == [] && !IsDead(r)
    && r.history.terminalCalls == s.history.terminalCalls
    && r.state == (if s.state.Connected? then Disconnected(None, true) else s.state)
    && r.holder.currentToken == token
    && r.net.constructions == s.net.constructions + built
  }

  lemma EmptiedIsSwapped(s: Client, token: Option<string>)
    requires !IsDead(s) && s.script == []
    ensures Swapped(s, Emptied(s, token), token, 0) && Emptied(s, token).holder.websocket.None?
  {
  }

  /** Closing a wrapper and ending the swap change nothing of that. */
  lemma LatchIsSwapped(s: Client, t: Client, r: Client, token: Option<string>)
    requires Swapped(s.(swapping := true), t, token, 0) && t.holder.websocket.None?
    requires r == t.(net := r.net, swapping := false) && r.net.constructions == t.net.constructions
    ensures Swapped(s, r, token, 0) && r.holder.websocket.None?
  {
  }

  lemma ConstructIsSwapped(cfg: Config, s: Client, t: Client, token: Option<string>)
    requires Swapped(s, t, token, 0)
    ensures Swapped(s, Construct(cfg, t).0, token, 1)
  {
  }

  lemma TornIsSwapped(cfg: Config, s: Client, token: Option<string>)
    requires !IsDead(s) && s.script == []
    ensures var t := Torn(s.(swapping := true), token).(swapping := false);
            Swapped(s, t, token, 0) && t.holder.websocket.None? && Swapped(s, Construct(cfg, t).0, token, 1)
  {
    hide Emptied, Swapped, Construct;
    var mid := s.(swapping := true);
    var t := Torn(mid, token).(swapping := false);
    EmptiedIsSwapped(mid, token);
    LatchIsSwapped(s, Emptied(mid, token), t, token);
    ConstructIsSwapped(cfg, s, t, token);
  }

  lemma UncalledSwap(cfg: Config, s: Client, token: Option<string>)
    requires Quiet(s) && s.script == []
    ensures if IsDead(s) then SwapSocket(cfg, s, token) == (s, false) else Swapped(s, SwapSocket(cfg, s, token).0, token, 1)
  {
    hide TearDown, Quiet, Torn, Swapped, Construct;
    if !IsDead(s) {
      NotSwapping(s);
      UncalledTearDown(cfg, s.(swapping := true), token);
      TornIsSwapped(cfg, s, token);
      SwappedLives(s, Torn(s.(swapping := true), token).(swapping := false), token);
    }
  }

  lemma SwappedLives(s: Client, r: Client, token: Option<string>)
    requires Swapped(s, r, token, 0)
    ensures !IsDead(r)
  {
  }

  // ---------- one turn ----------

  /** From `s` to `r`: the state and the token unless the consumer was told, and the constructor calls. */
  predicate AsTold(s: Client, r: Client, state: ConnectionState, token: Option<string>, built: nat) {
    && r.state == (if Told(s, r) then GONE else state)
    && r.holder.currentToken == (if Told(s, r) then None else token)
    && r.net.constructions == s.net.constructions + built
  }

  lemma LandingShows(cfg: Config, s: Client, outcome: Outcome)
    requires Quiet(s) && s.script == []
    ensures var swaps := outcome.Fresh? && !IsStopped(s);
            AsTold(s, FlightLanded(cfg, s, outcome),
                   if swaps && s.state.Connected? then Disconnected(None, true) else s.state,
                   if swaps then Some(outcome.token) else s.holder.currentToken, if swaps then 1 else 0)
  {
    hide SwapSocket, GiveUp, Quiet;
    QuietIsOk(s);
    if outcome.Fresh? {
      SwapQuiet(cfg, s, Some(outcome.token));
      UncalledSwap(cfg, s, Some(outcome.token));
    }
    var t := AfterRefresh(cfg, s, outcome).0;
    QuietIsOk(t);
    UncalledGiveUp(cfg, t);
  }

  lemma RecoveryShows(cfg: Config, s: Client, trigger: AuthRecoveryTrigger)
    requires DeathOk(s) && s.script == []
    ensures AsTold(s, TryAuthRecovery(cfg, s, trigger), s.state, s.holder.currentToken, 0)
  {
    hide GiveUp;
    UncalledGiveUp(cfg, s);
  }

  lemma NeededShows(cfg: Config, s: Client, trigger: AuthRecoveryTrigger)
    requires DeathOk(s) && s.script == []
    ensures AsTold(s, OnAuthRecoveryNeeded(cfg, s, trigger), s.state, s.holder.currentToken, 0)
  {
    hide Callback, TryAuthRecovery, FireTerminal;
    Uncalled(cfg, s, GONE, None);
    RecoveryShows(cfg, s, trigger);
    UncalledFire(cfg, s);
  }

  /** The token the client carries after turn `i` from `s`. */
  function Carried(cfg: Config, s: Client, i: Input, told: bool): Option<string> {
    if told then None
    else match i.event
      case UrlRead(token) => token
      case ApiDispose => if s.disposed then s.holder.currentToken else None
      case SocketCloses(w, code, _) => if Current(cfg, s, w) && code == 4005 then None else s.holder.currentToken
      case ResumeRecovery(f) =>
        if TurnedAway(s) || !Swaps(cfg, s, i) then s.holder.currentToken else Some(s.refresh.outcomes[f].token)
      case ResumePass(current) =>
        if TurnedAway(s) || !Swaps(cfg, s, i) then s.holder.currentToken
        else if s.queue.pass.Refreshing? then Some(s.refresh.outcomes[s.queue.pass.flight].token)
        else if cfg.hasTokenProvider then current else None
      case _ => s.holder.currentToken
  }

  /** Turn `i` dials: a `connect()` that nothing speaks against, or a swap. */
  predicate Dials(cfg: Config, s: Client, i: Input) {
    && !TurnedAway(s)
    && (Swaps(cfg, s, i) || (i.event.ApiConnect? && s.state.Disconnected? && s.holder.websocket.None?))
  }

  /** What turn `i` makes of the state, of the token, and of the sockets. */
  predicate Follows(cfg: Config, s: Client, i: Input, r: Client) {
    && r.state == Shown(cfg, s, i, Told(s, r))
    && r.holder.currentToken == Carried(cfg, s, i, Told(s, r))
    && r.net.constructions == s.net.constructions + (if Dials(cfg, s, i) then 1 else 0)
  }

  lemma ConnectFollows(cfg: Config, s: Client, i: Input)
    requires Quiet(Arrive(s, i)) && i.calls == [] && i.event.ApiConnect?
    ensures Follows(cfg, s, i, Step(cfg, s, i))
  {
    hide Callback;
    Uncalled(cfg, Arrive(s, i), Connecting, None);
  }

  lemma DisposeFollows(cfg: Config, s: Client, i: Input)
    requires i.calls == [] && i.event.ApiDispose?
    ensures Follows(cfg, s, i, Step(cfg, s, i))
  {
    hide Shut, CloseWrapper;
    var a := Arrive(s, i);
    if !a.disposed {
      assert Bury(a).script == [] && Bury(a).holder.currentToken == None && Bury(a).net == s.net
             && Bury(a).history.terminalCalls == s.history.terminalCalls;
      UncalledShut(cfg, Bury(a), a.holder.websocket);
    }
  }

  lemma OpenFollows(cfg: Config, s: Client, i: Input, w: nat)
    requires i.calls == [] && i.event == SocketOpens(w)
    ensures Follows(cfg, s, i, Step(cfg, s, i))
  {
    hide Callback;
    var t := Seen(Arrive(s, i), w, OpenEvent);
    Uncalled(cfg, t.(holder := t.holder.(currentAttemptOpened := true)), Connected, None);
  }

  lemma DropShows(cfg: Config, s: Client, w: nat, code: int)
    requires Quiet(s) && s.script == [] && s.holder.websocket == Some(w)
    ensures var r := SetState(cfg, Dropped(s, w), Disconnected(Some(code), true));
            && r.script == [] && r.state == Disconnected(Some(code), true)
            && r.holder.currentToken == s.holder.currentToken && r.net.constructions == s.net.constructions
            && r.history.terminalCalls == s.history.terminalCalls
  {
    hide Callback;
    Uncalled(cfg, Dropped(s, w), Disconnected(Some(code), true), None);
  }

  lemma KickShows(cfg: Config, s: Client, w: nat)
    requires Quiet(s) && s.script == [] && s.holder.websocket == Some(w)
    ensures var r := Kick(cfg, Dropped(s, w), w);
            && r.state == Kicked(SessionReplaced) && r.holder.currentToken == None && r.net.constructions == s.net.constructions
            && r.history.terminalCalls == s.history.terminalCalls
  {
    hide Callback;
    Uncalled(cfg, Latch(Dropped(s, w), w), Kicked(SessionReplaced), None);
  }

  lemma RecoverShows(cfg: Config, s: Client, w: nat, code: int, trigger: AuthRecoveryTrigger)
    requires Quiet(s) && s.script == [] && s.holder.websocket == Some(w)
    ensures AsTold(s, Recover(cfg, Dropped(s, w), code, trigger), Disconnected(Some(code), true), s.holder.currentToken, 0)
  {
    hide SetState, OnAuthRecoveryNeeded, Quiet;
    var u := SetState(cfg, Dropped(s, w), Disconnected(Some(code), true));
    DropShows(cfg, s, w, code);
    DropQuiet(cfg, s, w, Disconnected(Some(code), true));
    QuietIsOk(u);
    NeededShows(cfg, u, trigger);
  }

  lemma CurrentCloseShows(cfg: Config, s: Client, w: nat, code: int, reason: string)
    requires Quiet(s) && s.script == [] && s.holder.websocket == Some(w)
    ensures AsTold(s, HandleClose(cfg, s, w, code, reason),
                   if code == 4005 then Kicked(SessionReplaced) else Disconnected(Some(code), true),
                   if code == 4005 then None else s.holder.currentToken, 0)
  {
    hide SetState, Kick, Recover, Quiet;
    match DecideClose(code, reason, false, s.holder.currentAttemptOpened)
    case SessionReplacedClose => KickShows(cfg, s, w);
    case NormalDisconnect(c) => DropShows(cfg, s, w, c);
    case AuthRecovery(c, trigger) => RecoverShows(cfg, s, w, c, trigger);
  }

  lemma CloseFollows(cfg: Config, s: Client, i: Input, w: nat, code: int, reason: string)
    requires Quiet(Arrive(s, i)) && i.calls == [] && i.event == SocketCloses(w, code, reason)
    ensures Follows(cfg, s, i, Step(cfg, s, i))
  {
    hide HandleClose, Quiet;
    var a := Arrive(s, i);
    if a.holder.websocket == Some(w) {
      CurrentCloseShows(cfg, a, w, code, reason);
    } else {
      StaleEventsIgnored(cfg, a, w, code, reason);
    }
  }

  lemma HeartbeatFollows(cfg: Config, s: Client, i: Input)
    requires i.calls == [] && i.event.HeartbeatTimesOut?
    ensures Follows(cfg, s, i, Step(cfg, s, i))
  {
    hide Callback, Enqueue;
    Uncalled(cfg, Arrive(s, i), Disconnected(None, true), None);
  }

  lemma UploadFollows(cfg: Config, s: Client, i: Input)
    requires Quiet(Arrive(s, i)) && i.calls == [] && i.event.Upload401?
    ensures Follows(cfg, s, i, Step(cfg, s, i))
  {
    hide Callback, TryAuthRecovery, Quiet;
    Uncalled(cfg, Arrive(s, i), GONE, None);
    QuietIsOk(Arrive(s, i));
    RecoveryShows(cfg, Arrive(s, i), AuthClose);
  }

  lemma StoppedIsTurnedAway(s: Client)
    requires Quiet(s)
    ensures IsStopped(s) <==> TurnedAway(s)
    ensures IsStopped(s) <==> IsDead(s)
  {
  }

  lemma JitterShows(cfg: Config, s: Client, current: Option<string>)
    requires Quiet(s) && s.script == []
    ensures var swaps := !IsStopped(s) && (!cfg.hasTokenProvider || InsideWindow(cfg.minRefreshIntervalMs, s.refresh));
            AsTold(s, JitterOver(cfg, s, current),
                   if swaps && s.state.Connected? then Disconnected(None, true) else s.state,
                   if !swaps then s.holder.currentToken else if cfg.hasTokenProvider then current else None,
                   if swaps then 1 else 0)
  {
    hide SwapSocket, Finish, Quiet;
    StoppedIsTurnedAway(s);
    UncalledSwap(cfg, s, if cfg.hasTokenProvider then current else None);
  }

  lemma PassFollows(cfg: Config, s: Client, i: Input, current: Option<string>)
    requires Quiet(Arrive(s, i)) && i.calls == [] && i.event == ResumePass(current)
    ensures Follows(cfg, s, i, Step(cfg, s, i))
  {
    hide JitterOver, Finish, FlightLanded, Quiet;
    var a := Arrive(s, i);
    StoppedIsTurnedAway(a);
    match a.queue.pass
    case Jittered(_) => JitterShows(cfg, a, current);
    case Refreshing(_, flight) =>
      if flight in a.refresh.outcomes {
        LandingShows(cfg, a, a.refresh.outcomes[flight]);
      }
    case _ =>
  }

  lemma ResumptionFollows(cfg: Config, s: Client, i: Input, f: nat)
    requires Quiet(Arrive(s, i)) && i.calls == [] && i.event == ResumeRecovery(f)
    ensures Follows(cfg, s, i, Step(cfg, s, i))
  {
    hide FlightLanded, Quiet;
    var a := Arrive(s, i);
    StoppedIsTurnedAway(a);
    if f in a.refresh.recoveries && f in a.refresh.outcomes {
      var t := a.(refresh := a.refresh.(recoveries := a.refresh.recoveries - {f}));
      BookkeepingQuiet(a, t);
      LandingShows(cfg, t, a.refresh.outcomes[f]);
    }
  }

  lemma WakeFollows(cfg: Config, s: Client, i: Input)
    requires i.calls == [] && i.event.Wakes?
    ensures Follows(cfg, s, i, Step(cfg, s, i))
  {
    hide Callback, Enqueue;
    Uncalled(cfg, Arrive(s, i), GONE, None);
  }

  /**
   What the client shows, and which token it carries, after a turn of any run in
   which the consumer calls nothing: a held socket that opens is `connected`,
   one that closes is shown with its code and retried (4005 is a kick), a missed
   heartbeat or a swap takes `connected` away, a swap carries its token, only the
   terminal failure, the kick and `dispose()` are final, and one wrapper is built
   by a swap or a `connect()` that nothing speaks against, and by nothing else.
   */
  lemma QuietTurnShows(cfg: Config, inputs: seq<Input>, i: Input)
    requires i.calls == []
    ensures Follows(cfg, Run(cfg, inputs), i, Run(cfg, inputs + [i]))
  {
    hide Handle, Quiet, Follows;
    var s := Run(cfg, inputs);
    RunSnoc(cfg, inputs, i);
    RunQuiet(cfg, inputs);
    ArrivesQuiet(s, i);
    match i.event
    case ApiConnect => ConnectFollows(cfg, s, i);
    case ApiDispose => DisposeFollows(cfg, s, i);
    case SocketOpens(w) => OpenFollows(cfg, s, i, w);
    case SocketCloses(w, code, reason) => CloseFollows(cfg, s, i, w, code, reason);
    case HeartbeatTimesOut => HeartbeatFollows(cfg, s, i);
    case Wakes => WakeFollows(cfg, s, i);
    case Upload401 => UploadFollows(cfg, s, i);
    case ResumePass(current) => PassFollows(cfg, s, i, current);
    case ResumeRecovery(f) => ResumptionFollows(cfg, s, i, f);
    case _ => OtherFollows(cfg, s, i);
  }

  lemma OtherFollows(cfg: Config, s: Client, i: Input)
    requires i.event.UrlRead? || i.event.DebounceTimer? || i.event.JitterTimer? || i.event.ProviderSettles?
    ensures Follows(cfg, s, i, Step(cfg, s, i))
  {
  }

  // ---------- who asks the provider ----------

  /** Auth recovery is free to refresh: nothing in the air, and no auth-driven refresh inside the window. */
  predicate MayRecover(cfg: Config, s: Client, i: Input) {
    && cfg.hasTokenProvider && !TurnedAway(s) && s.refresh.refreshInFlight.None?
    && !(Recent(cfg, s, i) && s.refresh.lastRefreshWasAuthRecovery)
  }

  /** The close sends a live client into auth recovery. */
  predicate FailsAuth(s: Client, code: int, reason: string) {
    code == 1008 || code == 4001 || (code == 1000 && !s.holder.currentAttemptOpened && reason != "timeout")
  }

  /** Turn `i` is a pass whose jitter is over, on a client with a provider, outside the window. */
  predicate Renews(cfg: Config, s: Client, i: Input) {
    i.event.ResumePass? && s.queue.pass.Jittered? && !TurnedAway(s) && cfg.hasTokenProvider && !Recent(cfg, s, i)
  }

  /** On whose behalf turn `i` calls the provider, if it does. */
  function Caller(cfg: Config, s: Client, i: Input): Option<Driver> {
    match i.event
    case Upload401 => if MayRecover(cfg, s, i) then Some(AuthDriven) else None
    case SocketCloses(w, code, reason) =>
      if Current(cfg, s, w) && FailsAuth(s, code, reason) && MayRecover(cfg, s, i) then Some(AuthDriven) else None
    case _ => if Renews(cfg, s, i) && s.refresh.refreshInFlight.None? then Some(Routine) else None
  }

  /** The provider calls after turn `i`, and the stamp that the window goes by. */
  predicate AsksFor(cfg: Config, s: Client, i: Input, r: Client) {
    var now, caller := s.refresh.clock + i.elapsed, Caller(cfg, s, i);
    && r.refresh.starts == s.refresh.starts + (if caller.Some? then [Start(now, caller.value)] else [])
    && (if caller.Some? || Renews(cfg, s, i)
        then r.refresh.lastRefreshAttemptedAt == Some(now) && r.refresh.lastRefreshWasAuthRecovery == (caller == Some(AuthDriven))
        else r.refresh.lastRefreshAttemptedAt == s.refresh.lastRefreshAttemptedAt
             && r.refresh.lastRefreshWasAuthRecovery == s.refresh.lastRefreshWasAuthRecovery)
    && (Renews(cfg, s, i) ==>
          r.queue.pass == Refreshing(s.queue.pass.waiters,
                                     if caller.Some? then |s.refresh.starts| else s.refresh.refreshInFlight.value))
    && (caller == Some(AuthDriven) ==> r.refresh.recoveries == s.refresh.recoveries + {|s.refresh.starts|})
  }

  /** Nothing about refreshes changes but the flights that were awaited and have settled. */
  predicate SameCalls(s: Client, r: Client) {
    && r.refresh.starts == s.refresh.starts
    && r.refresh.lastRefreshAttemptedAt == s.refresh.lastRefreshAttemptedAt
    && r.refresh.lastRefreshWasAuthRecovery == s.refresh.lastRefreshWasAuthRecovery
  }

  lemma RecoveryAsks(cfg: Config, s: Client, trigger: AuthRecoveryTrigger)
    ensures var r := TryAuthRecovery(cfg, s, trigger);
            if !IsStopped(s) && s.refresh.refreshInFlight.None? && !Storm(cfg.minRefreshIntervalMs, s.refresh)
            then r.refresh == AuthRefresh(cfg.refreshFaults, s.refresh) else r.refresh == s.refresh
  {
    hide GiveUp;
  }

  lemma AuthAsks(cfg: Config, s: Client, i: Input, r: Client)
    requires r.refresh == AuthRefresh(cfg.refreshFaults, Arrive(s, i).refresh)
    requires Caller(cfg, s, i) == Some(AuthDriven) && s.refresh.refreshInFlight.None?
    ensures AsksFor(cfg, s, i, r)
  {
  }

  lemma NobodyAsks(cfg: Config, s: Client, i: Input, r: Client)
    requires SameCalls(s, r) && Caller(cfg, s, i).None? && !Renews(cfg, s, i)
    ensures AsksFor(cfg, s, i, r)
  {
    assert s.refresh.starts + [] == s.refresh.starts;
  }

  lemma UploadRecovers(cfg: Config, s: Client)
    requires s.script == []
    ensures OnUpload401(cfg, s) == if cfg.hasTokenProvider then TryAuthRecovery(cfg, s, AuthClose) else s
  {
    hide Callback, TryAuthRecovery;
    Uncalled(cfg, s, GONE, None);
  }

  lemma UploadAsks(cfg: Config, s: Client, i: Input)
    requires Quiet(Arrive(s, i)) && i.calls == [] && i.event.Upload401?
    ensures AsksFor(cfg, s, i, Step(cfg, s, i))
  {
    hide OnUpload401, TryAuthRecovery, AsksFor, AuthRefresh, Quiet;
    var a := Arrive(s, i);
    StoppedIsTurnedAway(a);
    UploadRecovers(cfg, a);
    RecoveryAsks(cfg, a, AuthClose);
    if Caller(cfg, s, i).Some? {
      AuthAsks(cfg, s, i, Step(cfg, s, i));
    } else {
      NobodyAsks(cfg, s, i, Step(cfg, s, i));
    }
  }

  /** The drop before a recovery changes neither the latches nor the refreshes. */
  lemma DropAsksNothing(cfg: Config, s: Client, w: nat, code: int)
    requires Quiet(s) && s.script == [] && s.holder.websocket == Some(w)
    ensures var u := SetState(cfg, Dropped(s, w), Disconnected(Some(code), true));
            u.script == [] && u.refresh == s.refresh && (IsStopped(u) <==> TurnedAway(s))
  {
    hide Callback;
    Uncalled(cfg, Dropped(s, w), Disconnected(Some(code), true), None);
  }

  lemma NeededAsks(cfg: Config, s: Client, trigger: AuthRecoveryTrigger)
    requires s.script == []
    ensures var r := OnAuthRecoveryNeeded(cfg, s, trigger);
            if cfg.hasTokenProvider && !IsStopped(s) && s.refresh.refreshInFlight.None? && !Storm(cfg.minRefreshIntervalMs, s.refresh)
            then r.refresh == AuthRefresh(cfg.refreshFaults, s.refresh) else r.refresh == s.refresh
  {
    hide Callback, TryAuthRecovery, FireTerminal, AuthRefresh;
    Uncalled(cfg, s, GONE, None);
    RecoveryAsks(cfg, s, trigger);
  }

  lemma CurrentCloseAsks(cfg: Config, s: Client, w: nat, code: int, reason: string)
    requires Quiet(s) && s.script == [] && s.holder.websocket == Some(w)
    ensures var r := HandleClose(cfg, s, w, code, reason);
            if FailsAuth(s, code, reason) && cfg.hasTokenProvider && !TurnedAway(s) && s.refresh.refreshInFlight.None?
               && !Storm(cfg.minRefreshIntervalMs, s.refresh)
            then r.refresh == AuthRefresh(cfg.refreshFaults, s.refresh) else r.refresh == s.refresh
  {
    hide SetState, Kick, OnAuthRecoveryNeeded, AuthRefresh, Quiet;
    match DecideClose(code, reason, false, s.holder.currentAttemptOpened)
    case SessionReplacedClose =>
    case NormalDisconnect(c) =>
    case AuthRecovery(c, trigger) =>
      DropAsksNothing(cfg, s, w, c);
      NeededAsks(cfg, SetState(cfg, Dropped(s, w), Disconnected(Some(c), true)), trigger);
  }

  lemma CloseAsks(cfg: Config, s: Client, i: Input, w: nat, code: int, reason: string)
    requires Quiet(Arrive(s, i)) && i.calls == [] && i.event == SocketCloses(w, code, reason)
    ensures AsksFor(cfg, s, i, Step(cfg, s, i))
  {
    hide HandleClose, AsksFor, AuthRefresh, Quiet;
    var a := Arrive(s, i);
    if a.holder.websocket == Some(w) {
      CurrentCloseAsks(cfg, a, w, code, reason);
    } else {
      StaleEventsIgnored(cfg, a, w, code, reason);
    }
    if Caller(cfg, s, i).Some? {
      AuthAsks(cfg, s, i, Step(cfg, s, i));
    } else {
      NobodyAsks(cfg, s, i, Step(cfg, s, i));
    }
  }

  lemma PassAsks(cfg: Config, s: Client, i: Input)
    requires Quiet(Arrive(s, i)) && i.event.ResumePass?
    ensures AsksFor(cfg, s, i, Step(cfg, s, i))
  {
    hide SwapSocket, FlightLanded, Finish, AsksFor, Quiet;
    var a := Arrive(s, i);
    StoppedIsTurnedAway(a);
    if Renews(cfg, s, i) {
      RenewalAsks(cfg, s, i);
    } else {
      NobodyAsks(cfg, s, i, Step(cfg, s, i));
    }
  }

  lemma RenewalAsks(cfg: Config, s: Client, i: Input)
    requires Renews(cfg, s, i) && !IsStopped(Arrive(s, i))
    ensures AsksFor(cfg, s, i, Step(cfg, s, i))
  {
    var a := Arrive(s, i);
    var x := RoutineRefresh(cfg.refreshFaults, a.refresh);
    assert Step(cfg, s, i) == a.(refresh := x.0, queue := AwaitFlight(a.queue, x.1));
  }

  lemma OthersAsk(cfg: Config, s: Client, i: Input)
    requires !i.event.Upload401? && !i.event.SocketCloses? && !i.event.ResumePass?
    ensures AsksFor(cfg, s, i, Step(cfg, s, i))
  {
    hide Callback, Connect, Dispose, HandleOpen, OnHeartbeatTimeout, OnWake, FlightLanded, AsksFor, SetState;
    OthersSameCalls(cfg, Arrive(s, i), i.event);
    NobodyAsks(cfg, s, i, Step(cfg, s, i));
  }

  lemma OthersSameCalls(cfg: Config, s: Client, e: Event)
    requires !e.Upload401? && !e.SocketCloses? && !e.ResumePass?
    ensures SameCalls(s, Handle(cfg, s, e))
  {
    hide Callback, Connect, Dispose, FlightLanded, SetState, Enqueue;
    match e
    case ApiConnect =>
    case ApiDispose =>
    case SocketOpens(_) =>
    case HeartbeatTimesOut =>
    case Wakes =>
    case ResumeRecovery(_) =>
    case _ =>
  }

  /**
   Whom a turn without consumer calls makes ask the provider, in any run: an
   upload 401, and a close of the held socket with 1008, 4001 or a pre-open 1000
   that is no connection timeout, start an auth-driven refresh, if there is a
   provider, the client is not stopped, no refresh is in the air, and the last
   attempt was not an auth-driven one inside the window; a pass past its jitter
   starts or joins a refresh, if the last attempt is older than the window; and
   nothing else asks. Each attempt is stamped with its time and its kind.
   */
  lemma QuietTurnAsks(cfg: Config, inputs: seq<Input>, i: Input)
    requires i.calls == []
    ensures AsksFor(cfg, Run(cfg, inputs), i, Run(cfg, inputs + [i]))
  {
    hide Handle, Quiet, AsksFor;
    var s := Run(cfg, inputs);
    RunSnoc(cfg, inputs, i);
    RunQuiet(cfg, inputs);
    ArrivesQuiet(s, i);
    match i.event
    case SocketCloses(w, code, reason) => CloseAsks(cfg, s, i, w, code, reason);
    case Upload401 => UploadAsks(cfg, s, i);
    case ResumePass(_) => PassAsks(cfg, s, i);
    case _ => OthersAsk(cfg, s, i);
  }

  /** What the provider delivers is what the drivers of its flight will find. */
  lemma SettlesAsDelivered(cfg: Config, inputs: seq<Input>, i: Input, f: nat)
    requires i.event.ProviderSettles? && Run(cfg, inputs).refresh.refreshInFlight == Some(f)
    ensures var s, r := Run(cfg, inputs), Run(cfg, inputs + [i]);
            r.refresh.outcomes == s.refresh.outcomes[f := i.event.outcome] && r.refresh.refreshInFlight.None?
  {
    hide Step;
    RunSnoc(cfg, inputs, i);
    StepSettles(cfg, Run(cfg, inputs), i, f);
  }

  lemma StepSettles(cfg: Config, s: Client, i: Input, f: nat)
    requires i.event.ProviderSettles? && s.refresh.refreshInFlight == Some(f)
    ensures var r := Step(cfg, s, i);
            r.refresh.outcomes == s.refresh.outcomes[f := i.event.outcome] && r.refresh.refreshInFlight.None?
  {
  }

  // ---------- a heartbeat that the consumer answers with `dispose()` ----------

  /** Consumer code can do nothing more to a client that was disposed of. */
  lemma {:induction false} DisposedStays(cfg: Config, s: Client)
    requires s.disposed
    ensures Callback(cfg, s) == s.(script := Callback(cfg, s).script)
    decreases |s.script|
  {
    if s.script != [] && !s.script[0].Return? {
      var t := s.(script := s.script[1..]);
      assert Connect(cfg, t) == t && Dispose(cfg, t) == t;
      DisposedStays(cfg, t);
    }
  }

  /** `r` was disposed of and showed exactly one more state than `s`, the final one. */
  predicate ShowsTheEnd(s: Client, r: Client) {
    r.disposed && r.history.frames == s.history.frames + [Disconnected(None, false)] && r.state == Disconnected(None, false)
  }

  lemma DisposeShowsTheEnd(cfg: Config, s: Client)
    requires !s.disposed && s.state.Connected?
    ensures ShowsTheEnd(s, Dispose(cfg, s))
  {
    hide Callback;
    var b := Bury(s);
    var w := s.holder.websocket;
    var t := CloseWrapper(cfg, b, w);
    if w.Some? {
      DisposedStays(cfg, Latch(b, w.value));
    }
    assert t.disposed && t.state.Connected? && t.history.frames == s.history.frames;
    DisposedStays(cfg, Assign(t, GONE));
    assert Dispose(cfg, s) == SetState(cfg, t, GONE) == Callback(cfg, Assign(t, GONE));
  }

  lemma {:induction false} AnswerShowsTheEnd(cfg: Config, s: Client)
    requires !s.disposed && s.state.Connected? && DisposesFirst(s.script)
    ensures ShowsTheEnd(s, Callback(cfg, s))
    decreases |s.script|
  {
    hide Dispose;
    var t := s.(script := s.script[1..]);
    if s.script[0].CallConnect? {
      assert Connect(cfg, t) == t;
      AnswerShowsTheEnd(cfg, t);
    } else {
      DisposeShowsTheEnd(cfg, t);
      DisposedStays(cfg, Dispose(cfg, t));
    }
  }

  /**
   The state is read again after the consumer was told of a missed heartbeat: if
   it disposes of the client there, only the final state is shown.
   */
  lemma HeartbeatRereads(cfg: Config, inputs: seq<Input>, i: Input)
    requires i.event.HeartbeatTimesOut? && DisposesFirst(i.calls)
    requires Run(cfg, inputs).state.Connected? && !Run(cfg, inputs).disposed
    ensures ShowsTheEnd(Run(cfg, inputs), Run(cfg, inputs + [i]))
  {
    hide Callback, Enqueue, Step;
    var s := Run(cfg, inputs);
    RunSnoc(cfg, inputs, i);
    AnswerShowsTheEnd(cfg, Arrive(s, i));
    HeartbeatTurnEnds(cfg, s, i);
  }

  lemma HeartbeatTurnEnds(cfg: Config, s: Client, i: Input)
    requires i.event.HeartbeatTimesOut? && s.state.Connected? && ShowsTheEnd(s, Callback(cfg, Arrive(s, i)))
    ensures ShowsTheEnd(s, Step(cfg, s, i))
  {
    hide Callback, Enqueue;
  }
}
