/**
 Death is absorbing, and the one way around it: the consumer disposes of the
 client inside the `connecting` notification of `connect()`, which dials all the
 same. Which calls do that can be read off the calls of the turn and the state
 before it.
 */
module ClientAbandonment {
  import opened Wrappers
  import opened ConnectionStates
  import opened CloseDecisions
  import opened ReconnectQueue
  import opened RefreshGuard
  import opened ClientModel
  import opened ClientSockets
  import opened ClientRuns
  import opened ClientTheorems
  import opened ClientTurns
  import opened ClientHolding

  /** Consumer code whose first call is `connect()`, and that disposes of the client in the notification. */
  predicate ConnectsAndDisposes(calls: seq<Call>) {
    calls != [] && calls[0].CallConnect? && DisposesFirst(calls[1..])
  }

  predicate Flagged(s: Client) {
    s.history.disposedWhileConnecting
  }

  /** What callbacks need, and keep. */
  ghost predicate Sane(s: Client) {
    SocketsOk(s) && DeathOk(s)
  }

  // ---------- callbacks ----------

  /** A live client that would not connect dies in a callback exactly by being disposed of. */
  lemma {:induction false} DisposedIff(cfg: Config, s: Client)
    requires !IsDead(s) && !Connectable(s)
    ensures IsDead(Callback(cfg, s)) <==> DisposesFirst(s.script)
    ensures IsDead(Callback(cfg, s)) ==> Callback(cfg, s).disposed
    decreases |s.script|
  {
    if s.script != [] && s.script[0].CallConnect? {
      var t := s.(script := s.script[1..]);
      assert Connect(cfg, t) == t;
      DisposedIff(cfg, t);
    }
  }

  lemma Unconnectable(cfg: Config, s: Client)
    requires Sane(s) && !Connectable(s)
    ensures Flagged(Callback(cfg, s)) == Flagged(s) && !Connectable(Callback(cfg, s)) && Sane(Callback(cfg, s))
  {
    hide Callback;
    CallbackKeeps(cfg, s);
  }

  lemma LiveIsUnflagged(s: Client)
    requires DeathOk(s) && !IsDead(s)
    ensures !Flagged(s)
  {
  }

  lemma ConnectFlags(cfg: Config, s: Client)
    requires Sane(s) && Connectable(s)
    ensures var r := Connect(cfg, s);
            Sane(r) && !Connectable(r) && (Flagged(r) <==> DisposesFirst(s.script))
  {
    hide Callback, SocketsOk;
    var a := Assign(s, Connecting);
    LiveIsUnflagged(s);
    ConnectShows(s);
    CallbackOutlives(cfg, a);
    DisposedIff(cfg, a);
    Unconnectable(cfg, a);
    assert Connect(cfg, s) == Dial(cfg, Callback(cfg, a));
    ConnectKeeps(cfg, s);
  }

  lemma DisposeFlags(cfg: Config, s: Client)
    requires Sane(s) && !s.disposed
    ensures var r := Dispose(cfg, s);
            Sane(r) && IsDead(r) && Flagged(r) == Flagged(s)
  {
    hide Shut, SocketsOk, DeathOk;
    BuryBuries(s);
    BuryHolds(s);
    HeldWasBuilt(s);
    ShutKeeps(cfg, Bury(s), s.holder.websocket);
    DisposeKeeps(cfg, s);
    BurialIsUnflagged(s);
  }

  lemma HeldWasBuilt(s: Client)
    requires SocketsOk(s)
    ensures s.holder.websocket.Some? ==> s.holder.websocket.value < s.net.constructions
  {
  }

  lemma BurialIsUnflagged(s: Client)
    ensures Flagged(Bury(s)) == Flagged(s)
  {
  }

  /** A callback sets the flag exactly on a client that would connect, with code that connects and disposes. */
  lemma CallbackFlags(cfg: Config, s: Client)
    requires Sane(s)
    ensures Flagged(Callback(cfg, s)) <==> Flagged(s) || (Connectable(s) && ConnectsAndDisposes(s.script))
  {
    hide SocketsOk, DeathOk, Connect, Dispose;
    if !Connectable(s) {
      Unconnectable(cfg, s);
    } else if s.script != [] && !s.script[0].Return? {
      var t := s.(script := s.script[1..]);
      Popped(s);
      assert Sane(t);
      if s.script[0].CallConnect? {
        ConnectFlags(cfg, t);
        Unconnectable(cfg, Connect(cfg, t));
        UnflaggedYet(s);
      } else {
        DisposeFlags(cfg, t);
        Unconnectable(cfg, Dispose(cfg, t));
      }
    }
  }

  lemma UnflaggedYet(s: Client)
    requires Sane(s) && Connectable(s)
    ensures !Flagged(s)
  {
  }

  // ---------- the swap ----------

  /** The calls abandon the client in a swap: in the notification of the drop, or in the close of the old wrapper. */
  predicate SwapAbandons(s: Client, calls: seq<Call>) {
    && s.holder.websocket.Some?
    && match s.state
       case Connected =>
         ConnectsAndDisposes(calls) || (calls != [] && calls[0].Return? && ConnectsAndDisposes(calls[1..]))
       case Disconnected(_, _) => ConnectsAndDisposes(calls)
       case _ => false
  }

  /** A callback that leaves a client connectable did nothing but return. */
  lemma StillConnectable(cfg: Config, s: Client)
    requires Sane(s) && Connectable(s)
    ensures Connectable(Callback(cfg, s)) <==> s.script == [] || s.script[0].Return?
    ensures Connectable(Callback(cfg, s)) ==> Callback(cfg, s).script == if s.script == [] then [] else s.script[1..]
  {
    hide SocketsOk, DeathOk, Connect, Dispose;
    if s.script != [] && !s.script[0].Return? {
      var t := s.(script := s.script[1..]);
      Popped(s);
      assert Sane(t);
      if s.script[0].CallConnect? {
        ConnectFlags(cfg, t);
        Unconnectable(cfg, Connect(cfg, t));
      } else {
        DisposeFlags(cfg, t);
        Unconnectable(cfg, Dispose(cfg, t));
      }
    }
  }

  lemma LatchFlags(cfg: Config, a: Client, u: Client, w: nat)
    requires Sane(a) && Kept(a, u) && Orphans(a) == {w} && a.holder.websocket.None? && w < a.net.constructions
    ensures Flagged(CloseWrapper(cfg, u, Some(w))) <==> Flagged(u) || (Connectable(u) && ConnectsAndDisposes(u.script))
  {
    hide Callback, SocketsOk, DeathOk, Reentry;
    LatchKeeps(a, u, w);
    CallbackFlags(cfg, Latch(u, w));
  }

  lemma TearDownFlags(cfg: Config, s: Client, token: Option<string>)
    requires Quiet(s.(swapping := false)) && !IsDead(s)
    ensures Flagged(TearDown(cfg, s, token)) <==> SwapAbandons(s, s.script)
  {
    hide Callback, SocketsOk, DeathOk, Reentry, Quiet;
    var a := Emptied(s, token);
    EmptiedIsSane(s, token);
    var u := if s.state.Connected? then Callback(cfg, a) else a;
    CallbackFlags(cfg, a);
    CallbackKeeps(cfg, a);
    Popped(a);
    if Connectable(a) {
      StillConnectable(cfg, a);
    }
    assert TearDown(cfg, s, token) == CloseWrapper(cfg, u, s.holder.websocket);
    if s.holder.websocket.Some? {
      LatchFlags(cfg, a, u, s.holder.websocket.value);
    }
  }

  /** What a swap does after its teardown leaves the flag alone. */
  lemma DialFlags(cfg: Config, t: Client)
    ensures Flagged(t.(swapping := false)) == Flagged(t)
    ensures Flagged(t.(holder := t.holder.(currentToken := None))) == Flagged(t)
    ensures Flagged(Construct(cfg, t).0) == Flagged(t)
  {
  }

  lemma SwappingAbandons(s: Client, calls: seq<Call>)
    ensures SwapAbandons(s.(swapping := true), calls) == SwapAbandons(s, calls)
  {
  }

  lemma SwapFlags(cfg: Config, s: Client, token: Option<string>)
    requires Quiet(s) && !IsDead(s)
    ensures Flagged(SwapSocket(cfg, s, token).0) <==> SwapAbandons(s, s.script)
  {
    hide TearDown, Quiet, Construct, Flagged, SwapAbandons;
    NotSwapping(s);
    var mid := s.(swapping := true);
    assert mid.(swapping := false) == s;
    TearDownFlags(cfg, mid, token);
    SwappingAbandons(s, s.script);
    DialFlags(cfg, TearDown(cfg, mid, token));
    DialFlags(cfg, TearDown(cfg, mid, token).(swapping := false));
  }

  // ---------- giving up ----------

  lemma FireFlags(cfg: Config, s: Client)
    requires Quiet(s.(terminalFired := false))
    ensures Flagged(FireTerminal(cfg, s)) == Flagged(s)
  {
    hide Shut, Announce;
    if !s.terminalAuthFired {
      EntombKeeps(s);
      ShutKeeps(cfg, Entomb(s), s.holder.websocket);
      AnnounceRests(cfg, Shut(cfg, Entomb(s), s.holder.websocket));
    }
  }

  lemma GiveUpFlags(cfg: Config, s: Client)
    requires Quiet(s)
    ensures Flagged(GiveUp(cfg, s)) == Flagged(s)
  {
    hide FireTerminal, Quiet;
    if !IsStopped(s) {
      assert s.(terminalFired := true).(terminalFired := false) == s;
      FireFlags(cfg, s.(terminalFired := true));
    }
  }

  lemma RecoveryFlags(cfg: Config, s: Client, trigger: AuthRecoveryTrigger)
    requires Quiet(s)
    ensures Flagged(TryAuthRecovery(cfg, s, trigger)) == Flagged(s)
  {
    hide GiveUp, Quiet;
    GiveUpFlags(cfg, s);
  }

  lemma NeededFlags(cfg: Config, s: Client, trigger: AuthRecoveryTrigger)
    requires Quiet(s) && !Connectable(s)
    ensures Flagged(OnAuthRecoveryNeeded(cfg, s, trigger)) == Flagged(s)
  {
    hide Callback, TryAuthRecovery, FireTerminal, Quiet;
    if cfg.hasTokenProvider {
      QuietIsSane(s);
      Unconnectable(cfg, s);
      CallbackQuiet(cfg, s);
      RecoveryFlags(cfg, Callback(cfg, s), trigger);
    } else if trigger.AuthClose? {
      FireUnfired(cfg, s);
    }
  }

  lemma QuietIsSane(s: Client)
    requires Quiet(s)
    ensures Sane(s) && (!IsDead(s) ==> !IsStopped(s) && !Flagged(s))
  {
  }

  /** `ClientLifecycle` gives up directly, past a manager whose latch may or may not be set. */
  lemma FireUnfired(cfg: Config, s: Client)
    requires Quiet(s)
    ensures Flagged(FireTerminal(cfg, s)) == Flagged(s)
  {
    hide Shut, Announce;
    if !s.terminalAuthFired {
      assert s.(terminalFired := false) == s;
      FireFlags(cfg, s);
    }
  }

  // ---------- turns ----------

  lemma LandingFlags(cfg: Config, s: Client, outcome: Outcome)
    requires Quiet(s)
    ensures Flagged(FlightLanded(cfg, s, outcome))
       <==> Flagged(s) || (!IsDead(s) && outcome.Fresh? && SwapAbandons(s, s.script))
  {
    hide SwapSocket, GiveUp, Quiet;
    QuietIsSane(s);
    if outcome.Fresh? {
      SwapQuiet(cfg, s, Some(outcome.token));
      if IsDead(s) {
        DeadSwap(cfg, s, Some(outcome.token));
      } else {
        SwapFlags(cfg, s, Some(outcome.token));
      }
    }
    GiveUpFlags(cfg, AfterRefresh(cfg, s, outcome).0);
  }

  lemma DeadSwap(cfg: Config, s: Client, token: Option<string>)
    requires IsDead(s)
    ensures SwapSocket(cfg, s, token) == (s, false)
  {
  }

  lemma PassFlags(cfg: Config, s: Client, i: Input)
    requires Quiet(Arrive(s, i)) && i.event.ResumePass?
    ensures Flagged(Step(cfg, s, i)) <==> Flagged(s) || (!IsDead(s) && Swaps(cfg, s, i) && SwapAbandons(s, i.calls))
  {
    hide SwapSocket, Finish, FlightLanded, Quiet, SwapAbandons;
    var a := Arrive(s, i);
    QuietIsSane(a);
    assert SwapAbandons(s, i.calls) == SwapAbandons(a, i.calls) by { SameAbandoning(s, i); }
    match a.queue.pass
    case Jittered(_) =>
      if !IsDead(a) {
        SwapFlags(cfg, a, if cfg.hasTokenProvider then i.event.current else None);
      }
    case Refreshing(_, flight) =>
      if flight in a.refresh.outcomes {
        LandingFlags(cfg, a, a.refresh.outcomes[flight]);
      }
    case _ =>
  }

  lemma SameAbandoning(s: Client, i: Input)
    ensures SwapAbandons(s, i.calls) == SwapAbandons(Arrive(s, i), i.calls)
  {
  }

  lemma ResumptionFlags(cfg: Config, s: Client, i: Input, f: nat)
    requires Quiet(Arrive(s, i)) && i.event == ResumeRecovery(f)
    ensures Flagged(Step(cfg, s, i)) <==> Flagged(s) || (!IsDead(s) && Swaps(cfg, s, i) && SwapAbandons(s, i.calls))
  {
    hide FlightLanded, Quiet;
    var a := Arrive(s, i);
    if f in a.refresh.recoveries && f in a.refresh.outcomes {
      var t := a.(refresh := a.refresh.(recoveries := a.refresh.recoveries - {f}));
      BookkeepingQuiet(a, t);
      LandingFlags(cfg, t, a.refresh.outcomes[f]);
    }
  }

  lemma OpenShows(s: Client, w: nat)
    requires Quiet(s) && s.holder.websocket == Some(w)
    ensures Sane(ShownOpen(s, w)) && !Connectable(ShownOpen(s, w)) && Flagged(ShownOpen(s, w)) == Flagged(s)
  {
  }

  lemma OpenFlags(cfg: Config, s: Client, w: nat)
    requires Quiet(s)
    ensures Flagged(HandleOpen(cfg, s, w)) == Flagged(s)
  {
    hide Callback, SocketsOk, DeathOk, Quiet;
    if s.holder.websocket == Some(w) {
      OpenShows(s, w);
      Unconnectable(cfg, ShownOpen(s, w));
    }
  }

  lemma DropFlags(cfg: Config, s: Client, w: nat, next: ConnectionState)
    requires Quiet(s) && s.holder.websocket == Some(w) && next.Disconnected? && next.willRetry
    ensures var r := SetState(cfg, Dropped(s, w), next);
            Flagged(r) == Flagged(s) && !Connectable(r)
  {
    hide Callback;
    Unconnectable(cfg, Assign(Dropped(s, w), next));
  }

  lemma KickFlags(cfg: Config, s: Client, w: nat)
    requires Quiet(s) && s.holder.websocket == Some(w)
    ensures Flagged(Kick(cfg, Dropped(s, w), w)) == Flagged(s)
  {
    hide Callback, SocketsOk, DeathOk;
    KickAssigns(s, w);
    KickIsFresh(s, w);
    Unconnectable(cfg, ShownKicked(s, w));
    assert Flagged(ShownKicked(s, w)) == Flagged(s) by { MarkIsUnflagged(s); }
  }

  lemma MarkIsUnflagged(s: Client)
    ensures Flagged(Mark(s)) == Flagged(s)
  {
  }

  lemma CloseFlags(cfg: Config, s: Client, w: nat, code: int, reason: string)
    requires Quiet(s)
    ensures Flagged(HandleClose(cfg, s, w, code, reason)) == Flagged(s)
  {
    hide Kick, SetState, OnAuthRecoveryNeeded, Quiet;
    if s.holder.websocket == Some(w) {
      match DecideClose(code, reason, false, s.holder.currentAttemptOpened)
      case SessionReplacedClose => KickFlags(cfg, s, w);
      case NormalDisconnect(c) => DropFlags(cfg, s, w, Disconnected(Some(c), true));
      case AuthRecovery(c, trigger) =>
        DropFlags(cfg, s, w, Disconnected(Some(c), true));
        DropQuiet(cfg, s, w, Disconnected(Some(c), true));
        NeededFlags(cfg, SetState(cfg, Dropped(s, w), Disconnected(Some(c), true)), trigger);
    } else {
      StaleEventsIgnored(cfg, s, w, code, reason);
    }
  }

  lemma HeartbeatFlags(cfg: Config, s: Client)
    requires Quiet(s)
    ensures Flagged(OnHeartbeatTimeout(cfg, s)) <==> Flagged(s) || (Connectable(s) && ConnectsAndDisposes(s.script))
  {
    hide Callback, Enqueue;
    var t := Callback(cfg, s);
    CallbackFlags(cfg, s);
    CallbackQuiet(cfg, s);
    if t.state.Connected? {
      Unconnectable(cfg, Assign(t, Disconnected(None, true)));
    }
  }

  lemma WakeFlags(cfg: Config, s: Client)
    requires Quiet(s)
    ensures Flagged(OnWake(cfg, s)) <==> Flagged(s) || (Connectable(s) && ConnectsAndDisposes(s.script))
  {
    hide Callback, Enqueue;
    CallbackFlags(cfg, s);
  }

  lemma UploadFlags(cfg: Config, s: Client)
    requires Quiet(s)
    ensures Flagged(OnUpload401(cfg, s))
       <==> Flagged(s) || (cfg.hasTokenProvider && Connectable(s) && ConnectsAndDisposes(s.script))
  {
    hide Callback, TryAuthRecovery, Quiet;
    QuietIsSane(s);
    CallbackFlags(cfg, s);
    CallbackQuiet(cfg, s);
    RecoveryFlags(cfg, Callback(cfg, s), AuthClose);
  }

  lemma ApiFlags(cfg: Config, s: Client)
    requires Quiet(s)
    ensures Flagged(Connect(cfg, s)) <==> Flagged(s) || (Connectable(s) && DisposesFirst(s.script))
    ensures Flagged(Dispose(cfg, s)) == Flagged(s)
  {
    hide Quiet, Shut;
    QuietIsSane(s);
    if Connectable(s) {
      ConnectFlags(cfg, s);
    }
    if !s.disposed {
      DisposeFlags(cfg, s);
    }
  }

  /**
   The consumer abandons the client in turn `i`: it connects a live client, in
   the turn of its own or from a callback, and disposes of it in the notification.
   */
  predicate Abandons(cfg: Config, s: Client, i: Input) {
    && !IsDead(s)
    && match i.event
       case ApiConnect => Connectable(s) && DisposesFirst(i.calls)
       case HeartbeatTimesOut => Connectable(s) && ConnectsAndDisposes(i.calls)
       case Wakes => Connectable(s) && ConnectsAndDisposes(i.calls)
       case Upload401 => cfg.hasTokenProvider && Connectable(s) && ConnectsAndDisposes(i.calls)
       case _ => Swaps(cfg, s, i) && SwapAbandons(s, i.calls)
  }

  lemma TurnAbandonsIff(cfg: Config, s: Client, i: Input)
    requires Quiet(s)
    ensures Flagged(Step(cfg, s, i)) <==> Flagged(s) || Abandons(cfg, s, i)
  {
    hide Quiet, Callback, Connect, Dispose, HandleOpen, HandleClose, OnHeartbeatTimeout, OnWake, OnUpload401, PassResumes,
      RecoveryResumes, SwapAbandons;
    var a := Arrive(s, i);
    ArriveQuiet(s, i);
    match i.event
    case ApiConnect => ApiFlags(cfg, a);
    case ApiDispose => ApiFlags(cfg, a);
    case SocketOpens(w) => if Exists(cfg, a, w) { OpenFlags(cfg, a, w); }
    case SocketCloses(w, code, reason) => CloseFlags(cfg, a, w, code, reason);
    case HeartbeatTimesOut => HeartbeatFlags(cfg, a);
    case Wakes => WakeFlags(cfg, a);
    case Upload401 => UploadFlags(cfg, a);
    case ResumePass(_) => PassFlags(cfg, s, i);
    case ResumeRecovery(f) => ResumptionFlags(cfg, s, i, f);
    case _ =>
  }

  lemma ArriveQuiet(s: Client, i: Input)
    requires Quiet(s)
    ensures Quiet(Arrive(s, i))
  {
  }

  // ---------- runs ----------

  /** The consumer abandons the client in some turn of the run. */
  ghost predicate Abandoned(cfg: Config, inputs: seq<Input>) {
    exists k :: 0 <= k < |inputs| && Abandons(cfg, Run(cfg, inputs[..k]), inputs[k])
  }

  lemma AbandonedSnoc(cfg: Config, inputs: seq<Input>)
    requires inputs != []
    ensures var n := |inputs| - 1;
            Abandoned(cfg, inputs) <==> Abandoned(cfg, inputs[..n]) || Abandons(cfg, Run(cfg, inputs[..n]), inputs[n])
  {
    hide Abandons, Run;
    var n := |inputs| - 1;
    assert forall k :: 0 <= k < n ==> inputs[..n][..k] == inputs[..k] && inputs[..n][k] == inputs[k];
    if Abandoned(cfg, inputs[..n]) {
      var k :| 0 <= k < n && Abandons(cfg, Run(cfg, inputs[..n][..k]), inputs[..n][k]);
      assert Abandons(cfg, Run(cfg, inputs[..k]), inputs[k]);
    }
    if Abandoned(cfg, inputs) {
      var k :| 0 <= k < |inputs| && Abandons(cfg, Run(cfg, inputs[..k]), inputs[k]);
      assert k < n ==> Abandons(cfg, Run(cfg, inputs[..n][..k]), inputs[..n][k]);
    }
  }

  lemma {:induction false} RunAbandonedIff(cfg: Config, inputs: seq<Input>)
    ensures Flagged(Run(cfg, inputs)) <==> Abandoned(cfg, inputs)
  {
    hide Step, Abandons, Abandoned, Quiet;
    if inputs == [] {
      assert !Abandoned(cfg, inputs) by { NobodyYet(cfg); }
    } else {
      var n := |inputs| - 1;
      RunAbandonedIff(cfg, inputs[..n]);
      RunQuiet(cfg, inputs[..n]);
      TurnAbandonsIff(cfg, Run(cfg, inputs[..n]), inputs[n]);
      AbandonedSnoc(cfg, inputs);
    }
  }

  lemma NobodyYet(cfg: Config)
    ensures !Abandoned(cfg, [])
  {
  }

  /**
   Death is absorbing: a client that died constructs no socket, refreshes no
   token and shows only final states from then on. That is so in exactly the
   runs in which the consumer never abandons the client.
   */
  lemma DeathIsAbsorbing(cfg: Config, inputs: seq<Input>)
    ensures var s := Run(cfg, inputs);
            && (IsDead(s) <==> s.history.death.Some?)
            && (Absorbed(s) <==> !Abandoned(cfg, inputs))
  {
    RunQuiet(cfg, inputs);
    RunAbandonedIff(cfg, inputs);
  }

  /** The same, read forward from any moment at which the client is dead. */
  lemma NothingAfterDeath(cfg: Config, inputs: seq<Input>, k: nat)
    requires k <= |inputs| && IsDead(Run(cfg, inputs[..k])) && !Abandoned(cfg, inputs)
    ensures var s, r := Run(cfg, inputs[..k]), Run(cfg, inputs);
            && IsDead(r) && Final(r.state)
            && r.net.constructions == s.net.constructions
            && |r.refresh.starts| == |s.refresh.starts|
            && r.net.live == {}
  {
    RunAbandonedIff(cfg, inputs);
    RunQuiet(cfg, inputs[..k]);
    RunQuiet(cfg, inputs);
    RunGrows(cfg, inputs, k);
  }
}
