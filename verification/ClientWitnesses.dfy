/**
 Runs in which the client does what its comments say it does not do.
 */
module ClientWitnesses {
  import opened Wrappers
  import opened ConnectionStates
  import opened WebSocketHolders
  import opened ReconnectQueue
  import opened RefreshGuard
  import opened ClientModel
  import opened ClientSockets
  import opened ClientAbandonment
  import opened ClientRates
  import opened ClientGiveUp
  import opened ClientTurns

  const CFG := Config(true, 30000, {}, {})

  lemma DisposedDuringNotification(s: Client)
    requires s.script == [CallDispose] && s.state == Connecting && s.holder.websocket.None? && !s.disposed
    ensures Callback(CFG, s) == Assign(Bury(s.(script := [])), GONE)
  {
    var b := s.(script := []);
    assert s.script[1..] == [];
    Uncalled(CFG, Bury(b), GONE, None);
    assert Dispose(CFG, b) == Assign(Bury(b), GONE);
    Uncalled(CFG, Dispose(CFG, b), GONE, None);
  }

  const ABANDON := Input(0, ApiConnect, [CallDispose])

  function Deserted(): Client {
    var a := Assign(Arrive(NEW_CLIENT, ABANDON), Connecting);
    Dial(CFG, Assign(Bury(a.(script := [])), GONE))
  }

  lemma ConnectAndAbandon()
    ensures Step(CFG, NEW_CLIENT, ABANDON) == Deserted()
  {
    DisposedDuringNotification(Assign(Arrive(NEW_CLIENT, ABANDON), Connecting));
  }

  lemma DesertedOpens()
    ensures var s := Step(CFG, Deserted(), Quietly(SocketOpens(0)));
            s.disposed && s.state == Connected && s.net.live == {0} && s.history.disposedWhileConnecting
  {
    var t := Seen(Arrive(Deserted(), Quietly(SocketOpens(0))), 0, OpenEvent);
    Uncalled(CFG, t.(holder := t.holder.(currentAttemptOpened := true)), Connected, None);
  }

  /**
   `connect()` does not look again after its `connecting` notification: a
   consumer that disposes of the client there gets a socket all the same, and
   when it opens the disposed client shows `connected`.
   */
  lemma DisposeWhileConnectingDials()
    ensures var s := Run(CFG, [ABANDON, Quietly(SocketOpens(0))]);
            s.disposed && s.state == Connected && s.net.live == {0} && !Absorbed(s)
    ensures Abandoned(CFG, [ABANDON, Quietly(SocketOpens(0))])
  {
    TwoTurns(CFG, ABANDON, Quietly(SocketOpens(0)));
    ConnectAndAbandon();
    DesertedOpens();
    RunAbandonedIff(CFG, [ABANDON, Quietly(SocketOpens(0))]);
    DeathIsAbsorbing(CFG, [ABANDON, Quietly(SocketOpens(0))]);
  }

  /** A client that has refreshed once for a rejected upload, and whose refresh has settled. */
  function Refreshed(): Client {
    NEW_CLIENT.(refresh := UNUSED.(lastRefreshAttemptedAt := Some(0), lastRefreshWasAuthRecovery := true,
                                   recoveries := {0}, starts := [Start(0, AuthDriven)],
                                   outcomes := map[0 := Fresh("t")]))
  }

  function Uploading(): Client {
    NEW_CLIENT.(refresh := Refresher(0, Some(0), Some(0), true, {0}, map[], [Start(0, AuthDriven)]))
  }

  lemma UploadRefreshes()
    ensures Step(CFG, NEW_CLIENT, Quietly(Upload401)) == Uploading()
  {
    Uncalled(CFG, NEW_CLIENT, GONE, None);
    assert Arrive(NEW_CLIENT, Quietly(Upload401)) == NEW_CLIENT;
    assert AuthRefresh({}, UNUSED) == Uploading().refresh;
  }

  lemma UploadSettles()
    ensures Step(CFG, Uploading(), Quietly(ProviderSettles(Fresh("t")))) == Refreshed()
  {
  }

  lemma RefreshedDials()
    ensures var s := RecoveryResumes(CFG, Refreshed(), 0);
            s.net.live == {0} && s.state == GONE && !IsDead(s)
  {
    var t := Refreshed().(refresh := Refreshed().refresh.(recoveries := {}));
    assert Refreshed().refresh.recoveries - {0} == {};
    Uncalled(CFG, t.(swapping := true, holder := Holder(None, Some("t"), false)), GONE, None);
    assert SwapSocket(CFG, t, Some("t")).0 == Construct(CFG, t.(holder := Holder(None, Some("t"), false))).0;
  }

  /**
   An upload answered 401 before the first `connect()` refreshes and dials. The
   client then holds a live socket and still shows that it will not retry.
   */
  lemma UploadRejectionDialsUnasked()
    ensures var s := Run(CFG, [Quietly(Upload401), Quietly(ProviderSettles(Fresh("t"))), Quietly(ResumeRecovery(0))]);
            s.net.live == {0} && s.state == Disconnected(None, false) && !IsDead(s)
  {
    ThreeTurns(CFG, Quietly(Upload401), Quietly(ProviderSettles(Fresh("t"))), Quietly(ResumeRecovery(0)));
    UploadRefreshes();
    UploadSettles();
    assert Arrive(Refreshed(), Quietly(ResumeRecovery(0))) == Refreshed();
    RefreshedDials();
  }

  // ---------- two refreshes inside one window ----------

  /** Connect, and sleep for a minute. */
  const OPENED := [After(0, ApiConnect), After(50, SocketOpens(0)), After(60000, Wakes)]

  /** The debounce and jitter delays of the reconnect that the wake asked for. */
  const DELAYED := [After(100, DebounceTimer), After(500, JitterTimer), After(0, ResumePass(None))]

  /** Its refresh, and the socket it dials. */
  const REFRESHED := [After(200, ProviderSettles(Fresh("t"))), After(0, ResumePass(None)), After(1000, Upload401)]

  function Dialling(): Client {
    NEW_CLIENT.(state := Connecting, holder := Holder(Some(0), None, false), net := Net(1, {0}, map[]),
                history := History([Connecting], 0, None, false))
  }

  function AtClock(s: Client, now: int): Client {
    s.(refresh := s.refresh.(clock := now))
  }

  function Open(): Client {
    AtClock(NEW_CLIENT.(state := Connected, holder := Holder(Some(0), None, true), net := Net(1, {0}, map[0 := OpenEvent]),
                        history := History([Connecting, Connected], 0, None, false)), 50)
  }

  function Woken(): Client {
    AtClock(Open().(queue := EMPTY.(armed := true, pending := [0], calledAt := [0])), 60050)
  }

  function Waiting(): Client {
    AtClock(Open().(queue := EMPTY.(pass := Jittered([0]), passes := 1, calledAt := [0])), 60650)
  }

  function Renewing(): Client {
    Waiting().(queue := EMPTY.(pass := Refreshing([0], 0), passes := 1, calledAt := [0]),
               refresh := Refresher(60650, Some(0), Some(60650), false, {}, map[], [Start(60650, Routine)]))
  }

  function Renewed(): Client {
    Renewing().(refresh := Refresher(60850, None, Some(60650), false, {}, map[0 := Fresh("t")], [Start(60650, Routine)]))
  }

  lemma Connects(cfg: Config)
    requires 0 !in cfg.constructFaults
    ensures Step(cfg, Step(cfg, NEW_CLIENT, OPENED[0]), OPENED[1]) == Open()
  {
    Uncalled(cfg, NEW_CLIENT, Connecting, None);
    var a := Assign(NEW_CLIENT, Connecting);
    Uncalled(cfg, a, GONE, None);
    assert Step(cfg, NEW_CLIENT, OPENED[0]) == Dialling();
    var t := Seen(AtClock(Dialling(), 50), 0, OpenEvent);
    Uncalled(cfg, t.(holder := t.holder.(currentAttemptOpened := true)), Connected, None);
  }

  lemma WakeQueues()
    ensures Step(CFG, Open(), OPENED[2]) == Woken()
  {
    Uncalled(CFG, AtClock(Open(), 60050), GONE, None);
  }

  lemma WokenWaits()
    ensures Step(CFG, Step(CFG, Woken(), DELAYED[0]), DELAYED[1]) == Waiting()
  {
    var a := AtClock(Woken(), 60150);
    var b := a.(queue := DebounceFires(a.queue, false));
    assert Step(CFG, Woken(), DELAYED[0]) == b;
    assert b.queue == EMPTY.(pass := Jittering([0]), passes := 1, calledAt := [0]);
    assert Step(CFG, b, DELAYED[1]) == AtClock(b, 60650).(queue := JitterElapses(b.queue));
  }

  lemma WaitingRenews()
    ensures Step(CFG, Waiting(), DELAYED[2]) == Renewing()
  {
    var r := RoutineRefresh({}, Waiting().refresh);
    assert r.0 == Renewing().refresh && r.1 == 0;
  }

  lemma RenewingSettles()
    ensures Step(CFG, Renewing(), REFRESHED[0]) == Renewed()
  {
  }

  lemma RenewedDials()
    ensures var r := Step(CFG, Renewed(), REFRESHED[1]);
            r.refresh == Renewed().refresh && r.holder == Holder(Some(1), Some("t"), false) && !IsStopped(r)
  {
    var t := Renewed();
    var u := t.(swapping := true, holder := Holder(None, Some("t"), false));
    Uncalled(CFG, u, Disconnected(None, true), Some(0));
    var v := Assign(u, Disconnected(None, true));
    Uncalled(CFG, v, GONE, Some(0));
    assert SwapSocket(CFG, t, Some("t")).0 == Construct(CFG, Latch(v, 0).(swapping := false)).0;
  }

  lemma UploadRefreshesAgain(s: Client)
    requires s.refresh == Renewed().refresh && !IsStopped(s)
    ensures Step(CFG, s, REFRESHED[2]).refresh.starts == [Start(60650, Routine), Start(61850, AuthDriven)]
  {
    var a := AtClock(s.(script := []), 61850);
    Uncalled(CFG, a, GONE, None);
    assert Arrive(s, REFRESHED[2]) == a;
  }

  lemma Sleeps()
    ensures Run(CFG, OPENED + DELAYED) == Renewing()
  {
    ThreeTurns(CFG, OPENED[0], OPENED[1], OPENED[2]);
    assert OPENED == [OPENED[0], OPENED[1], OPENED[2]];
    ThreeMore(CFG, OPENED, DELAYED[0], DELAYED[1], DELAYED[2]);
    assert DELAYED == [DELAYED[0], DELAYED[1], DELAYED[2]];
    Connects(CFG);
    WakeQueues();
    WokenWaits();
    WaitingRenews();
  }

  lemma SleepsAndDials()
    ensures Run(CFG, OPENED + DELAYED + REFRESHED) == Step(CFG, Step(CFG, Renewed(), REFRESHED[1]), REFRESHED[2])
  {
    ThreeMore(CFG, OPENED + DELAYED, REFRESHED[0], REFRESHED[1], REFRESHED[2]);
    assert REFRESHED == [REFRESHED[0], REFRESHED[1], REFRESHED[2]];
    Sleeps();
    RenewingSettles();
  }

  lemma ThatIsTooSoon()
    ensures !OnePerWindow(CFG.minRefreshIntervalMs, [Start(60650, Routine), Start(61850, AuthDriven)])
  {
    var starts := [Start(60650, Routine), Start(61850, AuthDriven)];
    assert starts[1].at - starts[0].at < CFG.minRefreshIntervalMs;
  }

  /** A client that slept refreshes and dials, and an upload answered 401 a second later refreshes again. */
  lemma TwoRefreshesInOneWindow()
    ensures Run(CFG, OPENED + DELAYED + REFRESHED).refresh.starts == [Start(60650, Routine), Start(61850, AuthDriven)]
    ensures !OnePerWindow(CFG.minRefreshIntervalMs, Run(CFG, OPENED + DELAYED + REFRESHED).refresh.starts)
  {
    SleepsAndDials();
    RenewedDials();
    UploadRefreshesAgain(Step(CFG, Renewed(), REFRESHED[1]));
    ThatIsTooSoon();
  }

  // ---------- told after death ----------

  /** A client without a token provider. */
  const BARE := Config(false, 30000, {}, {})

  const REJECTED := Input(0, SocketCloses(0, 4001, ""), [CallDispose])

  /** The client once the consumer has disposed of it inside the `disconnected` notification. */
  function DisposedInside(): Client {
    Assign(Latch(Bury(Assign(Dropped(Open(), 0), Disconnected(Some(4001), true))), 0), GONE)
  }

  lemma NotificationDisposes()
    ensures SetState(BARE, Dropped(Arrive(Open(), REJECTED), 0), Disconnected(Some(4001), true)) == DisposedInside()
  {
    var b := Assign(Dropped(Open(), 0), Disconnected(Some(4001), true));
    var c := Assign(Dropped(Arrive(Open(), REJECTED), 0), Disconnected(Some(4001), true));
    assert c.script == [CallDispose] && c.script[1..] == [] && c.(script := []) == b;
    Uncalled(BARE, Bury(b), GONE, Some(0));
    Uncalled(BARE, Latch(Bury(b), 0), GONE, None);
    assert Dispose(BARE, b) == DisposedInside();
    Uncalled(BARE, DisposedInside(), GONE, None);
  }

  /** Dead, gone, silent, and told nothing yet. */
  predicate Undone(s: Client) {
    s.disposed && !s.terminalAuthFired && s.state == GONE && s.holder.websocket.None? && s.script == [] && s.history.terminalCalls == 0
  }

  lemma DisposedIsUndone()
    ensures Undone(DisposedInside())
  {
  }

  lemma UndoneIsTold(s: Client)
    requires Undone(s)
    ensures FireTerminal(BARE, s).disposed && FireTerminal(BARE, s).history.terminalCalls == 1
  {
    Uncalled(BARE, Entomb(s), GONE, None);
  }

  lemma RejectionFires()
    ensures Step(BARE, Open(), REJECTED) == FireTerminal(BARE, DisposedInside())
  {
    hide SetState, FireTerminal, DisposedInside;
    NotificationDisposes();
  }

  lemma DeadIsTold()
    ensures var r := Step(BARE, Open(), REJECTED);
            r.disposed && r.history.terminalCalls == 1
  {
    hide Step, DisposedInside;
    RejectionFires();
    DisposedIsUndone();
    UndoneIsTold(DisposedInside());
  }

  lemma BareOpens()
    ensures Run(BARE, [OPENED[0], OPENED[1]]) == Open()
    ensures Run(BARE, [OPENED[0], OPENED[1], REJECTED]) == Step(BARE, Open(), REJECTED)
  {
    TwoTurns(BARE, OPENED[0], OPENED[1]);
    ThreeTurns(BARE, OPENED[0], OPENED[1], REJECTED);
    Connects(BARE);
  }

  lemma FoundDead()
    ensures TellsTheDead(BARE, Open(), REJECTED) && !IsDead(Open())
  {
  }

  /**
   A client without a provider is disposed of inside the `disconnected`
   notification of a 4001, and is told of the terminal failure all the same.
   */
  lemma DisposedAndThenTold()
    ensures var s := Run(BARE, [OPENED[0], OPENED[1], REJECTED]);
            s.disposed && s.history.terminalCalls == 1
    ensures var s := Run(BARE, [OPENED[0], OPENED[1]]);
            !IsDead(s) && TellsTheDead(BARE, s, REJECTED)
  {
    BareOpens();
    DeadIsTold();
    FoundDead();
  }
}
