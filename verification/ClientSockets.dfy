/**
 Sockets, connection state and death: what every callback and every step keeps.
 */
module ClientSockets {
  import opened Wrappers
  import opened ConnectionStates
  import opened ClientModel

  const GONE := Disconnected(None, false)

  function Held(s: Client): set<nat> {
    if s.holder.websocket.Some? then {s.holder.websocket.value} else {}
  }

  /** Wrappers nobody will ever close. */
  function Orphans(s: Client): set<nat> {
    s.net.live - Held(s)
  }

  /** The wrapper in the holder, if any, last reported an open. */
  predicate HeldIsOpen(s: Client) {
    && s.holder.websocket.Some?
    && s.holder.websocket.value in s.net.lastEvent
    && s.net.lastEvent[s.holder.websocket.value].OpenEvent?
  }

  /** `connect()` would go past its guards. */
  predicate Connectable(s: Client) {
    !IsDead(s) && s.state.Disconnected? && s.holder.websocket.None?
  }

  /** Since it first died the client constructed no socket, refreshed no token and showed only final states. */
  ghost predicate Absorbed(s: Client) {
    s.history.death.Some? ==>
      var mark := s.history.death.value;
      && s.net.constructions == mark.constructions
      && |s.refresh.starts| == mark.refreshes
      && forall i :: mark.frames <= i < |s.history.frames| ==> Final(s.history.frames[i])
  }

  /** Holds even in the middle of a callback. */
  ghost predicate SocketsOk(s: Client) {
    && (forall w :: w in s.net.live ==> w < s.net.constructions)
    && (forall w :: w in s.net.lastEvent ==> w < s.net.constructions)
    && (s.holder.websocket.Some? ==> s.holder.websocket.value < s.net.constructions)
    && (s.holder.currentAttemptOpened <==> HeldIsOpen(s))
    && (!IsDead(s) ==> Held(s) <= s.net.live)
    && (!IsDead(s) && s.state.Connected? ==> s.holder.currentAttemptOpened)
  }

  /** Holds even in the middle of a callback. */
  ghost predicate DeathOk(s: Client) {
    && (s.history.death.Some? <==> IsDead(s))
    && (s.queue.disposed ==> s.disposed)
    && (s.terminalFired ==> s.terminalAuthFired)
    && (s.history.disposedWhileConnecting ==>
          s.disposed && s.net.constructions > s.history.death.value.constructions)
    && (!s.history.disposedWhileConnecting ==> Absorbed(s))
    && (s.state.Disconnected? && !s.state.willRetry ==> IsDead(s) || s.history.frames == [])
  }

  /** What the consumer can do to the sockets from inside a callback. */
  ghost predicate Reentry(s: Client, r: Client) {
    && Orphans(r) == Orphans(s)
    && s.net.constructions <= r.net.constructions
    && (s.history.disposedWhileConnecting ==> r.history.disposedWhileConnecting)
    && (IsDead(s) ==> IsDead(r))
    && (r.holder.websocket == s.holder.websocket
        || r.holder.websocket.None?
        || r.holder.websocket.value >= s.net.constructions)
    && (!Connectable(s) ==>
          && !Connectable(r)
          && r.net.constructions == s.net.constructions
          && r.history.disposedWhileConnecting == s.history.disposedWhileConnecting
          && (r.state == GONE || (r.state == s.state && Held(r) == Held(s)))
          && (r.holder.websocket.None? || (r.holder == s.holder && r.net == s.net)))
    && (!IsDead(s) && IsDead(r) ==>
          && r.state == GONE
          && Held(r) <= r.net.live
          && (r.holder.websocket.None? || r.history.disposedWhileConnecting))
  }

  ghost predicate Kept(s: Client, r: Client) {
    SocketsOk(r) && DeathOk(r) && Reentry(s, r)
  }

  /** A call popped off the script, and the rest of the callback. */
  lemma KeptByCall(s: Client, t: Client, u: Client, r: Client)
    requires t == s.(script := t.script) && Kept(t, u) && Kept(u, r)
    ensures Kept(s, r)
  {
  }

  // ---------- callbacks ----------

  lemma Popped(s: Client)
    requires SocketsOk(s) && DeathOk(s)
    ensures Kept(s, s)
    ensures s.script != [] ==> Kept(s, s.(script := s.script[1..]))
  {
  }

  lemma CallbackKeeps(cfg: Config, s: Client)
    requires SocketsOk(s) && DeathOk(s)
    ensures Kept(s, Callback(cfg, s))
    decreases |s.script|, 0
  {
    hide SocketsOk, DeathOk, Reentry, Connect, Dispose;
    Popped(s);
    if s.script != [] {
      var t := s.(script := s.script[1..]);
      match s.script[0]
      case Return =>
      case CallConnect =>
        ConnectKeeps(cfg, t);
        CallbackKeeps(cfg, Connect(cfg, t));
        KeptByCall(s, t, Connect(cfg, t), Callback(cfg, Connect(cfg, t)));
      case CallDispose =>
        DisposeKeeps(cfg, t);
        CallbackKeeps(cfg, Dispose(cfg, t));
        KeptByCall(s, t, Dispose(cfg, t), Callback(cfg, Dispose(cfg, t)));
    }
  }

  lemma DialKeeps(cfg: Config, s: Client)
    requires SocketsOk(s) && DeathOk(s)
    requires s.holder.websocket.None?
    requires if IsDead(s) then s.disposed && s.state == GONE && !s.history.disposedWhileConnecting else s.state.Connecting?
    ensures SocketsOk(Dial(cfg, s)) && DeathOk(Dial(cfg, s))
  {
  }

  /** The `connecting` notification of a `connect()` past its guards. */
  lemma ConnectShows(s: Client)
    requires SocketsOk(s) && DeathOk(s) && Connectable(s)
    ensures SocketsOk(Assign(s, Connecting)) && DeathOk(Assign(s, Connecting)) && !Connectable(Assign(s, Connecting))
  {
  }

  /** What the notification leaves behind can be dialled from, and the whole is what a consumer may do. */
  lemma ConnectDials(cfg: Config, s: Client, u: Client)
    requires SocketsOk(s) && DeathOk(s) && Connectable(s)
    requires Kept(Assign(s, Connecting), u) && CallbackFrame(Assign(s, Connecting), u)
    ensures Kept(s, Dial(cfg, u))
  {
    DialKeeps(cfg, u);
  }

  lemma ConnectKeeps(cfg: Config, s: Client)
    requires SocketsOk(s) && DeathOk(s)
    ensures Kept(s, Connect(cfg, s))
    decreases |s.script|, 3
  {
    hide Callback, Dial, Kept, SocketsOk, DeathOk;
    if Connectable(s) {
      ConnectShows(s);
      CallbackKeeps(cfg, Assign(s, Connecting));
      ConnectDials(cfg, s, Callback(cfg, Assign(s, Connecting)));
    } else {
      Popped(s);
    }
  }

  /** Dead for good, with an empty holder. */
  ghost predicate Buried(s: Client) {
    SocketsOk(s) && DeathOk(s) && s.holder.websocket.None? && (s.disposed || s.terminalAuthFired)
  }

  /** A buried client does nothing more to its sockets. */
  ghost predicate Rests(s: Client, r: Client) {
    && Buried(r)
    && r.net.constructions == s.net.constructions
    && r.net.live == s.net.live
    && r.history.disposedWhileConnecting == s.history.disposedWhileConnecting
    && (r.state == s.state || r.state == GONE)
  }

  lemma BuriedCallback(cfg: Config, s: Client)
    requires Buried(s)
    ensures Rests(s, Callback(cfg, s))
    decreases |s.script|, 1
  {
    CallbackKeeps(cfg, s);
    var r := Callback(cfg, s);
    assert r.net.live == Orphans(r) == Orphans(s) == s.net.live;
  }

  lemma BuriedLatch(s: Client, w: nat)
    requires Buried(s) && w < s.net.constructions
    ensures Buried(Latch(s, w))
  {
  }

  lemma BuriedAssign(s: Client)
    requires Buried(s)
    ensures Buried(Assign(s, GONE))
  {
  }

  /** Resting until the state is shown, and after it. */
  lemma RestsThrough(a: Client, t: Client, r: Client)
    requires Rests(a, t) && Rests(Assign(t, GONE), r)
    ensures Rests(a, r) && r.state == GONE
  {
  }

  /** Closing the wrapper of a client that is already dead, and showing that it is gone. */
  lemma ShutKeeps(cfg: Config, s: Client, w: Option<nat>)
    requires Buried(s)
    requires w.Some? ==> w.value < s.net.constructions
    ensures var latched := if w.Some? then Latch(s, w.value) else s;
            var r := Shut(cfg, s, w);
            Rests(latched, r) && r.state == GONE
    decreases |s.script|, 2
  {
    var latched := if w.Some? then Latch(s, w.value) else s;
    if w.Some? {
      BuriedLatch(s, w.value);
      BuriedCallback(cfg, latched);
    }
    var t := CloseWrapper(cfg, s, w);
    assert Rests(latched, t);
    if t.state != GONE {
      BuriedAssign(t);
      BuriedCallback(cfg, Assign(t, GONE));
      RestsThrough(latched, t, Callback(cfg, Assign(t, GONE)));
    }
  }

  lemma BuryBuries(s: Client)
    requires SocketsOk(s) && DeathOk(s)
    ensures Buried(Bury(s))
  {
  }

  lemma BuryHolds(s: Client)
    ensures Bury(s).script == s.script && Bury(s).net == s.net
  {
  }

  lemma BuryKeeps(s: Client, r: Client)
    requires SocketsOk(s) && DeathOk(s)
    requires Rests(if s.holder.websocket.Some? then Latch(Bury(s), s.holder.websocket.value) else Bury(s), r) && r.state == GONE
    ensures Kept(s, r)
  {
  }

  lemma DisposeKeeps(cfg: Config, s: Client)
    requires SocketsOk(s) && DeathOk(s)
    ensures Kept(s, Dispose(cfg, s))
    decreases |s.script|, 3
  {
    hide Bury, Shut, Buried, Rests, Reentry;
    if s.disposed {
      Popped(s);
    } else {
      BuryBuries(s);
      BuryHolds(s);
      ShutKeeps(cfg, Bury(s), s.holder.websocket);
      BuryKeeps(s, Dispose(cfg, s));
    }
  }

  // ---------- between two turns of the event loop ----------

  ghost predicate Quiet(s: Client) {
    && SocketsOk(s)
    && DeathOk(s)
    && !s.swapping
    && s.net.live == Held(s)
    && (s.state.Connected? ==> s.holder.currentAttemptOpened)
    && (s.state.Kicked? ==> s.holder.websocket.None?)
    && (IsDead(s) && !s.history.disposedWhileConnecting ==> s.holder.websocket.None? && Final(s.state))
  }

  lemma KeptQuiet(s: Client, r: Client)
    requires Quiet(s) && Kept(s, r) && CallbackFrame(s, r)
    ensures Quiet(r)
  {
    assert Orphans(r) == {};
    assert Held(r) <= r.net.live;
  }

  lemma CallbackQuiet(cfg: Config, s: Client)
    requires Quiet(s)
    ensures Quiet(Callback(cfg, s))
  {
    CallbackKeeps(cfg, s);
    KeptQuiet(s, Callback(cfg, s));
  }

  lemma SetStateQuiet(cfg: Config, s: Client, next: ConnectionState)
    requires Quiet(s) && Quiet(Assign(s, next))
    ensures Quiet(SetState(cfg, s, next))
  {
    CallbackQuiet(cfg, Assign(s, next));
  }

  lemma EntombKeeps(s: Client)
    requires Quiet(s.(terminalFired := false))
    ensures Buried(Entomb(s)) && Entomb(s).net.live == Held(s) && !Entomb(s).swapping
  {
    assert s.(terminalFired := false).net == s.net;
  }

  lemma GoneQuiet(r: Client)
    requires Buried(r) && r.state == GONE && r.net.live == {} && !r.swapping
    ensures Quiet(r)
  {
  }

  lemma AnnounceRests(cfg: Config, s: Client)
    requires Buried(s)
    ensures Rests(s, Announce(cfg, s)) && Announce(cfg, s).swapping == s.swapping
  {
    BuriedCallback(cfg, s);
    var t := Callback(cfg, s);
    BuriedCallback(cfg, t.(history := t.history.(terminalCalls := t.history.terminalCalls + 1)));
  }

  /** From `GiveUp` the manager's own latch is already set. */
  lemma FireTerminalQuiet(cfg: Config, s: Client)
    requires Quiet(s.(terminalFired := false)) && (s.terminalAuthFired ==> Quiet(s))
    ensures Quiet(FireTerminal(cfg, s))
  {
    if !s.terminalAuthFired {
      EntombKeeps(s);
      ShutKeeps(cfg, Entomb(s), s.holder.websocket);
      AnnounceRests(cfg, Shut(cfg, Entomb(s), s.holder.websocket));
      GoneQuiet(FireTerminal(cfg, s));
    }
  }

  lemma GiveUpQuiet(cfg: Config, s: Client)
    requires Quiet(s)
    ensures Quiet(GiveUp(cfg, s))
  {
    if !IsStopped(s) {
      assert s.(terminalFired := true).(terminalFired := false) == s;
      FireTerminalQuiet(cfg, s.(terminalFired := true));
    }
  }
}
