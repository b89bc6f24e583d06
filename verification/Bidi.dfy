/**
 The life of the multiplexers of one side: built when a wrapper is born, retired
 by a dispose that is deferred to a microtask, told of the close by the real
 socket. A task is a sequence of synchronous actions; queued microtasks run
 when it is over and before the next one.
 */
module BidiTeardown {
  import opened Wrappers
  import opened Channels

  datatype Handle = Handle(
    c2s: seq<nat>,               // close listeners of each channel
    s2c: seq<nat>,
    disposeCalled: bool,         // the flag in makeBidiDispose
    muxDisposed: bool,
    // History, read by no operation:
    told: seq<seq<nat>>,         // close fan-outs, and whom they ran
    clears: nat,
    closedIn: Option<nat>,       // task of the first real close event
    calledIn: Option<nat>)       // task of the first dispose()

  datatype Bidi = Bidi(
    handles: map<nat, Handle>,   // by wrapper
    current: Option<nat>,
    microtasks: seq<nat>,        // queued mux.dispose() calls
    task: nat)

  const NEW_BIDI := Bidi(map[], None, [], 0)

  const NEW_HANDLE := Handle([], [], false, false, [], 0, None, None)

  datatype Action =
    | Attach(w: nat)                              // a new wrapper
    | Listen(w: nat, channel: Channel, l: nat)    // a peer adds a close listener
    | RealClose(w: nat)                           // the socket dispatches `close` to the mux
    | DisposeHandle(w: nat)                       // the deferred dispose of one mux
    | DisposeCurrent                              // the client coordinator's dispose()

  function CallDispose(s: Bidi, w: nat): Bidi {
    if w !in s.handles || s.handles[w].disposeCalled then s
    else
      s.(handles := s.handles[w := s.handles[w].(disposeCalled := true, calledIn := Some(s.task))],
         microtasks := s.microtasks + [w])
  }

  function Retire(s: Bidi): Bidi {
    if s.current.None? then s else CallDispose(s, s.current.value).(current := None)
  }

  /** The mux's real listener: both channels, c2s first; gone once the mux is disposed. */
  function FanOutClose(s: Bidi, w: nat): Bidi {
    if w !in s.handles then s
    else
      var h := s.handles[w];
      var t := if h.closedIn.Some? then h else h.(closedIn := Some(s.task));
      s.(handles := s.handles[w := if h.muxDisposed then t else t.(told := t.told + [h.c2s + h.s2c])])
  }

  function AddListener(s: Bidi, w: nat, c: Channel, l: nat): Bidi {
    if w !in s.handles then s
    else
      var h := s.handles[w];
      s.(handles := s.handles[w := if c.C2S? then h.(c2s := h.c2s + [l]) else h.(s2c := h.s2c + [l])])
  }

  function Act(s: Bidi, a: Action): Bidi {
    match a
    case Attach(w) => if w in s.handles then s else Retire(s).(current := Some(w), handles := Retire(s).handles[w := NEW_HANDLE])
    case Listen(w, c, l) => AddListener(s, w, c, l)
    case RealClose(w) => FanOutClose(s, w)
    case DisposeHandle(w) => CallDispose(s, w)
    case DisposeCurrent => Retire(s)
  }

  function ActAll(s: Bidi, actions: seq<Action>): Bidi {
    if actions == [] then s
    else Act(ActAll(s, actions[..|actions| - 1]), actions[|actions| - 1])
  }

  /** `SocketMultiplexer.dispose()`. */
  function Disposed(h: Handle): Handle {
    if h.muxDisposed then h else h.(muxDisposed := true, c2s := [], s2c := [], clears := h.clears + 1)
  }

  function DisposeMux(s: Bidi, w: nat): Bidi {
    if w !in s.handles then s else s.(handles := s.handles[w := Disposed(s.handles[w])])
  }

  function Drain(s: Bidi): Bidi
    decreases |s.microtasks|
  {
    if s.microtasks == [] then s
    else Drain(DisposeMux(s, s.microtasks[0]).(microtasks := s.microtasks[1..]))
  }

  function RunTask(s: Bidi, actions: seq<Action>): Bidi {
    var t := Drain(ActAll(s, actions));
    t.(task := t.task + 1)
  }

  function Run(tasks: seq<seq<Action>>): Bidi {
    if tasks == [] then NEW_BIDI
    else RunTask(Run(tasks[..|tasks| - 1]), tasks[|tasks| - 1])
  }

  // ---------- close before dispose ----------

  /** The close reached the peers unless the dispose was called in an earlier task. */
  predicate InTime(h: Handle) {
    h.closedIn.Some? && (h.calledIn.Some? ==> h.closedIn.value <= h.calledIn.value)
  }

  ghost predicate HandleOk(h: Handle, task: nat) {
    && (h.disposeCalled <==> h.calledIn.Some?)
    && (h.calledIn.Some? ==> h.calledIn.value <= task)
    && (h.closedIn.Some? ==> h.closedIn.value <= task)
    && h.clears == (if h.muxDisposed then 1 else 0)
    && (h.told != [] <==> InTime(h))
  }

  /** Inside a task: what was called before it is done, what was called in it is queued. */
  ghost predicate Within(s: Bidi) {
    && (forall w :: w in s.handles ==>
          && HandleOk(s.handles[w], s.task)
          && (s.handles[w].muxDisposed <==> s.handles[w].calledIn.Some? && s.handles[w].calledIn.value < s.task)
          && (w in s.microtasks <==> s.handles[w].calledIn == Some(s.task)))
    && (forall w :: w in s.microtasks ==> w in s.handles)
    && (s.current.Some? ==> s.current.value in s.handles)
  }

  lemma CallKeeps(s: Bidi, w: nat)
    requires Within(s)
    ensures Within(CallDispose(s, w))
  {
  }

  lemma RetireKeeps(s: Bidi)
    requires Within(s)
    ensures Within(Retire(s)) && Retire(s).handles.Keys == s.handles.Keys
  {
    if s.current.Some? {
      CallKeeps(s, s.current.value);
    }
  }

  lemma AttachKeeps(s: Bidi, w: nat)
    requires Within(s) && w !in s.handles
    ensures Within(s.(current := Some(w), handles := s.handles[w := NEW_HANDLE]))
  {
  }

  lemma CloseKeeps(s: Bidi, w: nat)
    requires Within(s)
    ensures Within(FanOutClose(s, w))
  {
  }

  lemma ListenKeeps(s: Bidi, w: nat, c: Channel, l: nat)
    requires Within(s)
    ensures Within(AddListener(s, w, c, l))
  {
  }

  lemma {:induction false} ActAllKeeps(s: Bidi, actions: seq<Action>)
    requires Within(s)
    ensures Within(ActAll(s, actions)) && ActAll(s, actions).task == s.task
  {
    if actions != [] {
      var t := ActAll(s, actions[..|actions| - 1]);
      ActAllKeeps(s, actions[..|actions| - 1]);
      match actions[|actions| - 1]
      case Attach(w) =>
        RetireKeeps(t);
        if w !in t.handles {
          AttachKeeps(Retire(t), w);
        }
      case Listen(w, c, l) => ListenKeeps(t, w, c, l);
      case RealClose(w) => CloseKeeps(t, w);
      case DisposeHandle(w) => CallKeeps(t, w);
      case DisposeCurrent => RetireKeeps(t);
    }
  }

  /** The microtask checkpoint disposes of what was queued and touches nothing else. */
  lemma {:induction false} DrainDisposes(s: Bidi)
    ensures var t := Drain(s);
            && t.microtasks == [] && t.current == s.current && t.task == s.task
            && t.handles.Keys == s.handles.Keys
            && forall w :: w in s.handles ==>
                 t.handles[w] == if w in s.microtasks then Disposed(s.handles[w]) else s.handles[w]
    decreases |s.microtasks|
  {
    if s.microtasks != [] {
      DrainDisposes(DisposeMux(s, s.microtasks[0]).(microtasks := s.microtasks[1..]));
      assert s.microtasks == [s.microtasks[0]] + s.microtasks[1..];
    }
  }

  lemma TaskKeeps(s: Bidi, actions: seq<Action>)
    requires Within(s) && s.microtasks == []
    ensures Within(RunTask(s, actions)) && RunTask(s, actions).microtasks == []
  {
    ActAllKeeps(s, actions);
    var t := ActAll(s, actions);
    DrainDisposes(t);
    var r := RunTask(s, actions);
    forall w | w in r.handles
      ensures HandleOk(r.handles[w], r.task)
      ensures r.handles[w].muxDisposed <==> r.handles[w].calledIn.Some? && r.handles[w].calledIn.value < r.task
    {
      assert HandleOk(t.handles[w], t.task);
    }
  }

  lemma {:induction false} RunKeeps(tasks: seq<seq<Action>>)
    ensures Within(Run(tasks)) && Run(tasks).microtasks == []
  {
    if tasks != [] {
      RunKeeps(tasks[..|tasks| - 1]);
      TaskKeeps(Run(tasks[..|tasks| - 1]), tasks[|tasks| - 1]);
    }
  }

  // ---------- whom the close reached ----------

  /** The close listeners a mux had been given by its first close event, read off the actions alone. */
  datatype Roster = Roster(c2s: seq<nat>, s2c: seq<nat>, closed: bool)

  function Enrol(r: Option<Roster>, w: nat, a: Action): Option<Roster> {
    match a
    case Attach(x) => if x == w && r.None? then Some(Roster([], [], false)) else r
    case Listen(x, c, l) =>
      if x != w || r.None? || r.value.closed then r
      else if c.C2S? then Some(r.value.(c2s := r.value.c2s + [l])) else Some(r.value.(s2c := r.value.s2c + [l]))
    case RealClose(x) => if x != w || r.None? then r else Some(r.value.(closed := true))
    case _ => r
  }

  function EnrolAll(r: Option<Roster>, w: nat, actions: seq<Action>): Option<Roster> {
    if actions == [] then r else Enrol(EnrolAll(r, w, actions[..|actions| - 1]), w, actions[|actions| - 1])
  }

  function RosterOf(tasks: seq<seq<Action>>, w: nat): Option<Roster> {
    if tasks == [] then None else EnrolAll(RosterOf(tasks[..|tasks| - 1], w), w, tasks[|tasks| - 1])
  }

  /** A handle keeps to its roster until it is closed or disposed, and the first fan-out reached all of it. */
  ghost predicate Rostered(h: Handle, r: Roster) {
    && (r.closed <==> h.closedIn.Some?)
    && (!r.closed && !h.muxDisposed ==> h.c2s == r.c2s && h.s2c == r.s2c)
    && (h.told != [] ==> r.closed && h.told[0] == r.c2s + r.s2c)
    && (r.closed && !h.muxDisposed ==> h.told != [])
  }

  ghost predicate RosteredAt(s: Bidi, w: nat, r: Option<Roster>) {
    && (w in s.handles <==> r.Some?)
    && (w in s.handles ==> Rostered(s.handles[w], r.value))
  }

  lemma CallRosters(s: Bidi, x: nat, w: nat, r: Option<Roster>)
    requires RosteredAt(s, w, r)
    ensures RosteredAt(CallDispose(s, x), w, r) && RosteredAt(Retire(s), w, r)
  {
  }

  lemma ActRosters(s: Bidi, a: Action, w: nat, r: Option<Roster>)
    requires RosteredAt(s, w, r)
    ensures RosteredAt(Act(s, a), w, Enrol(r, w, a))
  {
    match a
    case Attach(x) => CallRosters(s, x, w, r);
    case Listen(x, c, l) =>
    case RealClose(x) =>
    case DisposeHandle(x) => CallRosters(s, x, w, r);
    case DisposeCurrent => CallRosters(s, w, w, r);
  }

  lemma {:induction false} ActAllRosters(s: Bidi, actions: seq<Action>, w: nat, r: Option<Roster>)
    requires RosteredAt(s, w, r)
    ensures RosteredAt(ActAll(s, actions), w, EnrolAll(r, w, actions))
  {
    if actions != [] {
      var n := |actions| - 1;
      ActAllRosters(s, actions[..n], w, r);
      ActRosters(ActAll(s, actions[..n]), actions[n], w, EnrolAll(r, w, actions[..n]));
    }
  }

  lemma {:induction false} RunRosters(tasks: seq<seq<Action>>, w: nat)
    ensures RosteredAt(Run(tasks), w, RosterOf(tasks, w))
  {
    if tasks != [] {
      var n := |tasks| - 1;
      RunRosters(tasks[..n], w);
      ActAllRosters(Run(tasks[..n]), tasks[n], w, RosterOf(tasks[..n], w));
      DrainDisposes(ActAll(Run(tasks[..n]), tasks[n]));
    }
  }

  /**
   Close before dispose. In every run, between tasks: a mux is disposed iff its
   dispose was called, its registries were cleared once if so and never
   otherwise; and its peers were told of the close exactly when the real socket
   dispatched one no later than in the task of the first dispose call, wherever
   in it the call came. Then every close listener that either channel had been
   given by that moment ran, those of c2s first.
   */
  lemma CloseBeforeDispose(tasks: seq<seq<Action>>, w: nat)
    requires w in Run(tasks).handles
    ensures var h := Run(tasks).handles[w];
            && (h.muxDisposed <==> h.calledIn.Some?)
            && h.clears == (if h.calledIn.Some? then 1 else 0)
            && (h.told != [] <==> InTime(h))
            && RosterOf(tasks, w).Some?
            && (InTime(h) ==> h.told[0] == RosterOf(tasks, w).value.c2s + RosterOf(tasks, w).value.s2c)
  {
    RunKeeps(tasks);
    RunRosters(tasks, w);
    assert HandleOk(Run(tasks).handles[w], Run(tasks).task);
    assert w !in Run(tasks).microtasks;
  }

  /**
   The order of the two real close listeners, the mux's and the one that
   disposes, makes no difference, whatever else the task does before and after.
   */
  lemma EitherListenerOrder(tasks: seq<seq<Action>>, before: seq<Action>, w: nat, after: seq<Action>)
    ensures Run(tasks + [before + [RealClose(w), DisposeHandle(w)] + after])
         == Run(tasks + [before + [DisposeHandle(w), RealClose(w)] + after])
  {
    var s := ActAll(Run(tasks), before);
    var a, b := [RealClose(w), DisposeHandle(w)], [DisposeHandle(w), RealClose(w)];
    RunSnoc(tasks, before + a + after);
    RunSnoc(tasks, before + b + after);
    ThreeParts(Run(tasks), before, a, after);
    ThreeParts(Run(tasks), before, b, after);
    TwoActions(s, a[0], a[1]);
    TwoActions(s, b[0], b[1]);
    Commute(s, w);
  }

  lemma RunSnoc(tasks: seq<seq<Action>>, actions: seq<Action>)
    ensures Run(tasks + [actions]) == RunTask(Run(tasks), actions)
  {
    assert (tasks + [actions])[..|tasks|] == tasks;
  }

  lemma ThreeParts(s: Bidi, a: seq<Action>, b: seq<Action>, c: seq<Action>)
    ensures ActAll(s, a + b + c) == ActAll(ActAll(ActAll(s, a), b), c)
  {
    ActAppends(s, a + b, c);
    ActAppends(s, a, b);
  }

  lemma {:induction false} ActAppends(s: Bidi, a: seq<Action>, b: seq<Action>)
    ensures ActAll(s, a + b) == ActAll(ActAll(s, a), b)
  {
    if b == [] {
      assert a + b == a;
    } else {
      assert (a + b)[..|a + b| - 1] == a + b[..|b| - 1];
      ActAppends(s, a, b[..|b| - 1]);
    }
  }

  lemma Commute(s: Bidi, w: nat)
    ensures CallDispose(FanOutClose(s, w), w) == FanOutClose(CallDispose(s, w), w)
  {
    if w in s.handles && !s.handles[w].disposeCalled {
      var x, y := CallDispose(FanOutClose(s, w), w), FanOutClose(CallDispose(s, w), w);
      assert x.handles[w] == y.handles[w];
      assert x.handles == y.handles;
    }
  }

  lemma TwoActions(s: Bidi, x: Action, y: Action)
    ensures ActAll(s, [x, y]) == Act(Act(s, x), y)
  {
    assert [x, y][..1] == [x] && [x][..0] == [];
    assert ActAll(s, [x]) == Act(s, x);
  }

  // ---------- the client coordinator ----------

  /** Every mux but the current one has been disposed of by the coordinator. */
  ghost predicate RolledOver(s: Bidi) {
    forall w :: w in s.handles && s.current != Some(w) ==> s.handles[w].disposeCalled
  }

  lemma RetireRollsOver(s: Bidi)
    requires RolledOver(s)
    ensures RolledOver(Retire(s)) && Retire(s).current.None?
  {
  }

  lemma ActRollsOver(s: Bidi, a: Action)
    requires RolledOver(s)
    ensures RolledOver(Act(s, a))
  {
    RetireRollsOver(s);
    match a
    case Attach(w) =>
    case Listen(w, c, l) =>
    case RealClose(w) =>
    case DisposeHandle(w) =>
    case DisposeCurrent =>
  }

  lemma {:induction false} ActsRollOver(s: Bidi, actions: seq<Action>)
    requires RolledOver(s)
    ensures RolledOver(ActAll(s, actions))
  {
    if actions != [] {
      ActsRollOver(s, actions[..|actions| - 1]);
      ActRollsOver(ActAll(s, actions[..|actions| - 1]), actions[|actions| - 1]);
    }
  }

  /**
   One live mux at a time: between tasks every mux is disposed of except the one
   whose c2s facade the link is given; each attach leaves exactly the new one.
   */
  lemma {:induction false} OneLiveMux(tasks: seq<seq<Action>>)
    ensures var s := Run(tasks);
            && (forall w :: w in s.handles && !s.handles[w].muxDisposed ==> s.current == Some(w))
            && RolledOver(s)
  {
    if tasks != [] {
      var s := Run(tasks[..|tasks| - 1]);
      OneLiveMux(tasks[..|tasks| - 1]);
      RunKeeps(tasks[..|tasks| - 1]);
      ActsRollOver(s, tasks[|tasks| - 1]);
      ActAllKeeps(s, tasks[|tasks| - 1]);
      DrainDisposes(ActAll(s, tasks[|tasks| - 1]));
    }
    RunKeeps(tasks);
  }

  /** The run of a client: only the coordinator disposes. */
  predicate ByCoordinator(tasks: seq<seq<Action>>) {
    forall t, a :: t in tasks && a in t ==> !a.DisposeHandle?
  }

  ghost predicate CurrentLive(s: Bidi) {
    s.current.Some? ==> s.current.value in s.handles && !s.handles[s.current.value].disposeCalled
  }

  lemma {:induction false} ActsKeepCurrent(s: Bidi, actions: seq<Action>)
    requires CurrentLive(s) && forall a :: a in actions ==> !a.DisposeHandle?
    ensures CurrentLive(ActAll(s, actions))
  {
    if actions != [] {
      ActsKeepCurrent(s, actions[..|actions| - 1]);
    }
  }

  /** ... and then the facade the link is given is that of a live mux. */
  lemma {:induction false} CurrentMuxIsLive(tasks: seq<seq<Action>>)
    requires ByCoordinator(tasks)
    ensures var s := Run(tasks);
            CurrentLive(s) && (s.current.Some? ==> !s.handles[s.current.value].muxDisposed)
  {
    if tasks != [] {
      CurrentMuxIsLive(tasks[..|tasks| - 1]);
      ActsKeepCurrent(Run(tasks[..|tasks| - 1]), tasks[|tasks| - 1]);
      DrainDisposes(ActAll(Run(tasks[..|tasks| - 1]), tasks[|tasks| - 1]));
    }
    RunKeeps(tasks);
  }

  // ---------- what was asked for, read off the actions ----------

  /** Which wrappers there are, which of them is current, and which muxes somebody asked to dispose of. */
  datatype Book = Book(known: set<nat>, current: Option<nat>, asked: set<nat>)

  function Outgoing(b: Book): set<nat> {
    if b.current.Some? then {b.current.value} else {}
  }

  /** A new wrapper takes the place of the current one; the coordinator's own dispose leaves the place empty. */
  function Enter(b: Book, a: Action): Book {
    match a
    case Attach(w) => if w in b.known then b else Book(b.known + {w}, Some(w), b.asked + Outgoing(b))
    case DisposeCurrent => Book(b.known, None, b.asked + Outgoing(b))
    case DisposeHandle(w) => if w in b.known then b.(asked := b.asked + {w}) else b
    case _ => b
  }

  function EnterAll(b: Book, actions: seq<Action>): Book {
    if actions == [] then b else Enter(EnterAll(b, actions[..|actions| - 1]), actions[|actions| - 1])
  }

  function BookOf(tasks: seq<seq<Action>>): Book {
    if tasks == [] then Book({}, None, {}) else EnterAll(BookOf(tasks[..|tasks| - 1]), tasks[|tasks| - 1])
  }

  ghost predicate Booked(s: Bidi, b: Book) {
    && s.handles.Keys == b.known
    && s.current == b.current
    && (b.current.Some? ==> b.current.value in b.known)
    && (forall w :: w in s.handles ==> (s.handles[w].disposeCalled <==> w in b.asked))
    && b.asked <= b.known
  }

  lemma RetireBooks(s: Bidi, b: Book)
    requires Booked(s, b)
    ensures Booked(Retire(s), Book(b.known, None, b.asked + Outgoing(b)))
  {
  }

  lemma ActBooks(s: Bidi, b: Book, a: Action)
    requires Booked(s, b)
    ensures Booked(Act(s, a), Enter(b, a))
  {
    RetireBooks(s, b);
    match a
    case Attach(w) =>
    case Listen(w, c, l) =>
    case RealClose(w) =>
    case DisposeHandle(w) =>
    case DisposeCurrent =>
  }

  lemma {:induction false} ActAllBooks(s: Bidi, b: Book, actions: seq<Action>)
    requires Booked(s, b)
    ensures Booked(ActAll(s, actions), EnterAll(b, actions))
  {
    if actions != [] {
      var n := |actions| - 1;
      ActAllBooks(s, b, actions[..n]);
      ActBooks(ActAll(s, actions[..n]), EnterAll(b, actions[..n]), actions[n]);
    }
  }

  lemma {:induction false} RunBooks(tasks: seq<seq<Action>>)
    ensures Booked(Run(tasks), BookOf(tasks))
  {
    if tasks != [] {
      var n := |tasks| - 1;
      RunBooks(tasks[..n]);
      ActAllBooks(Run(tasks[..n]), BookOf(tasks[..n]), tasks[n]);
      DrainDisposes(ActAll(Run(tasks[..n]), tasks[n]));
    }
  }

  /**
   Between tasks exactly those muxes are disposed of that somebody asked for:
   by their own dispose, by the coordinator's while they were current, or by a
   new wrapper that took their place; and the link is given the facade of the
   wrapper attached last, if the coordinator has not disposed since.
   */
  lemma DisposedAsAsked(tasks: seq<seq<Action>>)
    ensures var s, b := Run(tasks), BookOf(tasks);
            && s.handles.Keys == b.known && s.current == b.current
            && forall w :: w in s.handles ==> (s.handles[w].muxDisposed <==> w in b.asked)
  {
    RunBooks(tasks);
    RunKeeps(tasks);
    var s := Run(tasks);
    forall w | w in s.handles ensures s.handles[w].muxDisposed <==> w in BookOf(tasks).asked {
      assert HandleOk(s.handles[w], s.task);
      assert w !in s.microtasks;
    }
  }

  // ---------- the coordinator itself ----------

  class ClientBidi {
    var handles: map<nat, Handle>
    var current: Option<nat>
    var microtasks: seq<nat>
    var task: nat

    ghost function Value(): Bidi
      reads this
    {
      Bidi(handles, current, microtasks, task)
    }

    constructor ()
      ensures Value() == NEW_BIDI
    {
      handles, current, microtasks, task := map[], None, [], 0;
    }

    /** The closure of `makeBidiDispose`. */
    method DisposeHandle(w: nat)
      modifies this
      ensures Value() == CallDispose(old(Value()), w)
    {
      if w !in handles || handles[w].disposeCalled {
        return;
      }
      handles := handles[w := handles[w].(disposeCalled := true, calledIn := Some(task))];
      microtasks := microtasks + [w];
    }

    method DisposeCurrent()
      modifies this
      ensures Value() == Retire(old(Value()))
    {
      if current.Some? {
        DisposeHandle(current.value);
        current := None;
      }
    }

    method Attach(w: nat)
      modifies this
      ensures Value() == Act(old(Value()), Action.Attach(w))
    {
      if w in handles {
        return;
      }
      DisposeCurrent();
      handles := handles[w := NEW_HANDLE];
      current := Some(w);
    }

    method DispatchClose(w: nat)
      modifies this
      ensures Value() == FanOutClose(old(Value()), w)
    {
      if w !in handles {
        return;
      }
      var h := handles[w];
      var t := if h.closedIn.Some? then h else h.(closedIn := Some(task));
      handles := handles[w := if h.muxDisposed then t else t.(told := t.told + [h.c2s + h.s2c])];
    }

    method AddCloseListener(w: nat, c: Channel, l: nat)
      modifies this
      ensures Value() == AddListener(old(Value()), w, c, l)
    {
      if w in handles {
        var h := handles[w];
        handles := handles[w := if c.C2S? then h.(c2s := h.c2s + [l]) else h.(s2c := h.s2c + [l])];
      }
    }

    method Perform(a: Action)
      modifies this
      ensures Value() == Act(old(Value()), a)
    {
      match a {
        case Attach(w) => Attach(w);
        case Listen(w, c, l) => AddCloseListener(w, c, l);
        case RealClose(w) => DispatchClose(w);
        case DisposeHandle(w) => DisposeHandle(w);
        case DisposeCurrent => DisposeCurrent();
      }
    }

    /** The checkpoint at the end of a task. */
    method RunMicrotasks()
      modifies this
      ensures Value() == Drain(old(Value()))
    {
      while microtasks != []
        invariant Drain(Value()) == Drain(old(Value()))
        decreases |microtasks|
      {
        var w := microtasks[0];
        if w in handles {
          handles := handles[w := Disposed(handles[w])];
        }
        microtasks := microtasks[1..];
      }
    }

    method OneTask(actions: seq<Action>)
      modifies this
      ensures Value() == RunTask(old(Value()), actions)
    {
      for i := 0 to |actions|
        invariant Value() == ActAll(old(Value()), actions[..i])
      {
        assert actions[..i + 1][..i] == actions[..i];
        Perform(actions[i]);
      }
      assert actions[..|actions|] == actions;
      RunMicrotasks();
      task := task + 1;
    }
  }
}
