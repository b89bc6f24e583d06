/**
 The heartbeat watchdog: a deadline window, the time of the last ping, and a
 periodic poll that fires once per missed window.
 */
module HeartbeatMonitors {
  import opened Wrappers

  /** A firing of the timeout callback, and what the watchdog knew at that moment. */
  datatype Firing = Firing(at: int, lastPingAt: int, intervalMs: int, timeoutMs: int, armedAt: int)

  /** The interval timer: when `start()` armed it, and when it ticks next. */
  datatype Poll = Poll(armedAt: int, nextTick: int)

  datatype Monitor = Monitor(
    now: int,                      // clock.now()
    intervalMs: Option<int>,
    timeoutMs: Option<int>,
    lastPingAt: int,
    pollTimer: Option<Poll>,
    timeoutFired: bool,
    firings: seq<Firing>)          // history

  datatype Event =
    | Elapse(ms: nat)
    | Tick
    | Configure(intervalMs: int, timeoutMs: int)
    | Start
    | Stop
    | Ping

  function NewMonitor(now: int): Monitor {
    Monitor(now, None, None, now, None, false, [])
  }

  predicate Configured(m: Monitor) {
    m.intervalMs.Some? && m.timeoutMs.Some?
  }

  /** The interval timer is armed and due; timers run late, never early. */
  predicate TickDue(m: Monitor) {
    m.pollTimer.Some? && m.pollTimer.value.nextTick <= m.now
  }

  function PollOnce(m: Monitor): Monitor {
    if !Configured(m) || m.timeoutFired || m.now - m.lastPingAt <= m.intervalMs.value + m.timeoutMs.value then m
    else
      var armedAt := if m.pollTimer.Some? then m.pollTimer.value.armedAt else m.now;
      m.(timeoutFired := true,
         firings := m.firings + [Firing(m.now, m.lastPingAt, m.intervalMs.value, m.timeoutMs.value, armedAt)])
  }

  function Step(period: nat, m: Monitor, e: Event): Monitor {
    match e
    case Elapse(ms) => m.(now := m.now + ms)
    case Tick =>
      if !TickDue(m) then m
      else PollOnce(m.(pollTimer := Some(m.pollTimer.value.(nextTick := m.now + period))))
    case Configure(i, t) => m.(intervalMs := Some(i), timeoutMs := Some(t), lastPingAt := m.now, timeoutFired := false)
    case Start => m.(pollTimer := if Configured(m) then Some(Poll(m.now, m.now + period)) else None)
    case Stop => m.(pollTimer := None)
    case Ping => m.(lastPingAt := m.now, timeoutFired := false)
  }

  function RunFrom(period: nat, m: Monitor, events: seq<Event>): Monitor {
    if events == [] then m
    else Step(period, RunFrom(period, m, events[..|events| - 1]), events[|events| - 1])
  }

  /** No time passes beyond a tick that is due: the environment serves timers at once. */
  ghost predicate Punctual(period: nat, m: Monitor, events: seq<Event>) {
    forall k :: 0 <= k <= |events| ==> var s := RunFrom(period, m, events[..k]);
                                       s.pollTimer.Some? ==> s.now <= s.pollTimer.value.nextTick
  }

  /** Neither a ping nor a new configuration. */
  predicate Silent(events: seq<Event>) {
    forall e :: e in events ==> !e.Ping? && !e.Configure?
  }

  function Max(a: int, b: int): int {
    if a < b then b else a
  }

  /** When a window that began with a ping at `p` must have been noticed. */
  function NoticedBy(p: int, intervalMs: int, timeoutMs: int, armedAt: int, period: nat): int {
    Max(p + Max(intervalMs + timeoutMs, 0), armedAt) + period
  }

  /** The last firing was about the window that is open now. */
  ghost predicate Noticed(m: Monitor) {
    && m.firings != []
    && m.firings[|m.firings| - 1].lastPingAt == m.lastPingAt
    && Some(m.firings[|m.firings| - 1].intervalMs) == m.intervalMs
    && Some(m.firings[|m.firings| - 1].timeoutMs) == m.timeoutMs
  }

  ghost predicate NeverEarly(m: Monitor) {
    forall f :: f in m.firings ==> f.at - f.lastPingAt > f.intervalMs + f.timeoutMs
  }

  ghost predicate Watching(period: nat, m: Monitor) {
    && (m.timeoutFired ==> Noticed(m))
    && (forall f :: f in m.firings ==> f.at <= NoticedBy(f.lastPingAt, f.intervalMs, f.timeoutMs, f.armedAt, period))
    && (m.pollTimer.Some? ==>
          && m.pollTimer.value.armedAt <= m.now
          && m.pollTimer.value.nextTick <= m.now + period
          && (!m.timeoutFired && Configured(m) ==>
                m.pollTimer.value.nextTick <=
                  NoticedBy(m.lastPingAt, m.intervalMs.value, m.timeoutMs.value, m.pollTimer.value.armedAt, period)))
  }

  lemma StepWatches(period: nat, m: Monitor, e: Event)
    requires Watching(period, m)
    requires m.pollTimer.Some? ==> m.now <= m.pollTimer.value.nextTick
    ensures Watching(period, Step(period, m, e))
  {
  }

  lemma {:induction false} PunctualRunWatches(period: nat, start: int, events: seq<Event>)
    requires Punctual(period, NewMonitor(start), events)
    ensures Watching(period, RunFrom(period, NewMonitor(start), events))
  {
    if events != [] {
      var init := events[..|events| - 1];
      assert forall k :: 0 <= k <= |init| ==> events[..k] == init[..k];
      PunctualRunWatches(period, start, init);
      var s := RunFrom(period, NewMonitor(start), init);
      assert events[..|init|] == init;
      StepWatches(period, s, events[|events| - 1]);
    }
  }

  /**
   The upper bound. In every run whose timers are served on time, while polling
   is armed and the window opened by the last ping has not been noticed as
   missed, that ping is at most a window and a poll period old; and whenever
   the watchdog fired, it fired no later than that.
   */
  lemma FiresInTime(period: nat, start: int, events: seq<Event>)
    requires Punctual(period, NewMonitor(start), events)
    ensures var m := RunFrom(period, NewMonitor(start), events);
            && (m.pollTimer.Some? && Configured(m) && !Noticed(m) ==>
                  m.now <= Max(m.lastPingAt + Max(m.intervalMs.value + m.timeoutMs.value, 0), m.pollTimer.value.armedAt) + period)
            && forall f :: f in m.firings ==>
                 f.at <= Max(f.lastPingAt + Max(f.intervalMs + f.timeoutMs, 0), f.armedAt) + period
  {
    hide Watching, Punctual, RunFrom;
    PunctualRunWatches(period, start, events);
    PunctualNow(period, NewMonitor(start), events);
    WatchedInTime(period, RunFrom(period, NewMonitor(start), events));
  }

  lemma PunctualNow(period: nat, m: Monitor, events: seq<Event>)
    requires Punctual(period, m, events)
    ensures var s := RunFrom(period, m, events);
            s.pollTimer.Some? ==> s.now <= s.pollTimer.value.nextTick
  {
    assert events[..|events|] == events;
  }

  lemma WatchedInTime(period: nat, m: Monitor)
    requires Watching(period, m) && (m.pollTimer.Some? ==> m.now <= m.pollTimer.value.nextTick)
    ensures m.pollTimer.Some? && Configured(m) && !Noticed(m) ==>
              m.now <= Max(m.lastPingAt + Max(m.intervalMs.value + m.timeoutMs.value, 0), m.pollTimer.value.armedAt) + period
    ensures forall f :: f in m.firings ==> f.at <= Max(f.lastPingAt + Max(f.intervalMs + f.timeoutMs, 0), f.armedAt) + period
  {
  }

  /** The lower bound, in every run: nothing fires before the window is over. */
  lemma {:induction false} FiresAfterDeadline(period: nat, m: Monitor, events: seq<Event>)
    requires NeverEarly(m)
    ensures NeverEarly(RunFrom(period, m, events))
  {
    if events != [] {
      FiresAfterDeadline(period, m, events[..|events| - 1]);
    }
  }

  /** The latch: between two firings there is a ping or a new configuration. */
  lemma {:induction false} FiresOncePerWindow(period: nat, m: Monitor, events: seq<Event>)
    requires Silent(events)
    ensures var r := RunFrom(period, m, events);
            && (m.timeoutFired ==> r.timeoutFired)
            && |r.firings| == |m.firings| + (if r.timeoutFired && !m.timeoutFired then 1 else 0)
  {
    if events != [] {
      FiresOncePerWindow(period, m, events[..|events| - 1]);
    }
  }

  // ---------- exactly when it fires, read off the events ----------

  /** What the clock says after `events`. */
  function Clock(start: int, events: seq<Event>): int {
    if events == [] then start
    else
      var last := events[|events| - 1];
      Clock(start, events[..|events| - 1]) + if last.Elapse? then last.ms else 0
  }

  /** The interval and the timeout of the last configuration. */
  function Window(events: seq<Event>): Option<(int, int)> {
    if events == [] then None
    else
      var last := events[|events| - 1];
      if last.Configure? then Some((last.intervalMs, last.timeoutMs)) else Window(events[..|events| - 1])
  }

  /** When the server was last heard of: a ping, a configuration, or the beginning. */
  function HeardAt(start: int, events: seq<Event>): int {
    if events == [] then start
    else
      var last := events[|events| - 1];
      if last.Ping? || last.Configure? then Clock(start, events[..|events| - 1]) else HeardAt(start, events[..|events| - 1])
  }

  /** Polling was started after a configuration, and not stopped since. */
  predicate Polling(events: seq<Event>) {
    events != [] &&
    var n := |events| - 1;
    match events[n]
    case Start => Window(events[..n]).Some?
    case Stop => false
    case _ => Polling(events[..n])
  }

  lemma {:induction false} RunKnows(period: nat, start: int, events: seq<Event>)
    ensures var m := RunFrom(period, NewMonitor(start), events);
            && m.now == Clock(start, events) && m.lastPingAt == HeardAt(start, events)
            && (m.pollTimer.Some? <==> Polling(events))
            && (match Window(events)
                case Some((i, t)) => m.intervalMs == Some(i) && m.timeoutMs == Some(t)
                case None => m.intervalMs.None? && m.timeoutMs.None?)
  {
    if events != [] {
      RunKnows(period, start, events[..|events| - 1]);
    }
  }

  /** The poll ticks, its last firing does not stand, and the server has been silent for more than interval and timeout. */
  predicate Fires(start: int, m: Monitor, events: seq<Event>, e: Event) {
    && e.Tick? && Polling(events) && m.pollTimer.Some? && m.pollTimer.value.nextTick <= Clock(start, events)
    && !m.timeoutFired
    && match Window(events)
       case Some((intervalMs, timeoutMs)) => Clock(start, events) - HeardAt(start, events) > intervalMs + timeoutMs
       case None => false
  }

  /**
   The watchdog fires, in any run, exactly when a due poll finds that the last
   ping or configuration is older than the configured interval and timeout
   together, and has not fired since. A firing stands until the next of those.
   */
  lemma FiresIff(period: nat, start: int, events: seq<Event>, e: Event)
    ensures var m, r := RunFrom(period, NewMonitor(start), events), RunFrom(period, NewMonitor(start), events + [e]);
            && (if Fires(start, m, events, e)
                then r.firings == m.firings + [Firing(Clock(start, events), HeardAt(start, events), Window(events).value.0,
                                                      Window(events).value.1, m.pollTimer.value.armedAt)]
                else r.firings == m.firings)
            && (r.timeoutFired <==> Fires(start, m, events, e) || (m.timeoutFired && !e.Ping? && !e.Configure?))
            && (e.Start? && Window(events).Some? ==> r.pollTimer == Some(Poll(Clock(start, events), Clock(start, events) + period)))
  {
    assert (events + [e])[..|events|] == events;
    RunKnows(period, start, events);
  }

  class HeartbeatMonitor {
    const pollIntervalMs: nat
    var now: int
    var intervalMs: Option<int>
    var timeoutMs: Option<int>
    var lastPingAt: int
    var pollTimer: Option<Poll>
    var timeoutFired: bool
    var firings: seq<Firing>

    ghost function Value(): Monitor
      reads this
    {
      Monitor(now, intervalMs, timeoutMs, lastPingAt, pollTimer, timeoutFired, firings)
    }

    constructor (pollIntervalMs: nat, now: int)
      ensures Value() == NewMonitor(now) && this.pollIntervalMs == pollIntervalMs
    {
      this.pollIntervalMs, this.now, this.lastPingAt := pollIntervalMs, now, now;
      intervalMs, timeoutMs, pollTimer, timeoutFired, firings := None, None, None, false, [];
    }

    method Pass(ms: nat)
      modifies this
      ensures Value() == Step(pollIntervalMs, old(Value()), Elapse(ms))
    {
      now := now + ms;
    }

    /** Config and first baseline arrive together; polling is separate. */
    method SetWindow(intervalMs: int, timeoutMs: int)
      modifies this
      ensures Value() == Step(pollIntervalMs, old(Value()), Configure(intervalMs, timeoutMs))
    {
      this.intervalMs, this.timeoutMs := Some(intervalMs), Some(timeoutMs);
      lastPingAt, timeoutFired := now, false;
    }

    /** Restarts the poll and leaves the baseline alone. */
    method StartPolling()
      modifies this
      ensures Value() == Step(pollIntervalMs, old(Value()), Start)
    {
      pollTimer := None;
      if intervalMs.None? || timeoutMs.None? {
        return;
      }
      pollTimer := Some(Poll(now, now + pollIntervalMs));
    }

    method StopPolling()
      modifies this
      ensures Value() == Step(pollIntervalMs, old(Value()), Stop)
    {
      if pollTimer.Some? {
        pollTimer := None;
      }
    }

    method RecordPing()
      modifies this
      ensures Value() == Step(pollIntervalMs, old(Value()), Ping)
    {
      lastPingAt, timeoutFired := now, false;
    }

    /** One run of the interval callback; `fired` says that the timeout callback is called. */
    method PollTick() returns (fired: bool)
      modifies this
      ensures Value() == Step(pollIntervalMs, old(Value()), Tick)
      ensures fired <==> |firings| == |old(firings)| + 1
    {
      fired := false;
      if pollTimer.None? || pollTimer.value.nextTick > now {
        return;
      }
      pollTimer := Some(pollTimer.value.(nextTick := now + pollIntervalMs));
      if intervalMs.None? || timeoutMs.None? || timeoutFired {
        return;
      }
      var elapsed := now - lastPingAt;
      var deadlineMs := intervalMs.value + timeoutMs.value;
      if elapsed > deadlineMs {
        timeoutFired, fired := true, true;
        firings := firings + [Firing(now, lastPingAt, intervalMs.value, timeoutMs.value, pollTimer.value.armedAt)];
      }
    }

    method Turn(e: Event)
      modifies this
      ensures Value() == Step(pollIntervalMs, old(Value()), e)
    {
      match e {
        case Elapse(ms) => Pass(ms);
        case Tick => var _ := PollTick();
        case Configure(i, t) => SetWindow(i, t);
        case Start => StartPolling();
        case Stop => StopPolling();
        case Ping => RecordPing();
      }
    }
  }

  /** A monitor from construction on, so the bounds above hold of it. */
  method Live(pollIntervalMs: nat, now: int, events: seq<Event>) returns (m: HeartbeatMonitor)
    ensures fresh(m) && m.Value() == RunFrom(pollIntervalMs, NewMonitor(now), events)
  {
    m := new HeartbeatMonitor(pollIntervalMs, now);
    for i := 0 to |events|
      invariant fresh(m) && m.pollIntervalMs == pollIntervalMs
      invariant m.Value() == RunFrom(pollIntervalMs, NewMonitor(now), events[..i])
    {
      assert events[..i + 1][..i] == events[..i];
      m.Turn(events[i]);
    }
    assert events[..|events|] == events;
  }
}
