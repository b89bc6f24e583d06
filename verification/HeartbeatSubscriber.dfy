/**
 The heartbeat subscriber: at most one consumption loop that `abort()` and
 `drop()` can reach, a barrier that waits for the loop before it, and a bounded
 chain of retries for streams that die before their `config` event.

 A loop, its AbortController and its promise go by the generation that started it.
 */
module HeartbeatSubscribers {
  import opened Wrappers

  datatype Phase =
    | Calling    // awaiting link.call
    | Reading    // inside the `for await`
    | Closing    // left the `for await`, awaiting the iterator's return()
    | Finished

  datatype Loop = Loop(
    retryBudget: nat,
    phase: Phase,
    receivedConfig: bool,
    aborted: bool,          // signal.aborted
    // History, read by no operation:
    origin: nat,            // generation of the public subscribe() behind it
    dropped: bool,          // drop() released it
    monitorCalls: nat)

  datatype Retry = Retry(gen: nat, retryBudget: nat, origin: nat)

  /** A subscribe suspended at the barrier. */
  datatype Suspended = Suspended(prior: nat, retryBudget: nat, origin: nat)

  datatype Subscriber = Subscriber(
    generation: nat,
    abortController: Option<nat>,
    activeLoop: Option<nat>,
    dropped: bool,
    retryTimer: Option<Retry>,
    suspended: map<nat, Suspended>,   // by the generation they claimed
    loops: map<nat, Loop>,
    startedBesideDropped: bool)       // history: a loop went live while a dropped one was still draining

  const FRESH := Subscriber(0, None, None, false, None, map[], map[], false)

  /** The retry budget, and the generations whose `getLink()` or `link.call` throws synchronously. */
  datatype Config = Config(maxRetries: nat, linkFaults: set<nat>)

  datatype StreamEvent = ConfigEvent(intervalMs: int, timeoutMs: int) | PingEvent | OtherEvent

  // ---------- operations ----------

  function AbortLoop(s: Subscriber, g: nat): Subscriber {
    if g in s.loops then s.(loops := s.loops[g := s.loops[g].(aborted := true)]) else s
  }

  function DropLoop(s: Subscriber, g: nat): Subscriber {
    if g in s.loops then s.(loops := s.loops[g := s.loops[g].(dropped := true)]) else s
  }

  function Abort(s: Subscriber): Subscriber {
    var t := s.(retryTimer := None, abortController := None);
    if s.abortController.Some? then AbortLoop(t, s.abortController.value) else t
  }

  function Drop(s: Subscriber): Subscriber {
    var t := s.(dropped := true, retryTimer := None, abortController := None);
    if s.abortController.Some? then DropLoop(t, s.abortController.value) else t
  }

  /** The `finally` of loop `g`. */
  function FinishLoop(s: Subscriber, g: nat): Subscriber
    requires g in s.loops
  {
    s.(loops := s.loops[g := s.loops[g].(phase := Finished)],
       abortController := if s.abortController == Some(g) then None else s.abortController,
       activeLoop := if s.generation == g then None else s.activeLoop)
  }

  function ScheduleRetry(s: Subscriber, g: nat): Subscriber
    requires g in s.loops
  {
    if s.generation != g || s.loops[g].retryBudget == 0 then s
    else s.(retryTimer := Some(Retry(g, s.loops[g].retryBudget, s.loops[g].origin)))
  }

  /** The `catch` of loop `g`, then its `finally`. */
  function FailLoop(s: Subscriber, g: nat): Subscriber
    requires g in s.loops
  {
    if s.loops[g].aborted || s.dropped || s.loops[g].receivedConfig then FinishLoop(s, g)
    else FinishLoop(ScheduleRetry(s, g), g)
  }

  predicate Unfinished(s: Subscriber, g: nat) {
    g in s.loops && !s.loops[g].phase.Finished?
  }

  /** Not aborted and not finished: such a loop still hands events to the monitor. */
  predicate Drives(s: Subscriber, g: nat) {
    Unfinished(s, g) && !s.loops[g].aborted
  }

  /** Some released loop has not ended yet. */
  ghost predicate Draining(s: Subscriber) {
    exists g :: Drives(s, g) && s.loops[g].dropped
  }

  /** A new controller and its loop, up to the first await of the loop. */
  ghost function Launch(s: Subscriber, gen: nat, budget: nat, origin: nat, throws: bool): Subscriber {
    s.(abortController := Some(gen),
       loops := s.loops[gen := Loop(budget, Calling, false, false, origin, false, 0)],
       startedBesideDropped := s.startedBesideDropped || (Draining(s) && !throws))
  }

  /** The end of `subscribe()`: the loop's promise is stored even if it has settled already. */
  ghost function StartLoop(cfg: Config, s: Subscriber, gen: nat, budget: nat, origin: nat): Subscriber {
    var t := Launch(s, gen, budget, origin, gen in cfg.linkFaults);
    (if gen in cfg.linkFaults then FailLoop(t, gen) else t).(activeLoop := Some(gen))
  }

  ghost function SubscribeWithBudget(cfg: Config, s: Subscriber, budget: nat, origin: nat): Subscriber {
    var gen := s.generation + 1;
    var claimed := s.(generation := gen);
    if s.abortController.None? && s.activeLoop.None? then StartLoop(cfg, claimed, gen, budget, origin)
    else
      var t := Abort(claimed).(activeLoop := None);
      if s.activeLoop.None? then StartLoop(cfg, t, gen, budget, origin)
      else t.(suspended := t.suspended[gen := Suspended(s.activeLoop.value, budget, origin)])
  }

  ghost function Subscribe(cfg: Config, s: Subscriber): Subscriber {
    SubscribeWithBudget(cfg, s.(retryTimer := None, dropped := false), cfg.maxRetries, s.generation + 1)
  }

  ghost function RetryFires(cfg: Config, s: Subscriber): Subscriber {
    if s.retryTimer.None? then s
    else
      var r := s.retryTimer.value;
      var t := s.(retryTimer := None);
      if s.generation != r.gen || r.retryBudget == 0 then t
      else SubscribeWithBudget(cfg, t, r.retryBudget - 1, r.origin)
  }

  /** The continuation after the barrier, once the awaited loop has ended. */
  ghost function Resume(cfg: Config, s: Subscriber, gen: nat): Subscriber {
    if gen !in s.suspended || Unfinished(s, s.suspended[gen].prior) then s
    else
      var b := s.suspended[gen];
      var t := s.(suspended := s.suspended - {gen});
      if s.generation != gen then t else StartLoop(cfg, t, gen, b.retryBudget, b.origin)
  }

  function StreamOpens(s: Subscriber, g: nat): Subscriber {
    if g in s.loops && s.loops[g].phase.Calling? then s.(loops := s.loops[g := s.loops[g].(phase := Reading)]) else s
  }

  function Deliver(s: Subscriber, g: nat, e: StreamEvent): Subscriber {
    if g !in s.loops || !s.loops[g].phase.Reading? then s
    else
      var l := s.loops[g];
      s.(loops := s.loops[g :=
           if l.aborted then l.(phase := Closing)
           else match e
             case ConfigEvent(_, _) => l.(receivedConfig := true, monitorCalls := l.monitorCalls + 2)
             case PingEvent => l.(monitorCalls := l.monitorCalls + 1)
             case OtherEvent => l])
  }

  datatype Event =
    | PublicSubscribe
    | PublicAbort
    | PublicDrop
    | RetryTimer
    | Resumes(gen: nat)
    | Opens(g: nat)
    | Delivers(g: nat, event: StreamEvent)
    | Ends(g: nat)     // the stream is done, or return() has come back
    | Fails(g: nat)    // link.call, next() or return() rejects

  ghost function Step(cfg: Config, s: Subscriber, e: Event): Subscriber {
    match e
    case PublicSubscribe => Subscribe(cfg, s)
    case PublicAbort => Abort(s)
    case PublicDrop => Drop(s)
    case RetryTimer => RetryFires(cfg, s)
    case Resumes(gen) => Resume(cfg, s, gen)
    case Opens(g) => StreamOpens(s, g)
    case Delivers(g, event) => Deliver(s, g, event)
    case Ends(g) => if Unfinished(s, g) && !s.loops[g].phase.Calling? then FinishLoop(s, g) else s
    case Fails(g) => if Unfinished(s, g) then FailLoop(s, g) else s
  }

  ghost function RunFrom(cfg: Config, s: Subscriber, events: seq<Event>): Subscriber {
    if events == [] then s
    else Step(cfg, RunFrom(cfg, s, events[..|events| - 1]), events[|events| - 1])
  }

  ghost function Run(cfg: Config, events: seq<Event>): Subscriber {
    RunFrom(cfg, FRESH, events)
  }

  // ---------- the invariant ----------

  /** Where a generation stands in the chain of retries that its origin began. */
  predicate InChain(cfg: Config, gen: nat, origin: nat, budget: nat) {
    budget <= cfg.maxRetries && 0 < origin && gen + budget == origin + cfg.maxRetries
  }

  ghost predicate Chained(cfg: Config, s: Subscriber) {
    && (forall g :: g in s.loops ==> g <= s.generation && InChain(cfg, g, s.loops[g].origin, s.loops[g].retryBudget))
    && (forall g :: g in s.suspended ==>
          && g <= s.generation && g !in s.loops
          && s.suspended[g].prior in s.loops && s.suspended[g].prior < g
          && InChain(cfg, g, s.suspended[g].origin, s.suspended[g].retryBudget))
  }

  /** The controller belongs to the newest loop, and every loop nobody stopped is that one. */
  ghost predicate Owned(s: Subscriber) {
    && (s.abortController.Some? ==>
          && Drives(s, s.abortController.value)
          && !s.loops[s.abortController.value].dropped
          && s.abortController.value == s.generation
          && s.activeLoop == s.abortController)
    && (s.activeLoop.Some? ==> s.activeLoop.value == s.generation && s.generation in s.loops)
    && (forall g :: Drives(s, g) && !s.loops[g].dropped ==> s.abortController == Some(g))
    && (Unfinished(s, s.generation) ==> s.activeLoop == Some(s.generation))
    && (s.generation in s.suspended ==> s.activeLoop.None? && s.retryTimer.None?)
    && (s.generation in s.loops && s.loops[s.generation].dropped ==> s.dropped)
  }

  ghost predicate RetryOk(cfg: Config, s: Subscriber) {
    s.retryTimer.Some? ==>
      var r := s.retryTimer.value;
      && !s.dropped
      && r.gen == s.generation && r.gen in s.loops && s.loops[r.gen].phase.Finished?
      && r.retryBudget > 0 && InChain(cfg, r.gen, r.origin, r.retryBudget)
  }

  ghost predicate SubscriberOk(cfg: Config, s: Subscriber) {
    Chained(cfg, s) && Owned(s) && RetryOk(cfg, s)
  }

  lemma AbortKeeps(cfg: Config, s: Subscriber)
    requires SubscriberOk(cfg, s)
    ensures SubscriberOk(cfg, Abort(s))
    ensures forall g :: Drives(Abort(s), g) ==> s.loops[g].dropped
  {
  }

  lemma DropKeeps(cfg: Config, s: Subscriber)
    requires SubscriberOk(cfg, s)
    ensures SubscriberOk(cfg, Drop(s))
  {
  }

  lemma FinishKeeps(cfg: Config, s: Subscriber, g: nat)
    requires SubscriberOk(cfg, s) && Unfinished(s, g)
    ensures SubscriberOk(cfg, FinishLoop(s, g))
  {
  }

  lemma FailKeeps(cfg: Config, s: Subscriber, g: nat)
    requires SubscriberOk(cfg, s) && Unfinished(s, g)
    ensures SubscriberOk(cfg, FailLoop(s, g))
  {
    FinishKeeps(cfg, s, g);
    var t := FinishLoop(s, g);
    if FailLoop(s, g) != t {
      assert FailLoop(s, g) == t.(retryTimer := Some(Retry(g, s.loops[g].retryBudget, s.loops[g].origin)));
    }
  }

  /** A generation that was claimed and has no loop, while nobody else holds the fields. */
  ghost predicate MayStart(cfg: Config, s: Subscriber, gen: nat, budget: nat, origin: nat) {
    && SubscriberOk(cfg, s)
    && s.generation == gen && gen !in s.loops && gen !in s.suspended
    && s.abortController.None? && s.activeLoop.None? && s.retryTimer.None?
    && InChain(cfg, gen, origin, budget)
  }

  lemma LaunchKeeps(cfg: Config, s: Subscriber, gen: nat, budget: nat, origin: nat, throws: bool)
    requires MayStart(cfg, s, gen, budget, origin)
    ensures SubscriberOk(cfg, Launch(s, gen, budget, origin, throws).(activeLoop := Some(gen)))
  {
  }

  lemma StartKeeps(cfg: Config, s: Subscriber, gen: nat, budget: nat, origin: nat)
    requires MayStart(cfg, s, gen, budget, origin)
    ensures SubscriberOk(cfg, StartLoop(cfg, s, gen, budget, origin))
  {
    var throws := gen in cfg.linkFaults;
    LaunchKeeps(cfg, s, gen, budget, origin, throws);
    if throws {
      var t := Launch(s, gen, budget, origin, throws).(activeLoop := Some(gen));
      FailKeeps(cfg, t, gen);
      var f := FailLoop(t, gen);
      assert StartLoop(cfg, s, gen, budget, origin) == f.(activeLoop := Some(gen));
    }
  }

  /** The fields once a subscribe has claimed its generation and stopped the loop before it. */
  ghost function Claimed(s: Subscriber, dropped: bool): Subscriber {
    Abort(s).(generation := s.generation + 1, activeLoop := None, dropped := dropped)
  }

  lemma ClaimedKeeps(cfg: Config, s: Subscriber, dropped: bool)
    requires SubscriberOk(cfg, s)
    ensures SubscriberOk(cfg, Claimed(s, dropped))
  {
    AbortKeeps(cfg, s);
  }

  lemma SubscribeClaims(cfg: Config, s: Subscriber, dropped: bool, budget: nat, origin: nat)
    requires s.abortController.Some? ==> s.activeLoop.Some?
    ensures SubscribeWithBudget(cfg, s.(retryTimer := None, dropped := dropped), budget, origin)
         == var t := Claimed(s, dropped);
            if s.activeLoop.None? then StartLoop(cfg, t, t.generation, budget, origin)
            else t.(suspended := t.suspended[t.generation := Suspended(s.activeLoop.value, budget, origin)])
  {
  }

  lemma SuspendKeeps(cfg: Config, s: Subscriber, prior: nat, budget: nat, origin: nat)
    requires MayStart(cfg, s, s.generation, budget, origin)
    requires prior in s.loops && prior < s.generation
    ensures SubscriberOk(cfg, s.(suspended := s.suspended[s.generation := Suspended(prior, budget, origin)]))
  {
  }

  lemma SubscribeKeeps(cfg: Config, s: Subscriber, dropped: bool, budget: nat, origin: nat)
    requires SubscriberOk(cfg, s)
    requires InChain(cfg, s.generation + 1, origin, budget)
    ensures SubscriberOk(cfg, SubscribeWithBudget(cfg, s.(retryTimer := None, dropped := dropped), budget, origin))
  {
    SubscribeClaims(cfg, s, dropped, budget, origin);
    ClaimedKeeps(cfg, s, dropped);
    if s.activeLoop.None? {
      StartKeeps(cfg, Claimed(s, dropped), s.generation + 1, budget, origin);
    } else {
      SuspendKeeps(cfg, Claimed(s, dropped), s.activeLoop.value, budget, origin);
    }
  }

  /** What a stream does to its loop short of ending it. */
  lemma LoopKeeps(cfg: Config, s: Subscriber, g: nat, l: Loop)
    requires SubscriberOk(cfg, s) && Unfinished(s, g) && !l.phase.Finished?
    requires l == s.loops[g].(phase := l.phase, receivedConfig := l.receivedConfig, monitorCalls := l.monitorCalls)
    ensures SubscriberOk(cfg, s.(loops := s.loops[g := l]))
  {
  }

  lemma StreamKeeps(cfg: Config, s: Subscriber, g: nat, e: StreamEvent)
    requires SubscriberOk(cfg, s)
    ensures SubscriberOk(cfg, StreamOpens(s, g)) && SubscriberOk(cfg, Deliver(s, g, e))
  {
    hide SubscriberOk;
    if Unfinished(s, g) {
      LoopKeeps(cfg, s, g, s.loops[g].(phase := Reading));
      LoopKeeps(cfg, s, g, Deliver(s, g, e).loops[g]);
      assert Deliver(s, g, e) == s.(loops := s.loops[g := Deliver(s, g, e).loops[g]]);
    }
  }

  lemma RetryKeeps(cfg: Config, s: Subscriber)
    requires SubscriberOk(cfg, s)
    ensures SubscriberOk(cfg, RetryFires(cfg, s))
  {
    if s.retryTimer.Some? {
      SubscribeKeeps(cfg, s, s.dropped, s.retryTimer.value.retryBudget - 1, s.retryTimer.value.origin);
    }
  }

  lemma StepKeeps(cfg: Config, s: Subscriber, e: Event)
    requires SubscriberOk(cfg, s)
    ensures SubscriberOk(cfg, Step(cfg, s, e))
  {
    match e
    case PublicSubscribe => SubscribeKeeps(cfg, s, false, cfg.maxRetries, s.generation + 1);
    case PublicAbort => AbortKeeps(cfg, s);
    case PublicDrop => DropKeeps(cfg, s);
    case RetryTimer => RetryKeeps(cfg, s);
    case Resumes(gen) => ResumeKeeps(cfg, s, gen);
    case Opens(g) => StreamKeeps(cfg, s, g, OtherEvent);
    case Delivers(g, event) => StreamKeeps(cfg, s, g, event);
    case Fails(g) => if Unfinished(s, g) { FailKeeps(cfg, s, g); }
    case Ends(g) => if Unfinished(s, g) { FinishKeeps(cfg, s, g); }
  }

  lemma ResumeKeeps(cfg: Config, s: Subscriber, gen: nat)
    requires SubscriberOk(cfg, s)
    ensures SubscriberOk(cfg, Resume(cfg, s, gen))
  {
    if gen in s.suspended && !Unfinished(s, s.suspended[gen].prior) {
      var t := s.(suspended := s.suspended - {gen});
      assert SubscriberOk(cfg, t);
      if s.generation == gen {
        StartKeeps(cfg, t, gen, s.suspended[gen].retryBudget, s.suspended[gen].origin);
      }
    }
  }
}
