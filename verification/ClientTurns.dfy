/**
 Runs one turn at a time, and turns in which the consumer calls nothing.
 */
module ClientTurns {
  import opened Wrappers
  import opened ConnectionStates
  import opened ClientModel
  import opened ClientSockets

  /** A turn after `ms` milliseconds, without a call from the consumer. */
  function After(ms: nat, e: Event): Input {
    Input(ms, e, [])
  }

  /** The same at once. */
  function Quietly(e: Event): Input {
    After(0, e)
  }

  /**
   Turn `i` reaches `swapSocket`, unless the client is stopped: a recovery or a
   pass resumes with a fresh token, or the jitter of a pass is over where no
   refresh is to be asked for.
   */
  predicate Swaps(cfg: Config, s: Client, i: Input) {
    match i.event
    case ResumeRecovery(f) => f in s.refresh.recoveries && BroughtToken(s, f)
    case ResumePass(_) =>
      ( match s.queue.pass
        case Jittered(_) => !cfg.hasTokenProvider || Recent(cfg, s, i)
        case Refreshing(_, f) => BroughtToken(s, f)
        case _ => false )
    case _ => false
  }

  /** At turn `i` the last refresh attempt is younger than the window. */
  predicate Recent(cfg: Config, s: Client, i: Input) {
    && s.refresh.lastRefreshAttemptedAt.Some?
    && s.refresh.clock + i.elapsed - s.refresh.lastRefreshAttemptedAt.value < cfg.minRefreshIntervalMs
  }

  /** The refresh that flight `f` stood for has brought a token. */
  predicate BroughtToken(s: Client, f: nat) {
    f in s.refresh.outcomes && s.refresh.outcomes[f].Fresh?
  }

  /** Consumer code that calls `dispose()` before it returns, whatever it does first. */
  predicate DisposesFirst(calls: seq<Call>) {
    calls != [] && (calls[0].CallDispose? || (calls[0].CallConnect? && DisposesFirst(calls[1..])))
  }

  lemma RunSnoc(cfg: Config, inputs: seq<Input>, i: Input)
    ensures Run(cfg, inputs + [i]) == Step(cfg, Run(cfg, inputs), i)
  {
    assert (inputs + [i])[..|inputs|] == inputs;
  }

  /** Without calls in the script, callbacks do nothing. */
  lemma Uncalled(cfg: Config, s: Client, next: ConnectionState, w: Option<nat>)
    requires s.script == []
    ensures Callback(cfg, s) == s
    ensures SetState(cfg, s, next) == if s.state == next then s else Assign(s, next)
    ensures CloseWrapper(cfg, s, w) == if w.None? then s else Latch(s, w.value)
    ensures Shut(cfg, s, w) == SetState(cfg, if w.None? then s else Latch(s, w.value), GONE)
  {
  }

  lemma TwoTurns(cfg: Config, i: Input, j: Input)
    ensures Run(cfg, [i, j]) == Step(cfg, Step(cfg, NEW_CLIENT, i), j)
  {
    RunSnoc(cfg, [], i);
    RunSnoc(cfg, [i], j);
    assert [] + [i] == [i] && [i] + [j] == [i, j];
  }

  lemma ThreeTurns(cfg: Config, i: Input, j: Input, k: Input)
    ensures Run(cfg, [i, j, k]) == Step(cfg, Step(cfg, Step(cfg, NEW_CLIENT, i), j), k)
  {
    TwoTurns(cfg, i, j);
    RunSnoc(cfg, [i, j], k);
    assert [i, j] + [k] == [i, j, k];
  }

  lemma ThreeMore(cfg: Config, inputs: seq<Input>, i: Input, j: Input, k: Input)
    ensures Run(cfg, inputs + [i, j, k]) == Step(cfg, Step(cfg, Step(cfg, Run(cfg, inputs), i), j), k)
  {
    RunSnoc(cfg, inputs, i);
    RunSnoc(cfg, inputs + [i], j);
    RunSnoc(cfg, inputs + [i] + [j], k);
    assert inputs + [i] + [j] + [k] == inputs + [i, j, k];
  }
}
