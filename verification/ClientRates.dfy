/**
 When the provider is called twice inside one window, in terms of what happens
 to the client.
 */
module ClientRates {
  import opened Wrappers
  import opened ConnectionStates
  import opened CloseDecisions
  import opened RefreshGuard
  import opened ClientModel
  import opened ClientTheorems

  /**
   The client as turn `i` reaches `tryAuthRecovery`, after the consumer calls of
   that turn before it, and the trigger; None if the turn does not get there.
   */
  function RecoveryPoint(cfg: Config, s: Client, i: Input): Option<(Client, AuthRecoveryTrigger)> {
    var a := Arrive(s, i);
    if !cfg.hasTokenProvider then None
    else match i.event
      case Upload401 => Some((Callback(cfg, a), AuthClose))
      case SocketCloses(w, code, reason) =>
        if !Exists(cfg, a, w) then None
        else ( match DecideClose(code, reason, a.holder.websocket != Some(w), a.holder.currentAttemptOpened)
               case AuthRecovery(c, trigger) =>
                 Some((Callback(cfg, SetState(cfg, Dropped(a, w), Disconnected(Some(c), true))), trigger))
               case _ => None )
      case _ => None
  }

  function LastCall(r: Refresher): int
    requires r.starts != []
  {
    r.starts[|r.starts| - 1].at
  }

  /** The turn enters auth recovery past all its guards, and the last provider call is younger than the window. */
  predicate RecoversTooSoon(cfg: Config, s: Client, i: Input) {
    var point := RecoveryPoint(cfg, s, i);
    && point.Some?
    && var r := point.value.0.refresh;
    && !IsStopped(point.value.0)
    && r.refreshInFlight.None? && !Storm(cfg.minRefreshIntervalMs, r)
    && r.starts != [] && r.clock - LastCall(r) < cfg.minRefreshIntervalMs
  }

  /** What the provider is promised: no two calls closer together than the window. */
  ghost predicate OnePerWindow(min: int, starts: seq<Start>) {
    forall i, j :: 0 <= i < j < |starts| ==> starts[j].at - starts[i].at >= min
  }

  /** The calls of `r` are those of `s` and at most one more, made now. */
  ghost predicate CallsOnce(s: Refresher, r: Refresher) {
    r.starts == s.starts || (exists d :: r.starts == s.starts + [Start(s.clock, d)])
  }

  /** That call comes too soon. */
  ghost predicate TooSoon(min: int, s: Refresher, r: Refresher) {
    r.starts != s.starts && s.starts != [] && s.clock - LastCall(s) < min
  }

  lemma RoutineIsLate(min: int, faults: set<nat>, r: Refresher)
    requires RatesOk(min, r) && !InsideWindow(min, r)
    ensures CallsOnce(r, RoutineRefresh(faults, r).0) && !TooSoon(min, r, RoutineRefresh(faults, r).0)
  {
  }

  lemma AuthCalls(faults: set<nat>, r: Refresher)
    requires r.refreshInFlight.None?
    ensures CallsOnce(r, AuthRefresh(faults, r)) && AuthRefresh(faults, r).starts != r.starts
  {
    assert AuthRefresh(faults, r).starts == r.starts + [Start(r.clock, AuthDriven)];
  }

  /** `tryAuthRecovery` calls the provider exactly past its guards. */
  lemma RecoveryCalls(cfg: Config, p: Client, trigger: AuthRecoveryTrigger)
    ensures var r := TryAuthRecovery(cfg, p, trigger);
            && CallsOnce(p.refresh, r.refresh)
            && (r.refresh.starts != p.refresh.starts <==>
                  !IsStopped(p) && p.refresh.refreshInFlight.None? && !Storm(cfg.minRefreshIntervalMs, p.refresh))
  {
    if p.refresh.refreshInFlight.None? {
      AuthCalls(cfg.refreshFaults, p.refresh);
    }
  }

  lemma PointCalls(cfg: Config, s: Client, i: Input)
    requires RecoveryPoint(cfg, s, i).Some?
    ensures var a, r := Arrive(s, i), Step(cfg, s, i);
            && CallsOnce(a.refresh, r.refresh)
            && (RecoversTooSoon(cfg, s, i) <==> TooSoon(cfg.minRefreshIntervalMs, a.refresh, r.refresh))
  {
    var (p, trigger) := RecoveryPoint(cfg, s, i).value;
    RecoveryCalls(cfg, p, trigger);
    assert Step(cfg, s, i) == TryAuthRecovery(cfg, p, trigger);
    assert p.refresh == Arrive(s, i).refresh;
  }

  lemma PassCalls(cfg: Config, a: Client, current: Option<string>)
    requires Rates(cfg, a)
    ensures var r := PassResumes(cfg, a, current);
            CallsOnce(a.refresh, r.refresh) && !TooSoon(cfg.minRefreshIntervalMs, a.refresh, r.refresh)
  {
    if !InsideWindow(cfg.minRefreshIntervalMs, a.refresh) {
      RoutineIsLate(cfg.minRefreshIntervalMs, cfg.refreshFaults, a.refresh);
    }
  }

  lemma CloseCalls(cfg: Config, s: Client, i: Input)
    requires i.event.SocketCloses? && RecoveryPoint(cfg, s, i).None?
    ensures Step(cfg, s, i).refresh == Arrive(s, i).refresh
  {
  }

  lemma QuietCalls(cfg: Config, s: Client, e: Event)
    requires e.ApiConnect? || e.ApiDispose? || e.SocketOpens? || e.HeartbeatTimesOut? || e.Wakes? || e.ResumeRecovery?
    ensures Handle(cfg, s, e).refresh.starts == s.refresh.starts
  {
    hide Callback, SwapSocket, Connect, Dispose, GiveUp, SetState;
  }

  lemma TimerCalls(cfg: Config, s: Client, e: Event)
    requires e.UrlRead? || e.DebounceTimer? || e.JitterTimer? || e.ProviderSettles?
    ensures Handle(cfg, s, e).refresh.starts == s.refresh.starts
  {
  }

  lemma OtherCalls(cfg: Config, s: Client, i: Input)
    requires !i.event.SocketCloses? && !i.event.ResumePass? && RecoveryPoint(cfg, s, i).None?
    ensures Step(cfg, s, i).refresh.starts == s.refresh.starts
  {
    hide Callback, Handle;
    var e, a := i.event, Arrive(s, i);
    if e.UrlRead? || e.DebounceTimer? || e.JitterTimer? || e.ProviderSettles? {
      TimerCalls(cfg, a, e);
    } else if e.Upload401? {
      UnprovidedUpload(cfg, a);
    } else {
      QuietCalls(cfg, a, e);
    }
  }

  lemma UnprovidedUpload(cfg: Config, s: Client)
    requires !cfg.hasTokenProvider
    ensures Handle(cfg, s, Upload401) == s
  {
  }

  /** A turn makes at most one provider call, and makes it too soon exactly when it recovers too soon. */
  lemma TurnCalls(cfg: Config, s: Client, i: Input)
    requires Rates(cfg, s)
    ensures var a, r := Arrive(s, i), Step(cfg, s, i);
            && CallsOnce(a.refresh, r.refresh)
            && (RecoversTooSoon(cfg, s, i) <==> TooSoon(cfg.minRefreshIntervalMs, a.refresh, r.refresh))
  {
    if RecoveryPoint(cfg, s, i).Some? {
      PointCalls(cfg, s, i);
    } else if i.event.ResumePass? {
      assert Rates(cfg, Arrive(s, i)) by { ArriveKeepsRates(cfg, s, i); }
      PassCalls(cfg, Arrive(s, i), i.event.current);
    } else if i.event.SocketCloses? {
      CloseCalls(cfg, s, i);
    } else {
      OtherCalls(cfg, s, i);
    }
  }

  lemma ArriveKeepsRates(cfg: Config, s: Client, i: Input)
    requires Rates(cfg, s)
    ensures Rates(cfg, Arrive(s, i))
  {
    assert Outstanding(Arrive(s, i).refresh) == Outstanding(s.refresh);
  }

  /** One more call keeps the promise exactly when it does not come too soon. */
  lemma PromiseGrows(min: int, s: Refresher, r: Refresher)
    requires RatesOk(min, s) && CallsOnce(s, r)
    ensures OnePerWindow(min, r.starts) <==> OnePerWindow(min, s.starts) && !TooSoon(min, s, r)
  {
    if r.starts != s.starts {
      var n := |s.starts|;
      assert forall k :: 0 <= k < n ==> r.starts[k] == s.starts[k];
      assert r.starts[n].at == s.clock;
      if s.starts != [] {
        assert forall k :: 0 <= k < n ==> s.starts[k].at <= s.starts[n - 1].at;
      }
    }
  }

  lemma PromiseSnoc(cfg: Config, s: Client, i: Input)
    requires Rates(cfg, s)
    ensures OnePerWindow(cfg.minRefreshIntervalMs, Step(cfg, s, i).refresh.starts)
       <==> OnePerWindow(cfg.minRefreshIntervalMs, s.refresh.starts) && !RecoversTooSoon(cfg, s, i)
  {
    TurnCalls(cfg, s, i);
    ArriveKeepsRates(cfg, s, i);
    PromiseGrows(cfg.minRefreshIntervalMs, Arrive(s, i).refresh, Step(cfg, s, i).refresh);
  }

  /** Turn `k` of the run recovers too soon. */
  predicate TurnTooSoon(cfg: Config, inputs: seq<Input>, k: nat)
    requires k < |inputs|
  {
    RecoversTooSoon(cfg, Run(cfg, inputs[..k]), inputs[k])
  }

  ghost predicate NeverTooSoon(cfg: Config, inputs: seq<Input>) {
    forall k :: 0 <= k < |inputs| ==> !TurnTooSoon(cfg, inputs, k)
  }

  lemma PrefixTurn(cfg: Config, inputs: seq<Input>, n: nat, k: nat)
    requires k < n <= |inputs|
    ensures TurnTooSoon(cfg, inputs[..n], k) <==> TurnTooSoon(cfg, inputs, k)
  {
    assert inputs[..n][..k] == inputs[..k];
  }

  lemma NeverSnoc(cfg: Config, inputs: seq<Input>, n: nat)
    requires |inputs| == n + 1
    ensures NeverTooSoon(cfg, inputs) <==> NeverTooSoon(cfg, inputs[..n]) && !TurnTooSoon(cfg, inputs, n)
  {
    hide TurnTooSoon;
    forall k | 0 <= k < n ensures TurnTooSoon(cfg, inputs[..n], k) <==> TurnTooSoon(cfg, inputs, k) {
      PrefixTurn(cfg, inputs, n, k);
    }
  }

  lemma NothingYet(cfg: Config)
    ensures OnePerWindow(cfg.minRefreshIntervalMs, NEW_CLIENT.refresh.starts) && NeverTooSoon(cfg, [])
  {
  }

  /**
   The provider's promise of one call per window is kept in exactly the runs in
   which no turn enters auth recovery (the current socket closes with 1008, 4001
   or a pre-open 1000, or an upload is answered 401) on a client that is not
   stopped, with no flight in the air and no storm, while the last provider call
   is younger than the window.
   */
  lemma {:induction false} RefreshPerWindow(cfg: Config, inputs: seq<Input>)
    ensures OnePerWindow(cfg.minRefreshIntervalMs, Run(cfg, inputs).refresh.starts) <==> NeverTooSoon(cfg, inputs)
  {
    hide Step, RecoversTooSoon, OnePerWindow, NeverTooSoon, Rates;
    NothingYet(cfg);
    if inputs != [] {
      var n := |inputs| - 1;
      RefreshPerWindow(cfg, inputs[..n]);
      RunRates(cfg, inputs[..n]);
      PromiseSnoc(cfg, Run(cfg, inputs[..n]), inputs[n]);
      NeverSnoc(cfg, inputs, n);
    }
  }
}
