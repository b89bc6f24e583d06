/**
 When a client holds a socket nobody asked for: one that has shown no state yet,
 and so still shows that it will not retry.
 */
module ClientSilence {
  import opened Wrappers
  import opened ConnectionStates
  import opened WebSocketHolders
  import opened ReconnectQueue
  import opened RefreshGuard
  import opened ClientModel
  import opened ClientSockets
  import opened ClientRuns
  import opened ClientTheorems
  import opened ClientTurns
  import opened ClientHolding

  /** A live client that has shown no state. */
  predicate Silent(s: Client) {
    !IsDead(s) && s.history.frames == []
  }

  /** It holds a wrapper all the same. */
  predicate HoldsUnasked(s: Client) {
    Silent(s) && s.holder.websocket.Some?
  }

  /** What holds of every reachable client. */
  ghost predicate Sound(cfg: Config, s: Client) {
    Quiet(s) && Lasting(cfg, s) && (Silent(s) ==> s.state == GONE)
  }

  /** A client that is silent after a turn was silent before it. */
  lemma StepSound(cfg: Config, s: Client, i: Input)
    requires Sound(cfg, s)
    ensures Sound(cfg, Step(cfg, s, i)) && (Silent(Step(cfg, s, i)) ==> Silent(s))
  {
    hide Handle;
    var a := Arrive(s, i);
    assert Quiet(a);
    HandleQuiet(cfg, a, i.event);
    HandleEndures(cfg, a, i.event);
  }

  lemma {:induction false} RunSound(cfg: Config, inputs: seq<Input>)
    ensures Sound(cfg, Run(cfg, inputs))
  {
    hide Step, Quiet;
    RunQuiet(cfg, inputs);
    if inputs != [] {
      var n := |inputs| - 1;
      RunSound(cfg, inputs[..n]);
      StepSound(cfg, Run(cfg, inputs[..n]), inputs[n]);
    }
  }

  /** A live client shows that it will not retry if and only if it has shown nothing yet. */
  lemma SilentIff(cfg: Config, inputs: seq<Input>)
    ensures var s := Run(cfg, inputs);
            Silent(s) <==> !IsDead(s) && s.state == GONE
  {
    RunSound(cfg, inputs);
    StateIsTruthful(cfg, inputs);
  }

  // ---------- one turn ----------

  /** Turn `i` makes a silent client without a wrapper dial. */
  predicate DialsUnasked(cfg: Config, s: Client, i: Input) {
    Silent(s) && s.holder.websocket.None? && s.net.constructions !in cfg.constructFaults && Swaps(cfg, s, i)
  }

  /** Ready to be asked to connect. */
  ghost predicate Unasked(s: Client) {
    Quiet(s) && Silent(s) && s.state == GONE && s.holder.websocket.None?
  }

  lemma UnaskedArrives(cfg: Config, s: Client, i: Input)
    requires Sound(cfg, s) && Silent(s) && s.holder.websocket.None?
    ensures Unasked(Arrive(s, i)) && !IsStopped(Arrive(s, i))
  {
  }

  lemma UnaskedSwap(cfg: Config, s: Client, token: Option<string>)
    requires Unasked(s)
    ensures SwapSocket(cfg, s, token) == Construct(cfg, s.(holder := Holder(None, token, false)))
  {
    assert s.(swapping := true).(swapping := false) == s;
  }

  /** Its constructor call is all that a swap is to a silent client. */
  lemma UnaskedDials(cfg: Config, s: Client, token: Option<string>)
    requires Unasked(s)
    ensures var (r, threw) := SwapSocket(cfg, s, token);
            && (threw <==> s.net.constructions in cfg.constructFaults)
            && (HoldsUnasked(r) <==> !threw)
  {
    hide SwapSocket;
    UnaskedSwap(cfg, s, token);
  }

  lemma UnaskedLanding(cfg: Config, s: Client, outcome: Outcome)
    requires Unasked(s)
    ensures HoldsUnasked(FlightLanded(cfg, s, outcome)) <==> outcome.Fresh? && s.net.constructions !in cfg.constructFaults
  {
    hide SwapSocket, GiveUp, Quiet;
    if outcome.Fresh? {
      UnaskedDials(cfg, s, Some(outcome.token));
      SwapQuiet(cfg, s, Some(outcome.token));
    }
    QuietDeath(AfterRefresh(cfg, s, outcome).0);
    GiveUpKills(cfg, AfterRefresh(cfg, s, outcome).0);
  }

  lemma UnaskedPass(cfg: Config, s: Client, i: Input)
    requires Unasked(Arrive(s, i)) && !IsStopped(Arrive(s, i)) && i.event.ResumePass?
    ensures HoldsUnasked(Step(cfg, s, i)) <==> DialsUnasked(cfg, s, i)
  {
    hide SwapSocket, Finish, FlightLanded, Quiet;
    var a := Arrive(s, i);
    match a.queue.pass
    case Jittered(_) => UnaskedDials(cfg, a, if cfg.hasTokenProvider then i.event.current else None);
    case Refreshing(_, flight) =>
      if flight in a.refresh.outcomes {
        UnaskedLanding(cfg, a, a.refresh.outcomes[flight]);
      }
    case _ =>
  }

  lemma UnaskedResumes(cfg: Config, s: Client, i: Input, f: nat)
    requires Unasked(Arrive(s, i)) && i.event == ResumeRecovery(f)
    ensures HoldsUnasked(Step(cfg, s, i)) <==> DialsUnasked(cfg, s, i)
  {
    hide FlightLanded;
    var a := Arrive(s, i);
    if f in a.refresh.recoveries && f in a.refresh.outcomes {
      var t := a.(refresh := a.refresh.(recoveries := a.refresh.recoveries - {f}));
      BookkeepingQuiet(a, t);
      UnaskedLanding(cfg, t, a.refresh.outcomes[f]);
    }
  }

  /** Whoever connects shows it. */
  lemma ConnectSpeaks(cfg: Config, s: Client)
    requires Connectable(s)
    ensures IsDead(Connect(cfg, s)) || |s.history.frames| < |Connect(cfg, s).history.frames|
  {
    hide Callback;
    CallbackOutlives(cfg, Assign(s, Connecting));
    assert Connect(cfg, s) == Dial(cfg, Callback(cfg, Assign(s, Connecting)));
  }

  lemma UnaskedHeartbeat(cfg: Config, s: Client)
    requires Unasked(s)
    ensures var r := OnHeartbeatTimeout(cfg, s);
            !IsDead(r) ==> r.holder == s.holder || r.history.frames != []
  {
    hide Callback, Quiet;
    CallbackOutlives(cfg, s);
    CallbackOutlives(cfg, Assign(Callback(cfg, s), Disconnected(None, true)));
  }

  /** No other event gives a silent client a wrapper: consumer code that connects breaks the silence. */
  lemma UnaskedOther(cfg: Config, s: Client, e: Event)
    requires Unasked(s) && !e.ResumePass? && !e.ResumeRecovery?
    ensures !HoldsUnasked(Handle(cfg, s, e))
  {
    hide Callback, Quiet, GiveUp;
    CallbackOutlives(cfg, s);
    match e
    case ApiConnect => ConnectSpeaks(cfg, s);
    case SocketOpens(w) => StaleEventsIgnored(cfg, s, w, 0, "");
    case SocketCloses(w, code, reason) => StaleEventsIgnored(cfg, s, w, code, reason);
    case Upload401 =>
      CallbackQuiet(cfg, s);
      QuietDeath(Callback(cfg, s));
      GiveUpKills(cfg, Callback(cfg, s));
    case HeartbeatTimesOut => UnaskedHeartbeat(cfg, s);
    case ApiDispose =>
    case _ =>
  }

  /**
   A turn leaves a silent client without a wrapper silent and holding one if
   and only if it swaps the socket and the constructor does not throw.
   */
  lemma TurnDialsIff(cfg: Config, s: Client, i: Input)
    requires Sound(cfg, s) && s.holder.websocket.None?
    ensures HoldsUnasked(Step(cfg, s, i)) <==> DialsUnasked(cfg, s, i)
  {
    hide Handle;
    if Silent(s) {
      UnaskedArrives(cfg, s, i);
      match i.event
      case ResumePass(current) => UnaskedPass(cfg, s, i);
      case ResumeRecovery(f) => UnaskedResumes(cfg, s, i, f);
      case _ => UnaskedOther(cfg, Arrive(s, i), i.event);
    } else {
      StepSound(cfg, s, i);
    }
  }

  // ---------- runs ----------

  /** At some moment of the run a client that has shown nothing holds a wrapper. */
  ghost predicate EverHoldsUnasked(cfg: Config, inputs: seq<Input>) {
    exists k :: 0 <= k <= |inputs| && HoldsUnasked(Run(cfg, inputs[..k]))
  }

  /** Some turn of the run makes a silent client dial. */
  ghost predicate EverDialsUnasked(cfg: Config, inputs: seq<Input>) {
    exists k :: 0 <= k < |inputs| && DialsUnasked(cfg, Run(cfg, inputs[..k]), inputs[k])
  }

  lemma TurnOfRun(cfg: Config, inputs: seq<Input>, k: nat)
    requires k < |inputs|
    ensures Run(cfg, inputs[..k + 1]) == Step(cfg, Run(cfg, inputs[..k]), inputs[k])
  {
    RunSnoc(cfg, inputs[..k], inputs[k]);
    assert inputs[..k] + [inputs[k]] == inputs[..k + 1];
  }

  /** The first moment at which it does comes from a turn that makes it dial. */
  lemma {:induction false} HeldByDialling(cfg: Config, inputs: seq<Input>, k: nat)
    requires k <= |inputs| && HoldsUnasked(Run(cfg, inputs[..k]))
    ensures EverDialsUnasked(cfg, inputs)
  {
    hide Step, DialsUnasked;
    if k > 0 {
      var s := Run(cfg, inputs[..k - 1]);
      TurnOfRun(cfg, inputs, k - 1);
      RunSound(cfg, inputs[..k - 1]);
      StepSound(cfg, s, inputs[k - 1]);
      if s.holder.websocket.Some? {
        HeldByDialling(cfg, inputs, k - 1);
      } else {
        TurnDialsIff(cfg, s, inputs[k - 1]);
      }
    }
  }

  /**
   A client that shows `disconnected` without retry, and is not dead, comes to
   hold a socket in exactly the runs in which a turn swaps the socket of a
   client that has shown nothing and holds nothing, and its constructor does
   not throw.
   */
  lemma HoldsUnaskedIff(cfg: Config, inputs: seq<Input>)
    ensures EverHoldsUnasked(cfg, inputs) <==> EverDialsUnasked(cfg, inputs)
  {
    hide Step, DialsUnasked, HoldsUnasked;
    if EverHoldsUnasked(cfg, inputs) {
      var k :| 0 <= k <= |inputs| && HoldsUnasked(Run(cfg, inputs[..k]));
      HeldByDialling(cfg, inputs, k);
    }
    if EverDialsUnasked(cfg, inputs) {
      var k :| 0 <= k < |inputs| && DialsUnasked(cfg, Run(cfg, inputs[..k]), inputs[k]);
      DiallingHolds(cfg, inputs, k);
    }
  }

  lemma DiallingHolds(cfg: Config, inputs: seq<Input>, k: nat)
    requires k < |inputs| && DialsUnasked(cfg, Run(cfg, inputs[..k]), inputs[k])
    ensures HoldsUnasked(Run(cfg, inputs[..k + 1]))
  {
    RunSound(cfg, inputs[..k]);
    TurnOfRun(cfg, inputs, k);
    TurnDialsIff(cfg, Run(cfg, inputs[..k]), inputs[k]);
  }

  // ---------- what prompts it ----------

  /** The events that can set a swap in motion. */
  predicate Prompts(cfg: Config, e: Event) {
    (e.Upload401? && cfg.hasTokenProvider) || e.Wakes? || e.HeartbeatTimesOut?
  }

  /** Nothing is under way that could end in a swap. */
  predicate Idles(s: Client) {
    s.holder.websocket.None? && s.refresh.recoveries == {} && !s.queue.armed && s.queue.pass.Idle?
  }

  lemma StepIdles(cfg: Config, s: Client, i: Input)
    requires Sound(cfg, s) && Silent(s) && Idles(s) && !Prompts(cfg, i.event)
    ensures Silent(Step(cfg, s, i)) ==> Idles(Step(cfg, s, i))
  {
    hide Callback, Quiet;
    var a := Arrive(s, i);
    UnaskedArrives(cfg, s, i);
    TurnDialsIff(cfg, s, i);
    match i.event
    case SocketOpens(w) => StaleEventsIgnored(cfg, a, w, 0, "");
    case SocketCloses(w, code, reason) => StaleEventsIgnored(cfg, a, w, code, reason);
    case ApiConnect => ConnectSpeaks(cfg, a);
    case _ =>
  }

  lemma {:induction false} RunIdles(cfg: Config, inputs: seq<Input>)
    requires forall k :: 0 <= k < |inputs| ==> !Prompts(cfg, inputs[k].event)
    ensures Silent(Run(cfg, inputs)) ==> Idles(Run(cfg, inputs))
  {
    hide Step, Prompts, Idles;
    if inputs == [] {
      NewIdles();
    } else {
      var n := |inputs| - 1;
      var s := Run(cfg, inputs[..n]);
      RunSound(cfg, inputs[..n]);
      StepSound(cfg, s, inputs[n]);
      RunIdles(cfg, inputs[..n]);
      if Silent(s) {
        StepIdles(cfg, s, inputs[n]);
      }
    }
  }

  lemma NewIdles()
    ensures Idles(NEW_CLIENT)
  {
  }

  /** Silence reaches back to the beginning. */
  lemma {:induction false} SilentFrom(cfg: Config, inputs: seq<Input>, k: nat)
    requires k <= |inputs| && Silent(Run(cfg, inputs))
    ensures Silent(Run(cfg, inputs[..k]))
  {
    hide Step;
    if k < |inputs| {
      var n := |inputs| - 1;
      RunSound(cfg, inputs[..n]);
      StepSound(cfg, Run(cfg, inputs[..n]), inputs[n]);
      assert inputs[..n][..k] == inputs[..k];
      SilentFrom(cfg, inputs[..n], k);
    } else {
      assert inputs[..k] == inputs;
    }
  }

  /**
   Nobody dials unasked without a prompt: before it, while nothing had been
   shown, an upload was answered 401 where there is a token provider, the host
   woke up, or a heartbeat was missed.
   */
  lemma HeldBecausePrompted(cfg: Config, inputs: seq<Input>)
    requires HoldsUnasked(Run(cfg, inputs))
    ensures exists k :: 0 <= k < |inputs| && Prompts(cfg, inputs[k].event) && Silent(Run(cfg, inputs[..k]))
  {
    if k :| 0 <= k < |inputs| && Prompts(cfg, inputs[k].event) {
      SilentFrom(cfg, inputs, k);
    } else {
      RunIdles(cfg, inputs);
    }
  }
}
