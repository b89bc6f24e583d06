/**
 Everything that decides when `tokenProvider.refresh()` is called: the storm
 guard of `ReconnectManager` and the single flight of `TokenRefreshHandler`.

 A flight is the number of the `refresh()` call that began it.
 */
module RefreshGuard {
  import opened Wrappers

  /** Who started a provider refresh. */
  datatype Driver = Routine | AuthDriven

  datatype Start = Start(at: int, driver: Driver)

  /** How a provider refresh settles; `Rejected` is a throw or a rejection. */
  datatype Outcome = Fresh(token: string) | NoToken | Rejected

  datatype Refresher = Refresher(
    clock: int,
    refreshInFlight: Option<nat>,
    lastRefreshAttemptedAt: Option<int>,   // None is minus infinity
    lastRefreshWasAuthRecovery: bool,
    recoveries: set<nat>,                  // flights a suspended tryAuthRecovery awaits
    outcomes: map<nat, Outcome>,           // how the settled flights settled
    starts: seq<Start>)                    // history: provider refresh() calls so far

  const UNUSED := Refresher(0, None, None, false, {}, map[], [])

  predicate InsideWindow(min: int, r: Refresher) {
    r.lastRefreshAttemptedAt.Some? && r.clock - r.lastRefreshAttemptedAt.value < min
  }

  /** The storm: an auth-driven refresh has completed and auth failed again inside the window. */
  predicate Storm(min: int, r: Refresher) {
    InsideWindow(min, r) && r.lastRefreshWasAuthRecovery
  }

  function Stamp(r: Refresher, auth: bool): Refresher {
    r.(lastRefreshAttemptedAt := Some(r.clock), lastRefreshWasAuthRecovery := auth)
  }

  /**
   `refreshTokenOnce`: join the flight in the air, or call the provider; the
   number says which flight is awaited. `faults` are the calls that throw.
   */
  function RefreshOnce(faults: set<nat>, r: Refresher, driver: Driver): (Refresher, nat) {
    if r.refreshInFlight.Some? then (r, r.refreshInFlight.value)
    else
      var f := |r.starts|;
      var t := r.(starts := r.starts + [Start(r.clock, driver)]);
      if f in faults then (t.(outcomes := t.outcomes[f := Rejected]), f)
      else (t.(refreshInFlight := Some(f)), f)
  }

  /** The `finally` of the single-flight promise. */
  function Settle(r: Refresher, outcome: Outcome): Refresher {
    if r.refreshInFlight.None? then r
    else r.(refreshInFlight := None, outcomes := r.outcomes[r.refreshInFlight.value := outcome])
  }

  /** The refresh of `runReconnect`, reached only outside the window. */
  function RoutineRefresh(faults: set<nat>, r: Refresher): (Refresher, nat) {
    RefreshOnce(faults, Stamp(r, false), Routine)
  }

  /** The refresh of `tryAuthRecovery`, reached only with no flight in the air and no storm. */
  function AuthRefresh(faults: set<nat>, r: Refresher): Refresher {
    var (t, f) := RefreshOnce(faults, Stamp(r, true), AuthDriven);
    t.(recoveries := t.recoveries + {f})
  }

  // ---------- refresh rate and single flight ----------

  /** Calls that have not settled yet. */
  function Outstanding(r: Refresher): set<nat> {
    set f: nat | f < |r.starts| && f !in r.outcomes
  }

  ghost predicate SingleFlight(r: Refresher) {
    && (forall f :: f in r.outcomes ==> f < |r.starts|)
    && (forall f :: f in r.recoveries ==> f < |r.starts|)
    && Outstanding(r) == if r.refreshInFlight.Some? then {r.refreshInFlight.value} else {}
  }

  /** Two refreshes closer than `min` are consecutive, a routine one and then an auth-driven one. */
  ghost predicate Spaced(min: int, starts: seq<Start>) {
    forall i, j :: 0 <= i < j < |starts| ==>
      && starts[i].at <= starts[j].at
      && (starts[j].at - starts[i].at < min ==>
            j == i + 1 && starts[i].driver.Routine? && starts[j].driver.AuthDriven?)
  }

  /** What the last stamp says about the calls made so far. */
  ghost predicate StampCovers(min: int, r: Refresher) {
    && (r.starts != [] ==>
          r.lastRefreshAttemptedAt.Some? && r.lastRefreshAttemptedAt.value <= r.clock)
    && forall i :: 0 <= i < |r.starts| ==>
         && r.starts[i].at <= r.lastRefreshAttemptedAt.value
         && (!r.lastRefreshWasAuthRecovery && r.lastRefreshAttemptedAt.value - r.starts[i].at < min ==>
               i == |r.starts| - 1 && r.starts[i].driver.Routine?)
  }

  ghost predicate RatesOk(min: int, r: Refresher) {
    SingleFlight(r) && Spaced(min, r.starts) && StampCovers(min, r)
  }

  lemma OutstandingAfter(faults: set<nat>, r: Refresher, driver: Driver)
    requires SingleFlight(r)
    ensures SingleFlight(RefreshOnce(faults, r, driver).0)
    ensures RefreshOnce(faults, r, driver).1 < |RefreshOnce(faults, r, driver).0.starts|
  {
    var t := RefreshOnce(faults, r, driver).0;
    if r.refreshInFlight.Some? {
      assert r.refreshInFlight.value in Outstanding(r);
    } else {
      assert forall f :: f in Outstanding(t) ==> f == |r.starts| || f in Outstanding(r);
    }
  }

  lemma RoutineKeeps(min: int, faults: set<nat>, r: Refresher)
    requires RatesOk(min, r) && !InsideWindow(min, r)
    ensures RatesOk(min, RoutineRefresh(faults, r).0)
    ensures RoutineRefresh(faults, r).1 < |RoutineRefresh(faults, r).0.starts|
  {
    OutstandingAfter(faults, Stamp(r, false), Routine);
  }

  lemma AuthKeeps(min: int, faults: set<nat>, r: Refresher)
    requires RatesOk(min, r) && r.refreshInFlight.None? && !Storm(min, r)
    ensures RatesOk(min, AuthRefresh(faults, r))
  {
    OutstandingAfter(faults, Stamp(r, true), AuthDriven);
  }

  lemma ResumeKeeps(min: int, r: Refresher, flight: nat)
    requires RatesOk(min, r)
    ensures RatesOk(min, r.(recoveries := r.recoveries - {flight}))
  {
    var t := r.(recoveries := r.recoveries - {flight});
    assert Outstanding(t) == Outstanding(r);
  }

  lemma SettleKeeps(min: int, r: Refresher, outcome: Outcome)
    requires RatesOk(min, r)
    ensures RatesOk(min, Settle(r, outcome))
  {
    if r.refreshInFlight.Some? {
      var t := Settle(r, outcome);
      assert r.refreshInFlight.value in Outstanding(r);
      assert forall f :: f in Outstanding(t) ==> f !in t.outcomes && f in Outstanding(r);
      assert Outstanding(t) == {};
    }
  }

  // ---------- the fields of ReconnectManager and TokenRefreshHandler behind it ----------

  /** The mutable form; every method is tied to the function of the same meaning above. */
  class RefreshGate {
    const minRefreshIntervalMs: int
    const faults: set<nat>
    var clock: int
    var refreshInFlight: Option<nat>
    var lastRefreshAttemptedAt: Option<int>
    var lastRefreshWasAuthRecovery: bool
    var recoveries: set<nat>
    var outcomes: map<nat, Outcome>
    var starts: seq<Start>

    ghost function Value(): Refresher
      reads this
    {
      Refresher(clock, refreshInFlight, lastRefreshAttemptedAt, lastRefreshWasAuthRecovery, recoveries, outcomes, starts)
    }

    constructor (minRefreshIntervalMs: int, faults: set<nat>)
      ensures Value() == UNUSED
      ensures this.minRefreshIntervalMs == minRefreshIntervalMs && this.faults == faults
    {
      this.minRefreshIntervalMs, this.faults := minRefreshIntervalMs, faults;
      clock, refreshInFlight, lastRefreshAttemptedAt, lastRefreshWasAuthRecovery := 0, None, None, false;
      recoveries, outcomes, starts := {}, map[], [];
    }

    method IsInsideWindow() returns (inside: bool)
      ensures inside <==> InsideWindow(minRefreshIntervalMs, Value())
    {
      inside := match lastRefreshAttemptedAt
        case None => false
        case Some(at) => clock - at < minRefreshIntervalMs;
    }

    method RefreshTokenOnce(driver: Driver) returns (flight: nat)
      modifies this
      ensures (Value(), flight) == RefreshOnce(faults, old(Value()), driver)
    {
      if refreshInFlight.Some? {
        return refreshInFlight.value;
      }
      flight := |starts|;
      starts := starts + [Start(clock, driver)];
      if flight in faults {
        outcomes := outcomes[flight := Rejected];
      } else {
        refreshInFlight := Some(flight);
      }
    }

    /** The stamp precedes the call, so a concurrent trigger already sees it. */
    method BeginRoutine() returns (flight: nat)
      modifies this
      ensures (Value(), flight) == RoutineRefresh(faults, old(Value()))
    {
      lastRefreshAttemptedAt := Some(clock);
      lastRefreshWasAuthRecovery := false;
      flight := RefreshTokenOnce(Routine);
    }

    method BeginAuthRecovery()
      modifies this
      ensures Value() == AuthRefresh(faults, old(Value()))
    {
      lastRefreshAttemptedAt := Some(clock);
      lastRefreshWasAuthRecovery := true;
      var flight := RefreshTokenOnce(AuthDriven);
      recoveries := recoveries + {flight};
    }

    method ProviderSettles(outcome: Outcome)
      modifies this
      ensures Value() == Settle(old(Value()), outcome)
    {
      if refreshInFlight.Some? {
        outcomes := outcomes[refreshInFlight.value := outcome];
        refreshInFlight := None;
      }
    }
  }
}
