# Verification model of the orpc-ws stack

A Dafny model of the stateful parts of the repository, with proofs of what they
keep in every run. `dafny verify dfyconfig.toml` checks all of it.

## What is modelled

**The browser client.** `ClientModel` is one client as a value: connection
state, socket holder, the latches of `ClientLifecycle` and `ReconnectManager`,
the swap mutex, the refresh machinery (`RefreshGuard`), the waiters of
`reconnect()` (`ReconnectQueue`) and the wrappers out there. An `async` method
is one function up to its first `await` and one function per continuation;
`Step` lets the environment choose the next event and how much time passes.
Consumer code runs inside the client's own synchronous calls (state observers,
`onEvent`, the terminal callback, the listeners of a closing socket) and may
call `connect()` and `dispose()` there, to any depth, as a script of calls
dictates. `OrpcWsClients` is the same client as an object with mutable fields;
each method equals the function of the same meaning, so the theorems hold of the
object (`OrpcWsClients.Live`). `ClientTheorems`, `ClientRates`, `ClientGiveUp`,
`ClientProgress`, `ClientHolding`, `ClientSilence`, `ClientAbandonment`,
`ClientTriggers`, `ClientQuietTurns` and `ClientRecovery` hold the results about
runs, `ClientWitnesses` the runs in which the code does something its comments
say it does not.

**Heartbeat.** `HeartbeatSubscribers` (generations, await barrier, retry chain)
with `HeartbeatClients` as its object, the watchdog in `HeartbeatMonitors`, and
in `HeartbeatDeliveries` what reaches the one of the other.

**Sessions.** `Sessions`: the per-session single flight of `RefreshManager` and
both tiers of `slideSessionWindow` racing over one store, against a provider that
kills a refresh token when it issues the next. `SessionRaces` says which
interleavings do harm, `SessionDeletions` which bring a deleted session back,
`SessionOutcomes` how a refresh ends. `SessionServers` is the object.

**One socket, two channels.** `Channels` (codec, on contents and on buffers in
memory), `ListenerRegistries` (dispatch as a stack of walks, so that listeners
may do anything, emits included; `ListenerRegistrations` says who is registered),
`SocketMultiplexers`, `BidiTeardown` (event-loop tasks and microtasks).

**Printers and parsers.** `TokenCiphers`, `Cookies`, `PkceStores`,
`EndpointRewrites`.

## Where code and comments differ

The model follows the code.

- `packages/orpc-ws-client/src/auth/token-provider.ts:10-12` promises a provider
  at most one `refresh()` per window. A routine refresh may be followed by one
  auth-driven refresh inside it. `ClientRates.RefreshPerWindow` says exactly
  when the promise is kept, `ClientWitnesses.TwoRefreshesInOneWindow` shows a run
  in which it is not.
- `connect()` does not look again after its `connecting` notification
  (`packages/orpc-ws-client/src/lifecycle/client-lifecycle.ts:274-281`).
  Death is absorbing if and only if the consumer never disposes there
  (`ClientAbandonment.DeathIsAbsorbing`; `ClientAbandonment.TurnAbandonsIff` says
  which turns those are).
- A client without a provider that is disposed inside the `disconnected`
  notification of a 1008 or 4001 is told of the terminal failure all the same
  (`ClientGiveUp.DeadAreToldIff`, `ClientWitnesses.DisposedAndThenTold`).
- `packages/orpc-ws-client/src/state/types.ts:26-27` keeps `disconnected` without
  retry for terminal teardowns. A live client shows it before its first
  `connect()`, and an upload 401 then can make it dial.
  `ClientSilence.HoldsUnaskedIff` is the exact condition,
  `ClientWitnesses.UploadRejectionDialsUnasked` a run. In the code the sleep
  detector starts in `connect()` and heartbeats need a socket, so of the prompts
  in `ClientSilence.HeldBecausePrompted` only the upload can come that early.
- `packages/orpc-ws-client/src/heartbeat/subscriber.ts:223-225` promises a single
  live consumption loop. A loop released by `drop()` keeps driving the monitor
  until its stream ends, and a second `subscribe()` can overtake the barrier that
  waits for it. `HeartbeatRaces.OneDriverByCalls` is the exact condition,
  `HeartbeatRaces.OneDriverIff` where links may throw.
- `abort()` and `drop()` do not reach a `subscribe()` that waits at the barrier;
  its loop starts after the stop. `HeartbeatTheorems.StopIsFinalIff` is the exact
  condition.
- `packages/orpc-ws-shared/src/listener-registry.ts:40-43` calls a `once` listener
  single-fire. A nested emit can run it twice; `ListenerRegistries.OnceIff` is the
  exact condition.
- `packages/orpc-ws-cookie-bff/src/session-slide.ts:92-97` says the fallback does
  not resurrect a deleted session. It does when the deletion falls between its
  read and its write, and nothing stores the session after it
  (`SessionDeletions.SlidesResurrectIff`, and a run in
  `SessionTheorems.FallbackResurrects`).
- `packages/orpc-ws-cookie-bff/src/oidc/pkce-store.ts:43-49` speaks of sweeping on
  `set` and `take`; only `set` sweeps. No caller can tell (`PkceStores.StoredIsPending`).

## Assumptions about the outside

- Time never goes back. Timers never fire early; they may fire late, except in
  `HeartbeatMonitors.FiresInTime`, which is about runs with punctual timers.
- `tokenProvider.refresh()` does not call the client back synchronously, and `getToken()` does not throw.
- A wrapper delivers its close event synchronously from `close()`; on a wrapper
  whose native socket has just closed (the 4005 path) `close()` delivers nothing.
- A store operation and a token exchange take effect at one moment each.
- AES-256-GCM, base64url, UTF-8, percent-encoding and `URL.origin` are parameters
  of which only the stated round trips (`Sound`) are used.

## Model

| member | source | states |
|---|---|---|
| ClientGiveUp.GiveUpIsJustified | packages/orpc-ws-client/src/reconnect/reconnect-manager.ts:325-468 | Whenever the consumer was told of a terminal failure, some earlier turn gave a reason: a 1008 or 4001 on the held socket, or (with a provider) an upload 401, a failed refresh or a throw. Pre-open closes, timeouts, heartbeats and wakes never suffice, in any number |
| ClientGiveUp.GivesUpWhenDue | packages/orpc-ws-client/src/reconnect/reconnect-manager.ts:374-467 | The converse, exact: in any run the consumer is told, the first and only time, in exactly those turns that find auth beyond repair: the credential rejected again in a storm (socket or upload), a recovery or a pass whose refresh brought no token or whose dial threw, a rejection without a provider |
| ClientGiveUp.TerminalTurnIff | packages/orpc-ws-client/src/index.ts:620-664 | The same for one turn from any state, whatever the consumer calls in it |
| ClientGiveUp.PlainlyBeyondRepair | packages/orpc-ws-client/src/reconnect/reconnect-manager.ts:366-467 | In any run, for a client not stopped and a turn without consumer calls, exact in terms of the state before the turn: a held socket rejected in a storm with no flight in the air (any time without a provider), an upload 401 likewise, or a recovery or pass that resumes with no token or whose constructor will throw; nothing else |
| ClientGiveUp.DeadAreToldIff | packages/orpc-ws-client/src/index.ts:640-652 | In any run the client is dead already when it is told in exactly these turns: no provider, the held socket closes with 1008 or 4001, and either the consumer had disposed of the client before the turn, or the turn shows a new `disconnected` state and the consumer calls `dispose()` before that notification returns |
| ClientGiveUp.HandleBlameless | packages/orpc-ws-client/src/index.ts:617-695 | Without a reason no event sets the terminal latch or leaves a failed refresh behind, whatever consumer code does meanwhile |
| ClientAbandonment.DeathIsAbsorbing | packages/orpc-ws-client/src/lifecycle/client-lifecycle.ts:103-344 | In every run, once the client is dead it constructs no socket, starts no refresh and shows only final states; this holds exactly in the runs in which no turn abandons the client |
| ClientAbandonment.TurnAbandonsIff | packages/orpc-ws-client/src/lifecycle/client-lifecycle.ts:274-281 | Which turns those are, from the state before the turn and its consumer calls: a `connect()` past its guards, called or made from a callback of a heartbeat, wake, upload 401 or swap, with a `dispose()` before the `connecting` notification returns |
| ClientAbandonment.NothingAfterDeath | packages/orpc-ws-client/src/reconnect/reconnect-manager.ts:268-270 | The same read forward from any dead moment of a run: same number of constructions and refreshes, no live socket, final state |
| ClientTheorems.TerminalAtMostOnce | packages/orpc-ws-client/src/lifecycle/client-lifecycle.ts:140-199 | The terminal callback runs once if the lifecycle latch is set and never otherwise, over both latches and every re-entrant callback |
| ClientTheorems.NoOrphanSockets | packages/orpc-ws-client/src/reconnect/token-refresh-handler.ts:314-436 | Between turns the un-closed wrappers are exactly the one in the holder, even when the consumer dials inside the close fan-out of a swap |
| ClientTheorems.StateIsTruthful | packages/orpc-ws-client/src/lifecycle/event-handlers.ts:164-303 | `connected` implies an un-closed held wrapper whose last event was an open; the attempt flag holds iff that is so; a dead client shows a final state; a final state means dead or nothing shown yet |
| ClientTheorems.RefreshRate | packages/orpc-ws-client/src/reconnect/reconnect-manager.ts:358-449 | At most one provider call is unsettled; two calls closer than the window are consecutive, routine then auth-driven; calls two apart are never closer than the window |
| ClientRates.RefreshPerWindow | packages/orpc-ws-client/src/auth/token-provider.ts:10-12 | The one-call-per-window promise made to providers holds in exactly the runs in which no turn enters auth recovery (1008, 4001 or pre-open 1000 on the held socket, or an upload 401) unstopped, with no flight in the air and no storm, while the last provider call is younger than the window |
| ClientRates.TurnCalls | packages/orpc-ws-client/src/reconnect/reconnect-manager.ts:366-449 | Any turn makes at most one provider call, and makes it too soon exactly when it is such a turn; a routine refresh never does |
| ClientHolding.NobodyInLimbo | packages/orpc-ws-client/src/reconnect/token-refresh-handler.ts:370-432 | In any run a live client holds exactly the wrapper its last constructor call returned, un-closed; so one that has shown a state holds none if and only if that call threw |
| ClientHolding.CallbackOutlives | packages/orpc-ws-client/src/lifecycle/client-lifecycle.ts:229-281 | Whatever the consumer does in a callback, a client that survives it is unchanged, or would have connected before it and now holds what it built last |
| ClientSilence.HoldsUnaskedIff | packages/orpc-ws-client/src/reconnect/token-refresh-handler.ts:370-432 | In any run, a live client that shows `disconnected` without retry comes to hold a socket iff some turn swaps the socket of a client that has shown nothing and holds nothing (a recovery or pass resumes with a fresh token, or the jitter of a pass ends with no provider or inside the window) and its constructor does not throw |
| ClientSilence.TurnDialsIff | packages/orpc-ws-client/src/reconnect/token-refresh-handler.ts:297-432 | The same for one turn, whatever the consumer calls in it |
| ClientSilence.HeldBecausePrompted | packages/orpc-ws-client/src/index.ts:774-783 | It takes a prompt while nothing has been shown: an upload 401 with a provider, or (in the model) a wake or a missed heartbeat |
| ClientSilence.SilentIff | packages/orpc-ws-client/src/state/types.ts:26-27 | In any run, a live client shows that it will not retry if and only if it has shown nothing yet |
| ClientHolding.OneOutcome | packages/orpc-ws-client/src/reconnect/token-refresh-handler.ts:215-245 | An outcome once recorded for a flight never changes, so all its drivers see the same |
| ClientTheorems.WaitersAreServed | packages/orpc-ws-client/src/reconnect/reconnect-manager.ts:518-762 | Every `reconnect()` promise is in exactly one of pending, the pass, trailing and settled; it is settled once, and while the client lives only by a pass that began after the call; timer and rerun flags agree with who waits |
| ClientProgress.WaitersSettle | packages/orpc-ws-client/src/reconnect/reconnect-manager.ts:606-762 | Liveness: over any continuation (closes, opens, `connect()`, `dispose()`, recoveries, consumer calls in between) the environment has at most `Work` owed events to serve and 10 more per missed heartbeat or wake; and whenever none is owed every waiter has been settled, once |
| ClientProgress.TurnWork | packages/orpc-ws-client/src/reconnect/reconnect-manager.ts:518-549 | Any turn from any orderly state adds at most the work of one `reconnect()` call, only a missed heartbeat or a wake adds any, and an owed event removes some |
| ClientProgress.DueShrinks | packages/orpc-ws-client/src/reconnect/reconnect-manager.ts:538-548 | Every owed event (debounce, jitter, settled refresh, resumed pass) lowers the remaining work, whatever the consumer does in it |
| ClientRecovery.RejectionIsRecovered | packages/orpc-ws-client/src/reconnect/reconnect-manager.ts:433-467 | From every reachable live state free to refresh: rejection, token delivered, continuation, open lead to `connected` over one new socket carrying that token, with nobody told of a failure |
| ClientRecovery.MissedHeartbeatIsRecovered | packages/orpc-ws-client/src/reconnect/reconnect-manager.ts:636-748 | From every reachable idle connected state: heartbeat timeout, timers, refresh, open lead to `connected` over one new socket with the fresh token, and the waiter is served |
| ClientRecovery.QuietSwap | packages/orpc-ws-client/src/reconnect/token-refresh-handler.ts:314-436 | A swap on a live client closes the old wrapper, holds exactly the next one with the given token and leaves waiters and history alone |
| ClientRuns.SwapQuiet | packages/orpc-ws-client/src/reconnect/token-refresh-handler.ts:297-436 | With arbitrary re-entrant consumer calls: the old wrapper is closed, and a surviving client holds a wrapper unless the constructor threw |
| ClientRuns.StaleEventsIgnored | packages/orpc-ws-client/src/lifecycle/event-handlers.ts:164-178 | Open and close of a wrapper the holder does not name change only what is known of that wrapper |
| ClientRuns.HandleQuiet | packages/orpc-ws-client/src/index.ts:617-744 | Every event keeps sockets, shown state and death in order, between turns |
| ClientSockets.CallbackKeeps | packages/orpc-ws-client/src/lifecycle/client-lifecycle.ts:229-344 | What any sequence of re-entrant `connect()` and `dispose()` calls can do from the middle of any operation: no new orphan, no resurrection, no dial past a taken holder |
| ClientSockets.ShutKeeps | packages/orpc-ws-client/src/lifecycle/client-lifecycle.ts:318-338 | Both teardowns end with no live wrapper and the final state shown, even if the close fan-out re-enters |
| ClientWitnesses.DisposeWhileConnectingDials | packages/orpc-ws-client/src/lifecycle/client-lifecycle.ts:274-281 | A run in which `dispose()` from the `connecting` notification leaves a disposed client with a live socket that shows `connected` |
| ClientWitnesses.UploadRejectionDialsUnasked | packages/orpc-ws-client/src/index.ts:774-783 | A run in which an upload 401 before the first `connect()` dials while the client shows that it will not retry |
| ClientWitnesses.TwoRefreshesInOneWindow | packages/orpc-ws-client/src/reconnect/reconnect-manager.ts:366-369 | Connect, open, a minute of sleep, the routine refresh and its dial, and an upload 401 a second later: two provider calls 1.2 seconds apart |
| ClientWitnesses.DisposedAndThenTold | packages/orpc-ws-client/src/index.ts:643-652 | A run in which a client without a provider is disposed inside the `disconnected` notification of a 4001 and told of the failure all the same |
| CloseDecisions.DecideClose | packages/orpc-ws-client/src/lifecycle/close-decision.ts:134-176 | Ignored iff stale; replaced iff current and 4005; an auth close iff current and 1008 or 4001; a pre-open recovery iff current, 1000, never opened and not a connection timeout |
| CloseDecisions.OrdinaryCloses | packages/orpc-ws-client/src/lifecycle/close-decision.ts:134-176 | Exactly which codes and reasons of a current wrapper are ordinary churn |
| ConnectionStates.StatesEqual | packages/orpc-ws-client/src/state/types.ts:75-88 | The field-wise comparison is equality of states |
| ConnectionStates.ConnectionStateManager.SetState | packages/orpc-ws-client/src/state/connection-state.ts:47-82 | The frames observers see are the old ones plus the new state if and only if it differs |
| WebSocketHolders.WebSocketHolder.Set | packages/orpc-ws-client/src/state/websocket-holder.ts:39-43 | A new wrapper starts a new, unopened attempt and keeps the token |
| WebSocketHolders.WebSocketHolder.Clear | packages/orpc-ws-client/src/state/websocket-holder.ts:45-49 | Wrapper, token and attempt flag go together |
| ReconnectQueue.EnqueueKeeps | packages/orpc-ws-client/src/reconnect/reconnect-manager.ts:518-549 | A `reconnect()` call adds exactly one waiter, or settles it at once on a stopped client, and keeps the whole invariant |
| ReconnectQueue.StartKeeps | packages/orpc-ws-client/src/reconnect/reconnect-manager.ts:606-646 | The entry of a pass moves its waiters to exactly one place: served by it, parked for the rerun, or released |
| ReconnectQueue.DebounceKeeps | packages/orpc-ws-client/src/reconnect/reconnect-manager.ts:540-548 | The debounce firing hands every pending waiter on and disarms |
| ReconnectQueue.FinishKeeps | packages/orpc-ws-client/src/reconnect/reconnect-manager.ts:733-748 | The end of a pass settles exactly its waiters, and the trailing rerun takes exactly the parked ones |
| ReconnectQueue.DisposalKeeps | packages/orpc-ws-client/src/reconnect/reconnect-manager.ts:565-599 | Disposal keeps every waiter in exactly one place and the timers in agreement with who waits |
| ClientTriggers.DisposedReleasesAll | packages/orpc-ws-client/src/reconnect/reconnect-manager.ts:565-599 | In every run the manager is disposed iff the client is; then no debounce or jitter timer is armed, nobody is pending or parked, no rerun is due, and every promise but those of the pass in flight has been resolved, once |
| ReconnectQueue.WaiterQueue.Reconnect | packages/orpc-ws-client/src/reconnect/reconnect-manager.ts:518-549 | The mutable queue after the call is the enqueued one |
| ReconnectQueue.WaiterQueue.RunReconnect | packages/orpc-ws-client/src/reconnect/reconnect-manager.ts:606-646 | The mutable queue after the entry of a pass, for all three branches |
| ReconnectQueue.WaiterQueue.FinishPass | packages/orpc-ws-client/src/reconnect/reconnect-manager.ts:733-748 | The mutable queue after the `finally`, trailing rerun included |
| ReconnectQueue.WaiterQueue.SettleAll | packages/orpc-ws-client/src/reconnect/reconnect-manager.ts:607-609 | The loop over the resolvers settles each of them once |
| ReconnectQueue.WaiterQueue.Dispose | packages/orpc-ws-client/src/reconnect/reconnect-manager.ts:565-599 | The mutable queue after disposal; a second call changes nothing |
| RefreshGuard.RoutineKeeps | packages/orpc-ws-client/src/reconnect/reconnect-manager.ts:682-710 | A routine refresh outside the window keeps single flight, spacing and the stamp |
| RefreshGuard.AuthKeeps | packages/orpc-ws-client/src/reconnect/reconnect-manager.ts:366-440 | An auth-driven refresh past the storm guard keeps them too, even inside a routine stamp |
| RefreshGuard.SettleKeeps | packages/orpc-ws-client/src/reconnect/token-refresh-handler.ts:229-245 | Settling empties the set of outstanding calls |
| RefreshGuard.RefreshGate.RefreshTokenOnce | packages/orpc-ws-client/src/reconnect/token-refresh-handler.ts:229-245 | Joins the flight in the air, or makes exactly one provider call, throwing or not |
| RefreshGuard.RefreshGate.BeginRoutine | packages/orpc-ws-client/src/reconnect/reconnect-manager.ts:699-711 | Stamp first, then the call |
| RefreshGuard.RefreshGate.BeginAuthRecovery | packages/orpc-ws-client/src/reconnect/reconnect-manager.ts:433-442 | Stamp with provenance first, then the call |
| OrpcWsClients.OrpcWsClient.Connect | packages/orpc-ws-client/src/lifecycle/client-lifecycle.ts:229-287 | The object after `connect()` with any re-entrant consumer calls is the model step |
| OrpcWsClients.OrpcWsClient.Dispose | packages/orpc-ws-client/src/lifecycle/client-lifecycle.ts:294-344 | Latch, manager, holder, close, final state, in that order, re-entrancy included |
| OrpcWsClients.OrpcWsClient.FireTerminalAuthFailure | packages/orpc-ws-client/src/lifecycle/client-lifecycle.ts:140-199 | Latch, holder, close, final state, announcement, re-entrancy included |
| OrpcWsClients.OrpcWsClient.SwapSocket | packages/orpc-ws-client/src/reconnect/token-refresh-handler.ts:297-436 | Clear before close, both re-checks, the mutex and the throwing constructor |
| OrpcWsClients.OrpcWsClient.TryAuthRecovery | packages/orpc-ws-client/src/reconnect/reconnect-manager.ts:325-442 | Stopped, join, storm by trigger, or stamp and refresh |
| OrpcWsClients.OrpcWsClient.ResumeRecovery | packages/orpc-ws-client/src/reconnect/reconnect-manager.ts:444-467 | The continuation: swap, re-check, give up |
| OrpcWsClients.OrpcWsClient.Reconnect | packages/orpc-ws-client/src/reconnect/reconnect-manager.ts:518-549 | The object after `reconnect()` is the model step |
| OrpcWsClients.OrpcWsClient.AfterJitter | packages/orpc-ws-client/src/reconnect/reconnect-manager.ts:647-710 | Stopped, no provider, inside the window, or refresh |
| OrpcWsClients.OrpcWsClient.ResumePass | packages/orpc-ws-client/src/reconnect/reconnect-manager.ts:646-748 | Both continuations of a pass and its `finally` |
| OrpcWsClients.OrpcWsClient.HandleOpen | packages/orpc-ws-client/src/lifecycle/event-handlers.ts:164-189 | Stale opens change nothing; a current one marks the attempt and shows `connected` |
| OrpcWsClients.OrpcWsClient.HandleClose | packages/orpc-ws-client/src/lifecycle/event-handlers.ts:191-303 | Flag read and reset, decision, dispatch by kind |
| OrpcWsClients.OrpcWsClient.OnAuthRecoveryNeeded | packages/orpc-ws-client/src/index.ts:620-664 | Without a provider only an explicit rejection is terminal |
| OrpcWsClients.OrpcWsClient.OnHeartbeatTimeout | packages/orpc-ws-client/src/index.ts:698-722 | State is re-read after the consumer was told, then reconnect |
| OrpcWsClients.OrpcWsClient.OnWake | packages/orpc-ws-client/src/index.ts:731-741 | The object after a wake is the model step: the consumer is told, and `reconnect()` called unless kicked |
| ClientTriggers.ReconnectsIff | packages/orpc-ws-client/src/index.ts:698-741 | In every run a wake makes exactly one `reconnect()` call, in whatever state, unless the client shows that it was kicked; a missed heartbeat one, unless it showed that before; no other event any. The promise waits behind the pending ones with the debounce timer armed, and is resolved at once on a client that is stopped |
| ClientQuietTurns.QuietTurnShows | packages/orpc-ws-client/src/lifecycle/event-handlers.ts:164-303 | In any run, for a turn without consumer calls: which state is shown (4005, the close code, retrying), which token is carried, and whether a wrapper is built, for every event |
| ClientQuietTurns.QuietTurnAsks | packages/orpc-ws-client/src/reconnect/reconnect-manager.ts:325-449 | In any run, for a turn without consumer calls: exactly which events call the provider, as what, with which stamp, the window and the codes 1008, 4001 and pre-open 1000 spelled out; a pass starts or joins a refresh and awaits that flight |
| ClientQuietTurns.SettlesAsDelivered | packages/orpc-ws-client/src/reconnect/token-refresh-handler.ts:215-245 | What the provider delivers is recorded for the flight in the air |
| ClientQuietTurns.HeartbeatRereads | packages/orpc-ws-client/src/index.ts:707-720 | A consumer that disposes of a connected client when told of a missed heartbeat is shown the final state and no other |
| OrpcWsClients.OrpcWsClient.OnUpload401 | packages/orpc-ws-client/src/index.ts:774-783 | Wired only with a provider; tells the consumer, then recovers |
| OrpcWsClients.Live | packages/orpc-ws-client/src/index.ts:533-722 | A constructed object driven by any inputs is the run of the model, so every result above holds of it; absorption holds iff no turn abandons the client |
| HeartbeatTheorems.LoopIsOwned | packages/orpc-ws-client/src/heartbeat/subscriber.ts:229-303 | In every run the only unfinished loop that was neither aborted nor dropped is the one in `abortController`; `abort()` and `drop()` leave none |
| HeartbeatTheorems.AbortedIsSilent | packages/orpc-ws-client/src/heartbeat/subscriber.ts:433-480 | A loop whose signal is aborted makes no further monitor call, in every continuation |
| HeartbeatTheorems.RetriesAreBounded | packages/orpc-ws-client/src/heartbeat/subscriber.ts:229-241 | A public subscribe starts at most 1 + maxRetries loops; an armed retry is of the newest generation and never coexists with the dropped flag |
| HeartbeatTheorems.FailureIsRetriedIff | packages/orpc-ws-client/src/heartbeat/subscriber.ts:482-524 | A failing stream is retried iff it was live, had no config yet and has budget; the retry runs the next generation with one try less |
| HeartbeatRaces.OneDriverByCalls | packages/orpc-ws-client/src/heartbeat/subscriber.ts:223-225 | While every link call reaches its first await: at every moment at most one loop drives the monitor, iff no two public subscribes come between the drop of a live loop and the end of its stream |
| HeartbeatRaces.OneDriverIff | packages/orpc-ws-client/src/heartbeat/subscriber.ts:262-303 | With throwing links too: at every moment at most one loop drives the monitor, iff no turn starts a loop whose link call gets under way (a subscribe or retry that finds no loop at the barrier, or the newest subscribe past it) while a dropped loop still drives |
| HeartbeatTheorems.StopIsFinalIff | packages/orpc-ws-client/src/heartbeat/subscriber.ts:328-404 | After `abort()` or `drop()` no loop starts until the next public subscribe, whatever happens, iff no subscribe of the newest generation waits at the barrier |
| HeartbeatTheorems.TwoDrivers | packages/orpc-ws-client/src/heartbeat/subscriber.ts:268-275 | A run in which a dropped loop and a newer one both drive the monitor |
| HeartbeatTheorems.LostStop | packages/orpc-ws-client/src/heartbeat/subscriber.ts:248-289 | A run in which a `drop()` is overtaken by a suspended subscribe |
| HeartbeatSubscribers.SubscribeKeeps | packages/orpc-ws-client/src/heartbeat/subscriber.ts:243-303 | Claiming a generation, stopping the loop before it, then suspending or starting keeps ownership, chain and timer in order |
| HeartbeatSubscribers.FailKeeps | packages/orpc-ws-client/src/heartbeat/subscriber.ts:482-543 | So do catch and finally of a loop, and the retry they may arm |
| HeartbeatSubscribers.StepKeeps | packages/orpc-ws-client/src/heartbeat/subscriber.ts:229-589 | So does every event |
| HeartbeatClients.HeartbeatSubscriber.SubscribeWithRetryBudget | packages/orpc-ws-client/src/heartbeat/subscriber.ts:243-303 | The object after the synchronous part is the model step |
| HeartbeatClients.HeartbeatSubscriber.Resume | packages/orpc-ws-client/src/heartbeat/subscriber.ts:262-303 | The continuation behind the barrier: superseded calls yield |
| HeartbeatClients.HeartbeatSubscriber.Abort | packages/orpc-ws-client/src/heartbeat/subscriber.ts:328-335 | Timer, signal and controller field |
| HeartbeatClients.HeartbeatSubscriber.Drop | packages/orpc-ws-client/src/heartbeat/subscriber.ts:373-404 | Flag, timer and controller field, no signal |
| HeartbeatClients.HeartbeatSubscriber.Deliver | packages/orpc-ws-client/src/heartbeat/subscriber.ts:461-480 | An aborted loop leaves before it touches the monitor; config and ping reach it as configure+start and recordPing |
| HeartbeatClients.HeartbeatSubscriber.CatchStreamError | packages/orpc-ws-client/src/heartbeat/subscriber.ts:482-543 | Expected exit, post-config failure or retry, then the guarded detaching |
| HeartbeatClients.HeartbeatSubscriber.RetryTimerFires | packages/orpc-ws-client/src/heartbeat/subscriber.ts:574-581 | Generation checked at fire time |
| HeartbeatClients.Live | packages/orpc-ws-client/src/heartbeat/subscriber.ts:229-589 | A subscriber driven by any events is the run of the model, and its monitor has received what the reading, unaborted loops were delivered, in order |
| HeartbeatDeliveries.SubscriptionsGetThrough | packages/orpc-ws-client/src/heartbeat/subscriber.ts:229-303 | In any run a public subscribe takes back a drop and calls the link: at once if there is no loop, as soon as the loop before it has ended otherwise |
| HeartbeatDeliveries.LoopGetsThrough | packages/orpc-ws-client/src/heartbeat/subscriber.ts:445-480 | In any run, once the stream of a live loop opens, its configuration sets interval, timeout, baseline and poll of the monitor, and a ping resets baseline and latch |
| HeartbeatDeliveries.EndsQuietly | packages/orpc-ws-client/src/heartbeat/subscriber.ts:482-543 | In any run a stream that ends leaves the fields and arms no retry |
| HeartbeatMonitors.FiresInTime | packages/orpc-ws-client/src/heartbeat/monitor.ts:137-246 | With punctual timers, while polling is armed and the open window has not been reported, its ping is at most window plus poll period old; and no report is later than that |
| HeartbeatMonitors.FiresAfterDeadline | packages/orpc-ws-client/src/heartbeat/monitor.ts:220-228 | In every run nothing fires while the last ping is within interval plus timeout |
| HeartbeatMonitors.FiresIff | packages/orpc-ws-client/src/heartbeat/monitor.ts:220-246 | In every run a firing is added exactly when a due poll, started and not stopped since, finds that the last ping or configuration in the events is older than the configured interval plus timeout and that the last firing was answered; it records those numbers |
| HeartbeatMonitors.FiresOncePerWindow | packages/orpc-ws-client/src/heartbeat/monitor.ts:105-112 | Over any events without ping or configure the watchdog fires at most once, and not at all if it had fired |
| HeartbeatMonitors.Live | packages/orpc-ws-client/src/heartbeat/monitor.ts:118-246 | A monitor driven by any events is the run of the model |
| HeartbeatMonitors.HeartbeatMonitor.PollTick | packages/orpc-ws-client/src/heartbeat/monitor.ts:220-246 | Tick, latch and firing as in the model; tells whether it fired |
| HeartbeatMonitors.HeartbeatMonitor.SetWindow | packages/orpc-ws-client/src/heartbeat/monitor.ts:137-147 | Window, baseline and latch |
| HeartbeatMonitors.HeartbeatMonitor.StartPolling | packages/orpc-ws-client/src/heartbeat/monitor.ts:156-174 | Restarts the poll, or none without a window |
| SessionRaces.RotationSafetyIff | packages/orpc-ws-cookie-bff/src/oidc/refresh.ts:72-143 | Against a provider that never goes back to an old token: over all interleavings the stored refresh token of every session is honoured at every moment outside exchange-to-write, iff no write of a rotated token is rejected and no answer with one lost, and no touch-less slide overwrites after a rotating exchange fell between its read and its write, or its read between such an exchange and its write, with no flight about to write |
| SessionRaces.HarmlessIsSafe | packages/orpc-ws-cookie-bff/src/oidc/refresh.ts:9-15 | That those events suffice needs nothing of the provider; and without them no refresh is ever refused for a spent token |
| SessionRaces.LandsSpentIff | packages/orpc-ws-cookie-bff/src/session-slide.ts:88-100 | What a landing slide holds is spent exactly when its session rotated since it read |
| SessionTheorems.HonouredUntilRecorded | packages/orpc-ws-cookie-bff/src/oidc/refresh.ts:110-142 | The history sets record the first moment at which a stored token is not honoured |
| SessionRaces.TouchIsSafe | packages/orpc-ws-cookie-bff/src/session-slide.ts:76-86 | On a store with `touch`, if writes succeed and answers arrive, every stored token is honoured throughout any interleaving and no refresh is refused |
| SessionRaces.TouchLosesIff | packages/orpc-ws-cookie-bff/src/session-slide.ts:76-86 | With `touch`, exactly a lost rotation breaks that |
| SessionTheorems.NoSelfLogout | packages/orpc-ws-cookie-bff/src/oidc/refresh.ts:9-15 | On any store, before the first disturbance no refresh presents a spent token and every session keeps its identity |
| SessionDeletions.SlidesResurrectIff | packages/orpc-ws-cookie-bff/src/session-slide.ts:73-100 | After any run, a slide changes the set of stored sessions iff the touch-less fallback writes, its session was deleted since its read, and nothing stored it after that; it then adds exactly that session. `touch` changes the expiry of present sessions only |
| SessionDeletions.GoneIff | packages/orpc-ws-cookie-bff/src/session-store.ts:105-155 | In any run, a session once stored is gone iff it was deleted since, and no login, flight or slide stored it after that |
| SessionTheorems.RefreshRenews | packages/orpc-ws-cookie-bff/src/oidc/refresh.ts:110-128 | A granted and stored refresh holds the new tokens, the old refresh token if none came, both expiries from the exchange, the profile as read, and leaves other sessions alone |
| SessionOutcomes.RefreshEndsIff | packages/orpc-ws-cookie-bff/src/oidc/refresh.ts:84-142 | Which event settles a refresh and how, from any state: terminal iff the session is unknown, has no refresh token or one that does not open, or the endpoint answers 400 to 499 or refuses a spent token; transient iff any other status, no answer, a lost answer or a rejected write; no failure touches the store |
| SessionOutcomes.ResultsHaveCauses | packages/orpc-ws-cookie-bff/src/oidc/refresh.ts:110-142 | In every run the result that the callers of a refresh get was settled so by one of those events |
| SessionOutcomes.RefreshBegins | packages/orpc-ws-cookie-bff/src/oidc/refresh.ts:73-108 | A call that finds none begins a refresh that presents the stored token; once over it gives way to the next |
| SessionTheorems.FallbackSlides | packages/orpc-ws-cookie-bff/src/session-slide.ts:73-100 | An undisturbed fallback slide sets the expiry to a TTL after its call, and does nothing to a session that is gone |
| SessionTheorems.LoginStores | packages/orpc-ws-cookie-bff/src/handlers/callback.ts:66-90 | A login stores its tokens under encryption with both expiries counted from now and leaves other sessions alone |
| SessionTheorems.TouchSlides | packages/orpc-ws-cookie-bff/src/session-slide.ts:73-86 | A touch slide sets the expiry to a TTL after its call however late it lands |
| SessionTheorems.FallbackRollsBack | packages/orpc-ws-cookie-bff/src/session-slide.ts:30-34 | A run in which the touch-less fallback rolls a rotation back and the next refresh ends the session |
| SessionTheorems.FallbackResurrects | packages/orpc-ws-cookie-bff/src/session-slide.ts:92-99 | A run in which a session deleted between the read and the write of the fallback is back in the store |
| Sessions.ExchangeKeeps | packages/orpc-ws-cookie-bff/src/oidc/refresh.ts:110-142 | Every answer of the token endpoint, lost ones included, keeps all sessions as safe as they were |
| Sessions.WriteKeeps | packages/orpc-ws-cookie-bff/src/oidc/refresh.ts:125-142 | So does the write, landing or rejected |
| Sessions.SlideLandsKeeps | packages/orpc-ws-cookie-bff/src/session-slide.ts:75-106 | So does the write of a slide, on both tiers |
| SessionServers.SessionServer.Refresh | packages/orpc-ws-cookie-bff/src/oidc/refresh.ts:72-83 | A second caller joins the flight of its session and changes nothing |
| SessionServers.SessionServer.FlightReads | packages/orpc-ws-cookie-bff/src/oidc/refresh.ts:85-108 | Unknown session, no refresh token, undecryptable token, or on to the exchange |
| SessionServers.SessionServer.FlightExchanges | packages/orpc-ws-cookie-bff/src/oidc/refresh.ts:110-142 | 4xx is terminal, the rest is not; a granted answer is merged over what the flight read |
| SessionServers.SessionServer.SlideWrite | packages/orpc-ws-cookie-bff/src/session-slide.ts:75-106 | `touch` or the merged overwrite |
| SessionServers.Live | packages/orpc-ws-cookie-bff/src/oidc/refresh.ts:58-143 | A server driven by any events is the run of the model |
| SessionCiphers.TokenCipherIsSound | packages/orpc-ws-cookie-bff/src/crypto/token-cipher.ts:116-212 | The token cipher is a cipher of the kind the session results ask for |
| Channels.TagRoundTrip | packages/orpc-ws-shared/src/channel.ts:79-149 | A raw frame untags to channel and frame iff it is their tagging, and is rejected iff it is nobody's |
| Channels.WireFormat | packages/orpc-ws-shared/src/channel.ts:32-60 | The tags on the wire: `>` and `<` before text, 62 and 60 before bytes |
| Channels.DemuxIsProjection | packages/orpc-ws-shared/src/socket-multiplexer.ts:146-193 | However sends and untagged frames interleave, each channel receives exactly what was sent on it in order, and the sink gets each other frame once |
| Channels.PrependByte | packages/orpc-ws-shared/src/channel.ts:79-84 | A fresh buffer holding the byte and the window of a view at any offset |
| Channels.TagFrame | packages/orpc-ws-shared/src/channel.ts:102-107 | Text and binary, in memory, equal the tagged contents; the input is not touched |
| Channels.UntagFrame | packages/orpc-ws-shared/src/channel.ts:131-149 | Agrees with the specification and aliases the input buffer |
| ListenerRegistries.EmitWalksItsSnapshot | packages/orpc-ws-shared/src/listener-registry.ts:51-65 | Whatever listeners add, remove, clear, throw or emit, a finished emit invoked exactly its starting snapshot in registration order, each entry once and with its event; a running one a prefix |
| ListenerRegistrations.SnapshotsHoldWhoIsRegistered | packages/orpc-ws-shared/src/listener-registry.ts:51-55 | The snapshot of every emit of a run holds exactly the registrations in force when it began, in the order of their additions, each once |
| ListenerRegistrations.RegisteredIff | packages/orpc-ws-shared/src/listener-registry.ts:16-35 | In every run exactly those listeners are registered that were added when they were not, with no removal of them, clearing, or `once` run of them since |
| ListenerRegistrations.NumberedInOrder | packages/orpc-ws-shared/src/listener-registry.ts:16-27 | Later additions come later |
| ListenerRegistries.EmitSinksThrows | packages/orpc-ws-shared/src/listener-registry.ts:59-63 | An emit hands the sink exactly its listeners that throw, once each and in order, emits nested in it their own |
| ListenerRegistries.EmittedReaches | packages/orpc-ws-shared/src/listener-registry.ts:51-65 | An emit with arbitrarily nested emits is a run of the steps, so all results about runs apply after it |
| ListenerRegistries.OnceIff | packages/orpc-ws-shared/src/listener-registry.ts:40-43 | When all emits are over, a `once` registration ran at most once iff no emit began while it was registered and already due in an enclosing one |
| ListenerRegistries.FlatIsSingleFire | packages/orpc-ws-shared/src/listener-registry.ts:40-43 | Where no listener causes an emit, a `once` registration has run at most once at any moment |
| ListenerRegistries.NestedEmitRunsOnceTwice | packages/orpc-ws-shared/src/listener-registry.ts:55-58 | A run with a nested emit in which a `once` listener runs twice |
| ListenerRegistries.ListenerRegistry.Emit | packages/orpc-ws-shared/src/listener-registry.ts:51-65 | The loop over a snapshot, with listeners that change the registry and emit on it to any depth, performs exactly the steps of the model |
| ListenerRegistries.ListenerRegistry.Add | packages/orpc-ws-shared/src/listener-registry.ts:23-27 | A duplicate keeps the first registration |
| ListenerRegistries.ListenerRegistry.Remove | packages/orpc-ws-shared/src/listener-registry.ts:29-31 | Removal by identity: that listener goes and every other stays |
| SocketMultiplexers.SocketMultiplexer.HandleMessage | packages/orpc-ws-shared/src/socket-multiplexer.ts:178-193 | Only the named channel's message registry emits, with the untagged payload; an unclassifiable frame reaches the sink once and no listener |
| SocketMultiplexers.SocketMultiplexer.AddChannelListener | packages/orpc-ws-shared/src/socket-multiplexer.ts:150-157 | Adding a listener for a channel and a type touches that registry and no other |
| SocketMultiplexers.SocketMultiplexer.RemoveChannelListener | packages/orpc-ws-shared/src/socket-multiplexer.ts:159-165 | Removing one likewise |
| SocketMultiplexers.SocketMultiplexer.SendOn | packages/orpc-ws-shared/src/socket-multiplexer.ts:146-148 | The tagged frame goes to the real socket, after what was sent before |
| SocketMultiplexers.SocketMultiplexer.FanOut | packages/orpc-ws-shared/src/socket-multiplexer.ts:206-212 | A lifecycle event is an emit on both channels and touches no other registry |
| SocketMultiplexers.SocketMultiplexer.Dispose | packages/orpc-ws-shared/src/socket-multiplexer.ts:126-140 | Detaches and clears all eight registries once; a second call changes nothing |
| SocketMultiplexers.Live | packages/orpc-ws-shared/src/socket-multiplexer.ts:146-193 | End to end: the message listeners of each channel are called with exactly the frames sent on it, in order, whatever they do meanwhile, and the sink gets every other frame once |
| SocketMultiplexers.SendAll | packages/orpc-ws-shared/src/socket-multiplexer.ts:146-148 | A sender puts on the wire exactly the tagged frames, in the order of the sends |
| BidiTeardown.CloseBeforeDispose | packages/orpc-ws-client/src/bidi/client-bidi.ts:204-219 | In every run a mux is disposed iff asked, cleared once, and its peers were told of the close exactly when the socket dispatched it no later than in the event-loop task of the first dispose call; then every close listener of both channels registered by that moment ran |
| BidiTeardown.EitherListenerOrder | packages/orpc-ws-server/src/bidi/connection-bidi.ts:126-135 | The order of the two real close listeners makes no difference to anything, whatever else the event-loop task does before and after |
| BidiTeardown.OneLiveMux | packages/orpc-ws-client/src/bidi/client-bidi.ts:142-195 | Between event-loop tasks every mux but the current one is disposed |
| BidiTeardown.CurrentMuxIsLive | packages/orpc-ws-client/src/bidi/client-bidi.ts:194-201 | In a client the facade handed to the link is that of a live mux |
| BidiTeardown.DisposedAsAsked | packages/orpc-ws-client/src/bidi/client-bidi.ts:142-219 | In every run exactly those muxes are disposed of that the actions ask for, by their own dispose, the coordinator or a newer wrapper, and the current one is the wrapper attached last unless the coordinator has disposed since |
| BidiTeardown.DrainDisposes | packages/orpc-ws-client/src/bidi/client-bidi.ts:210-219 | A microtask checkpoint disposes exactly what was queued |
| BidiTeardown.ClientBidi.Attach | packages/orpc-ws-client/src/bidi/client-bidi.ts:149-195 | Rolls over to the new wrapper |
| BidiTeardown.ClientBidi.OneTask | packages/orpc-ws-client/src/bidi/client-bidi.ts:210-219 | An event-loop task and its microtask checkpoint, as in the model |
| Texts.SplitUndoesJoin | packages/orpc-ws-cookie-bff/src/crypto/token-cipher.ts:145-158 | Splitting recovers any fields that hold no separator |
| Texts.JoinUndoesSplit | packages/orpc-ws-cookie-bff/src/cookies/serialize.ts:60-60 | Splitting loses nothing and leaves no separator in a part |
| TokenCiphers.RoundTrip | packages/orpc-ws-cookie-bff/src/crypto/token-cipher.ts:116-191 | Every created cipher decrypts what it encrypted, for every plaintext and IV |
| TokenCiphers.RotationKeepsReading | packages/orpc-ws-cookie-bff/src/crypto/token-cipher.ts:117-133 | A cipher that lists the old key under its old id holds that key there iff the ids differ or the keys are the same; with distinct ids it decrypts every old envelope |
| TokenCiphers.EnvelopeFields | packages/orpc-ws-cookie-bff/src/crypto/token-cipher.ts:145-165 | Splitting an envelope recovers the five fields that were joined |
| TokenCiphers.DroppedKeyIsNamed | packages/orpc-ws-cookie-bff/src/crypto/token-cipher.ts:169-175 | An envelope of a key no longer held is refused naming that key |
| TokenCiphers.CreatesIff | packages/orpc-ws-cookie-bff/src/crypto/token-cipher.ts:87-133 | Options make a cipher iff no key id holds the separator and every key that counts has exactly 32 bytes |
| TokenCiphers.DecryptsOnlyEnvelopes | packages/orpc-ws-cookie-bff/src/crypto/token-cipher.ts:167-191 | Only a `v1` envelope of five fields, under a key that is held and a 16-byte tag that verifies, is decrypted |
| TokenCiphers.DecryptsEveryEnvelope | packages/orpc-ws-cookie-bff/src/crypto/token-cipher.ts:167-191 | And every such envelope is |
| TokenCiphers.TokenSetRoundTrip | packages/orpc-ws-cookie-bff/src/crypto/token-cipher.ts:196-211 | Token sets come back whole, nulls as nulls |
| TokenCiphers.CreateTokenCipher | packages/orpc-ws-cookie-bff/src/crypto/token-cipher.ts:116-133 | The loop that fills the key map: validation, first-wins, first error |
| Cookies.CookieRoundTrip | packages/orpc-ws-cookie-bff/src/cookies/serialize.ts:55-73 | For every list of cookies with legal names, a header made of them yields the first value of the name asked, or null |
| Cookies.ParseCookie | packages/orpc-ws-cookie-bff/src/cookies/serialize.ts:55-73 | The loop finds the first pair whose trimmed key is the name, and falls back to the raw value |
| Cookies.SetCookieRoundTrip | packages/orpc-ws-cookie-bff/src/cookies/serialize.ts:83-112 | A printed cookie reads back as it was printed |
| Cookies.HostPrefixIsKept | packages/orpc-ws-cookie-bff/src/cookies/serialize.ts:83-112 | A `__Host-` cookie is refused with a domain, and otherwise comes out with `Secure`, `Path=/` and no `Domain` segment |
| Cookies.SerializeCookie | packages/orpc-ws-cookie-bff/src/cookies/serialize.ts:83-112 | Parts pushed in order and joined |
| Cookies.AttributesIff | packages/orpc-ws-cookie-bff/src/cookies/serialize.ts:92-112 | Which attribute segments a printed cookie has, for every option: SameSite, HttpOnly, Secure, Path, Domain and Max-Age, with the defaults |
| Cookies.DigitsReadBack | packages/orpc-ws-cookie-bff/src/cookies/serialize.ts:110-110 | Numbers are printed as they are read |
| Cookies.MalformedComesRaw | packages/orpc-ws-cookie-bff/src/cookies/serialize.ts:64-70 | A value that does not decode is handed out raw, without the blanks around it |
| PkceStores.InMemoryPkceStore.Take | packages/orpc-ws-cookie-bff/src/oidc/pkce-store.ts:68-75 | Answers the latest `set` of the state not taken since and not expired, and nothing else |
| PkceStores.InMemoryPkceStore.Set | packages/orpc-ws-cookie-bff/src/oidc/pkce-store.ts:55-66 | Adds one call to the history; the map stays the one the history calls for |
| PkceStores.InMemoryPkceStore.Sweep | packages/orpc-ws-cookie-bff/src/oidc/pkce-store.ts:77-81 | Deletes exactly the expired entries |
| PkceStores.StoredIsPending | packages/orpc-ws-cookie-bff/src/oidc/pkce-store.ts:50-82 | The map misses only entries that a sweep found expired, so sweeping is unobservable |
| PkceStores.SingleUse | packages/orpc-ws-cookie-bff/src/oidc/pkce-store.ts:13-15 | After a `take`, and until the next `set` of that state, every `take` finds nothing |
| PkceStores.SetLeavesNoExpired | packages/orpc-ws-cookie-bff/src/oidc/pkce-store.ts:77-81 | After a `set` everything else in the map is unexpired |
| PkceStores.FoundUntilItExpires | packages/orpc-ws-cookie-bff/src/oidc/pkce-store.ts:55-75 | A `set` is found until exactly its seconds are over, whatever is called for other states meanwhile |
| EndpointRewrites.OriginCaseFold | packages/orpc-ws-cookie-bff/src/oidc/endpoint-rewrite.ts:45-68 | The scan finds the end of the authority |
| EndpointRewrites.CopiesAgree | packages/oidc-verifier-jose/src/discovery.ts:243-270 | The two copies agree wherever a discovery URL is given |
| EndpointRewrites.RewritesWhatIsUnder | packages/orpc-ws-cookie-bff/src/oidc/endpoint-rewrite.ts:89-120 | What lies under the public base, continued by a whole segment, moves to the internal base with its suffix |
| EndpointRewrites.RewritesOnlyWhatIsUnder | packages/orpc-ws-cookie-bff/src/oidc/endpoint-rewrite.ts:107-119 | No other URL with an origin moves: same origin and a segment border are necessary |
| EndpointRewrites.RewriteInverts | packages/orpc-ws-cookie-bff/src/oidc/endpoint-rewrite.ts:89-120 | Swapping the bases gives back the origin and the exact path and query |
| EndpointRewrites.SlashesDoNotMatter | packages/orpc-ws-cookie-bff/src/oidc/endpoint-rewrite.ts:28-30 | One trailing slash on either configured URL makes no difference |
| EndpointRewrites.FoldSplits | packages/orpc-ws-cookie-bff/src/oidc/endpoint-rewrite.ts:45-68 | The origin is taken of scheme and authority; path, query and fragment stay as written |

## Left out

- Server connection handling (registry, connection handler, verify orchestrator, heartbeat publisher): not part of this model.
- partysocket, ORPC peers, `ws` and fetch: only the events they deliver.
- React and NestJS adapters, demo applications, upload transport, OIDC discovery fetches and its metadata cache, JWT verification, auth HTTP handlers: I/O sequences and wiring with little state.
- Loggers and the sleep detector: only the wake event is an input.
- OrpcWsClients.OrpcWsClient: one class holds the fields of `ReconnectManager`, `TokenRefreshHandler`, `ClientLifecycle` and `EventHandlers` that the queue, gate, holder and state objects do not; the callbacks between them are method calls.
- OrpcWsClients.OrpcWsClient.SwapSocket: stopping the heartbeat, clearing the link and disposing of the bidi handle are not steps of the client model; those collaborators are modelled on their own.
- ConnectionStates.ConnectionStateManager.SetState: the set of listeners and the isolation of a throwing listener; observers are one callback.
- ReconnectQueue.WaiterQueue.RunReconnect: the length of the jitter delay and of the debounce window; timers fire when the environment says so.
- HeartbeatClients.HeartbeatSubscriber.Deliver: what the timeout callback does while the poll runs it; the latch is set before, and nothing follows.
- HeartbeatRaces.OneDriverByCalls: links that throw synchronously, which `HeartbeatRaces.OneDriverIff` covers.
- Sessions.ExchangeKeeps: two servers over one store; the single flight is per manager.
- SessionServers.SessionServer.Refresh: which of the concurrent callers hold which promise; they share the flight in the map.
- SessionServers.SessionServer.SlideWrite: the record a slide returns to its caller.
- SocketMultiplexers.SocketMultiplexer.HandleMessage: a listener that changes another registry of the same socket while it runs.
- SocketMultiplexers.SocketMultiplexer.Dispose: the memoized channel facades, `readyState` and `close` pass-through.
- BidiTeardown.CloseBeforeDispose: a close fan-out is one step here; what one emit does is the registry model.
- Cookies.SerializeCookie: fractional `Max-Age` values; `clearCookie` is the same printer with an empty value.
- EndpointRewrites.RewriteInverts: endpoints that do not parse as URLs, where the rewrite is exact string comparison.
- TokenCiphers.RoundTrip: lone surrogates; strings are sequences of Unicode scalar values.
