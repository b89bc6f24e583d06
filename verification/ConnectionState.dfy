/**
 The connection-state vocabulary and its observable manager.
 */
module ConnectionStates {
  import opened Wrappers

  datatype KickReason = SessionReplaced

  datatype ConnectionState =
    | Connecting
    | Connected
    | Disconnected(code: Option<int>, willRetry: bool)
    | Kicked(reason: KickReason)

  /** The states a dead client may show: nothing will be retried. */
  predicate Final(st: ConnectionState) {
    st.Kicked? || (st.Disconnected? && !st.willRetry)
  }

  /** The per-variant comparison that decides whether a notification is skipped. */
  predicate StatesEqual(a: ConnectionState, b: ConnectionState): (r: bool)
    ensures r <==> a == b
  {
    match (a, b)
    case (Disconnected(c, w), Disconnected(c', w')) => c == c' && w == w'
    case (Kicked(x), Kicked(y)) => x == y
    case (Connecting, Connecting) => true
    case (Connected, Connected) => true
    case _ => false
  }

  /** No observer is ever notified twice in a row of the same state. */
  ghost predicate Deduplicated(initial: ConnectionState, frames: seq<ConnectionState>) {
    && (frames != [] ==> frames[0] != initial)
    && forall i :: 0 < i < |frames| ==> frames[i - 1] != frames[i]
  }

  /** Observable manager: `frames` is the history of states its observers were notified of. */
  class ConnectionStateManager {
    const initial: ConnectionState
    var state: ConnectionState
    ghost var frames: seq<ConnectionState>

    ghost predicate Valid()
      reads this
    {
      && Deduplicated(initial, frames)
      && state == if frames == [] then initial else frames[|frames| - 1]
    }

    constructor (initial: ConnectionState)
      ensures Valid()
      ensures state == initial && frames == []
    {
      this.initial := initial;
      state := initial;
      frames := [];
    }

    /** Stores `next`; `notify` tells the caller that observers have to run. */
    method SetState(next: ConnectionState) returns (notify: bool)
      modifies this
      ensures old(Valid()) ==> Valid()
      ensures state == next
      ensures notify <==> old(state) != next
      ensures frames == if notify then old(frames) + [next] else old(frames)
    {
      notify := !StatesEqual(state, next);
      if notify {
        state := next;
        frames := frames + [next];
      }
    }
  }
}
