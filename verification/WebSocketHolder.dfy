/**
 The holder of the current wrapper. Wrappers are numbered in order of
 construction.
 */
module WebSocketHolders {
  import opened Wrappers

  datatype Holder = Holder(websocket: Option<nat>, currentToken: Option<string>, currentAttemptOpened: bool)

  class WebSocketHolder {
    var websocket: Option<nat>
    var currentToken: Option<string>
    var currentAttemptOpened: bool

    ghost function Value(): Holder
      reads this
    {
      Holder(websocket, currentToken, currentAttemptOpened)
    }

    constructor ()
      ensures Value() == Holder(None, None, false)
    {
      websocket, currentToken, currentAttemptOpened := None, None, false;
    }

    /** A fresh wrapper starts an attempt that has not opened; the token record stays. */
    method Set(ws: nat)
      modifies this
      ensures Value() == old(Value()).(websocket := Some(ws), currentAttemptOpened := false)
    {
      websocket := Some(ws);
      currentAttemptOpened := false;
    }

    method Clear()
      modifies this
      ensures Value() == Holder(None, None, false)
    {
      websocket := None;
      currentToken := None;
      currentAttemptOpened := false;
    }

    method SetCurrentToken(token: Option<string>)
      modifies this
      ensures Value() == old(Value()).(currentToken := token)
    {
      currentToken := token;
    }

    method MarkCurrentAttemptOpened()
      modifies this
      ensures Value() == old(Value()).(currentAttemptOpened := true)
    {
      currentAttemptOpened := true;
    }

    method ResetCurrentAttempt()
      modifies this
      ensures Value() == old(Value()).(currentAttemptOpened := false)
    {
      currentAttemptOpened := false;
    }
  }
}
