/**
 The close-decision tree: what a close event means for the client.
 */
module CloseDecisions {

  /** Why a close routed to auth recovery. */
  datatype AuthRecoveryTrigger = AuthClose | PreOpen1000

  datatype CloseDecision =
    | Ignore
    | SessionReplacedClose
    | AuthRecovery(closeCode: int, trigger: AuthRecoveryTrigger)
    | NormalDisconnect(closeCode: int)

  const CODE_SESSION_REPLACED := 4005
  const CODE_POLICY_VIOLATION := 1008
  const CODE_AUTH_FAILED := 4001
  const CODE_NORMAL := 1000
  const PARTYSOCKET_TIMEOUT_REASON := "timeout"

  /** An explicit server-side rejection of the credential. */
  predicate RejectsCredential(code: int): (r: bool)
    ensures r <==> code == 1008 || code == 4001
  {
    code == CODE_POLICY_VIOLATION || code == CODE_AUTH_FAILED
  }

  function DecideClose(code: int, reason: string, isStaleWs: bool, attemptHadOpened: bool): (d: CloseDecision)
    ensures d.Ignore? <==> isStaleWs
    ensures d.AuthRecovery? && d.trigger.AuthClose? <==> !isStaleWs && RejectsCredential(code)
    ensures d.SessionReplacedClose? <==> !isStaleWs && code == 4005
    ensures d.AuthRecovery? && d.trigger.PreOpen1000?
       <==> !isStaleWs && code == 1000 && !attemptHadOpened && reason != "timeout"
    ensures d.AuthRecovery? || d.NormalDisconnect? ==> d.closeCode == code
  {
    if isStaleWs then Ignore
    else if code == CODE_SESSION_REPLACED then SessionReplacedClose
    else if code == CODE_POLICY_VIOLATION || code == CODE_AUTH_FAILED then AuthRecovery(code, AuthClose)
    else if code == CODE_NORMAL && !attemptHadOpened then
      if reason == PARTYSOCKET_TIMEOUT_REASON then NormalDisconnect(CODE_NORMAL)
      else AuthRecovery(CODE_NORMAL, PreOpen1000)
    else NormalDisconnect(code)
  }

  /**
   A connection timeout, and every close after an open other than 1008, 4001
   and 4005, is ordinary churn; conversely ordinary churn is exactly that.
   */
  lemma OrdinaryCloses(code: int, reason: string, attemptHadOpened: bool)
    ensures DecideClose(code, reason, false, attemptHadOpened).NormalDisconnect?
      <==> code !in {4005, 1008, 4001} && (code == 1000 ==> attemptHadOpened || reason == "timeout")
  {
  }
}
