/** The `/tx/send` handler: forward a previously assessed transfer, refuse a
    blocked one, or forward it anyway when the caller forces it. Nothing is
    broadcast; the transaction hash is a pseudo hash built from the request id. */
module Forwarding {
  import opened Wrappers
  import opened Ledger

  /** The decision text that stops a transfer unless it is forced. */
  const BLOCK: string := "BLOCK"

  /** The receipt status: `BLOCKED`, `FORWARDED` or `FORCED_LOGGED`. */
  datatype Status = Blocked | Forwarded | ForcedLogged

  /** The response body of `/tx/send`. */
  datatype TxReceipt = TxReceipt(status: Status, requestId: string, txHash: Option<string>)

  /** The 404 raised when no row is filed under the request id. */
  datatype SendError = RequestIdNotFound

  /** A successful call: the receipt and the row handed to `log_intercept`, if any. */
  datatype Sent = Sent(receipt: TxReceipt, write: Option<Record>)

  /** The pseudo hash `tx_<request id>`. */
  function PseudoTxHash(requestId: string): (h: string)
    ensures |h| == |requestId| + 3 && h[..3] == "tx_" && h[3..] == requestId
  {
    "tx_" + requestId
  }

  /** The row rewritten on forwarding: the force mark (1 or 0) and the pseudo hash
      are set; every other column keeps its stored value. */
  function ForwardUpdate(row: Record, requestId: string, forced: bool): (w: Record)
    ensures w.forced == 0 || w.forced == 1
    ensures forced <==> w.forced == 1
    ensures w.txHash == Some(PseudoTxHash(requestId))
    ensures w.(forced := row.forced, txHash := row.txHash) == row
  {
    row.(forced := if forced then 1 else 0, txHash := Some(PseudoTxHash(requestId)))
  }

  /** `tx_send`: look the request up; refuse an unknown id; answer BLOCKED without
      writing when the stored decision is BLOCK and the call is not forced;
      otherwise write the forwarded row and answer FORCED_LOGGED or FORWARDED.
      The flag is optional on the wire and defaults to false: an omitted flag is
      `Send(ledger, requestId, false)`. */
  function Send(ledger: Ledger, requestId: string, forced: bool): (r: Result<Sent, SendError>)
    ensures r.Failure? <==> requestId !in ledger
    ensures r.Success? ==> r.value.receipt.requestId == requestId
    ensures r.Success? ==>
      (r.value.receipt.status == Blocked <==> ledger[requestId].decision == BLOCK && !forced)
    ensures r.Success? && r.value.receipt.status == Blocked ==>
      r.value.receipt.txHash == None && r.value.write == None
    ensures r.Success? && r.value.receipt.status != Blocked ==>
      && r.value.receipt.txHash == Some(PseudoTxHash(requestId))
      && (r.value.receipt.status == ForcedLogged <==> forced)
      && r.value.write == Some(ForwardUpdate(ledger[requestId], requestId, forced))
  {
    match Lookup(ledger, requestId)
    case None => Failure(RequestIdNotFound)
    case Some(row) =>
      if row.decision == BLOCK && !forced then
        Success(Sent(TxReceipt(Blocked, requestId, None), None))
      else
        var txHash := PseudoTxHash(requestId);
        var w := ForwardUpdate(row, requestId, forced);
        var status := if forced then ForcedLogged else Forwarded;
        Success(Sent(TxReceipt(status, requestId, Some(txHash)), Some(w)))
  }

  /** The ledger after the call's write, if it made one. */
  function Commit(ledger: Ledger, sent: Sent): (r: Ledger)
    ensures sent.write == None ==> r == ledger
    ensures sent.write.Some? ==> r == Store(ledger, sent.write.value)
  {
    match sent.write
    case None => ledger
    case Some(w) => Store(ledger, w)
  }

  /** The ledger after a whole `/tx/send` call; an unknown id changes nothing. */
  function SendAndCommit(ledger: Ledger, requestId: string, forced: bool): (r: Ledger)
    ensures WellKeyed(ledger) ==> WellKeyed(r)
    ensures WellKeyed(ledger) ==> r.Keys == ledger.Keys
    ensures WellKeyed(ledger) ==>
      forall id :: id in ledger && id != requestId ==> id in r && r[id] == ledger[id]
    ensures WellKeyed(ledger) && requestId in ledger ==>
      r[requestId] == (if ledger[requestId].decision == BLOCK && !forced then ledger[requestId]
                       else ForwardUpdate(ledger[requestId], requestId, forced))
  {
    match Send(ledger, requestId, forced)
    case Failure(_) => ledger
    case Success(sent) => Commit(ledger, sent)
  }

  /** A stored decision other than BLOCK (ALLOW, REVIEW) is forwarded whatever
      the force flag says. */
  lemma NonBlockNeverBlocked(ledger: Ledger, requestId: string, forced: bool)
    requires requestId in ledger && ledger[requestId].decision != BLOCK
    ensures Send(ledger, requestId, forced).Success?
    ensures Send(ledger, requestId, forced).value.receipt.status != Blocked
    ensures Send(ledger, requestId, forced).value.receipt.status ==
      (if forced then ForcedLogged else Forwarded)
  {
  }

  /** Re-applying the forward update with the same id and flag changes nothing. */
  lemma ForwardUpdateIdempotent(row: Record, requestId: string, forced: bool)
    ensures ForwardUpdate(ForwardUpdate(row, requestId, forced), requestId, forced)
      == ForwardUpdate(row, requestId, forced)
  {
  }

  /** Repeating a call with the same request id and the same flag gives the same
      receipt and writes the same row again, so the ledger does not move. */
  lemma SendIdempotent(ledger: Ledger, requestId: string, forced: bool)
    requires WellKeyed(ledger)
    ensures var once := SendAndCommit(ledger, requestId, forced);
      && Send(once, requestId, forced) == Send(ledger, requestId, forced)
      && SendAndCommit(once, requestId, forced) == once
  {
  }

  /** The force mark does not survive a later unforced call on a row whose
      decision is not BLOCK: the second write stores `forced = 0` again. */
  lemma UnforcedResendClearsForceMark(ledger: Ledger, requestId: string)
    requires WellKeyed(ledger)
    requires requestId in ledger && ledger[requestId].decision != BLOCK
    ensures var forcedOnce := SendAndCommit(ledger, requestId, true);
      && forcedOnce[requestId].forced == 1
      && SendAndCommit(forcedOnce, requestId, false)[requestId].forced == 0
      && Send(forcedOnce, requestId, false).value.receipt.status == Forwarded
  {
  }

  /** A BLOCK row that was force-forwarded keeps its hash in the ledger, yet a
      later unforced call still answers BLOCKED with no hash and writes nothing. */
  lemma BlockedAfterForcedSend(ledger: Ledger, requestId: string)
    requires WellKeyed(ledger)
    requires requestId in ledger && ledger[requestId].decision == BLOCK
    ensures var forcedOnce := SendAndCommit(ledger, requestId, true);
      && forcedOnce[requestId].txHash == Some(PseudoTxHash(requestId))
      && Send(forcedOnce, requestId, false) == Success(Sent(TxReceipt(Blocked, requestId, None), None))
  {
  }
}
