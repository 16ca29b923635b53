/** The two handlers in sequence: a request is assessed and recorded by
    `/risk/check`, then sent by `/tx/send` under the id it was given. */
module Pipeline {
  import opened Wrappers
  import opened Ledger
  import RiskCheck
  import Forwarding

  /** Once the fresh row is recorded, sending its id always finds it; the call is
      BLOCKED exactly when the assessment said BLOCK and the call is not forced,
      and otherwise the row written back is the assessed row with only the force
      mark and the pseudo hash filled in. */
  lemma CheckThenSend(
    ledger: Ledger,
    req: RiskCheck.TxRequest,
    makeRequestId: (string, string, real) -> string,
    assess: (string, string, real) -> RiskCheck.Assessment,
    now: string,
    forced: bool)
    requires WellKeyed(ledger)
    ensures var out := RiskCheck.Check(req, makeRequestId, assess, now);
      var recorded := Store(ledger, out.row);
      var id := out.response.requestId;
      var r := Forwarding.Send(recorded, id, forced);
      && WellKeyed(recorded)
      && r.Success?
      && (r.value.receipt.status == Forwarding.Blocked <==>
            out.response.decision == Forwarding.BLOCK && !forced)
      && (r.value.write.Some? ==>
            r.value.write.value == out.row.(forced := if forced then 1 else 0,
                                            txHash := Some(Forwarding.PseudoTxHash(id))))
  {
  }
}
