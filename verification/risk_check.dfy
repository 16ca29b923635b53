/** The `/risk/check` handler: assess a transfer request and record a fresh
    intercept row for it. The risk engine (`assess`, `make_request_id`) is not
    part of this model; both arrive as parameters, and so does the clock. */
module RiskCheck {
  import opened Wrappers
  import opened Ledger
  import ReasonCodes

  /** A signal's vote as the engine reports it; its fields are the engine's
      business and are only passed through here. */
  type Vote(==)

  /** The transfer request as the transport layer validated it. */
  datatype TxRequest = TxRequest(chain: string, fromAddress: string, toAddress: string, amountUsdt: real)

  /** The five values `assess` returns. */
  datatype Assessment = Assessment(
    score: int,
    level: string,
    decision: string,
    reasons: seq<string>,
    votes: seq<Vote>)

  /** The response body of `/risk/check`. */
  datatype RiskResult = RiskResult(
    riskScore: int,
    riskLevel: string,
    decision: string,
    reasonCodes: seq<string>,
    modelVotes: seq<Vote>,
    requestId: string)

  /** What the handler produces: the response and the row handed to `log_intercept`. */
  datatype CheckOutcome = CheckOutcome(response: RiskResult, row: Record)

  /** A row that has not been forwarded yet: no force mark, no transaction hash. */
  predicate Unforwarded(row: Record) {
    row.forced == 0 && row.txHash == None
  }

  /** `risk_check`: derive the request id, assess the request, copy the
      assessment into a fresh unforwarded row and answer with the assessment. */
  function Check(
    req: TxRequest,
    makeRequestId: (string, string, real) -> string,
    assess: (string, string, real) -> Assessment,
    now: string): (out: CheckOutcome)
    ensures Unforwarded(out.row)
    ensures out.row.requestId == makeRequestId(req.chain, req.toAddress, req.amountUsdt)
    ensures out.response.requestId == out.row.requestId
    ensures out.row.ts == now
    ensures out.row.chain == req.chain && out.row.fromAddress == req.fromAddress
    ensures out.row.toAddress == req.toAddress && out.row.amountUsdt == req.amountUsdt
    ensures var a := assess(req.chain, req.toAddress, req.amountUsdt);
      && out.row.riskScore == a.score && out.row.riskLevel == a.level && out.row.decision == a.decision
      && out.response.riskScore == a.score && out.response.riskLevel == a.level
      && out.response.decision == a.decision
      && out.response.reasonCodes == a.reasons && out.response.modelVotes == a.votes
      && out.row.reasonCodes == ReasonCodes.Join(a.reasons)
  {
    var requestId := makeRequestId(req.chain, req.toAddress, req.amountUsdt);
    var a := assess(req.chain, req.toAddress, req.amountUsdt);
    var row := Record(
      requestId, now, req.chain, req.fromAddress, req.toAddress, req.amountUsdt,
      a.score, a.level, a.decision, ReasonCodes.Join(a.reasons), 0, None);
    CheckOutcome(RiskResult(a.score, a.level, a.decision, a.reasons, a.votes, requestId), row)
  }

  /** The row's comma-joined reason text reads back as the reason codes of the
      response, provided at least one code fired and no code holds a comma. */
  lemma CheckReasonsRecoverable(
    req: TxRequest,
    makeRequestId: (string, string, real) -> string,
    assess: (string, string, real) -> Assessment,
    now: string)
    requires var a := assess(req.chain, req.toAddress, req.amountUsdt);
      |a.reasons| >= 1 && forall i :: 0 <= i < |a.reasons| ==> ReasonCodes.CommaFree(a.reasons[i])
    ensures var out := Check(req, makeRequestId, assess, now);
      ReasonCodes.Split(out.row.reasonCodes) == out.response.reasonCodes
  {
    ReasonCodes.SplitJoin(assess(req.chain, req.toAddress, req.amountUsdt).reasons);
  }
}
