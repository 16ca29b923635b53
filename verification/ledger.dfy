/** The intercept ledger as the handlers see it: rows keyed by request id.
    Its storage (a SQLite table behind `log_intercept` and `get_by_request_id`)
    is not part of this model; a write is the row handed to `log_intercept`. */
module Ledger {
  import opened Wrappers

  /** One intercept row, with the columns `risk_check` fills in.
      `reasonCodes` is the comma-joined text, `forced` is stored as 0 or 1. */
  datatype Record = Record(
    requestId: string,
    ts: string,
    chain: string,
    fromAddress: string,
    toAddress: string,
    amountUsdt: real,
    riskScore: int,
    riskLevel: string,
    decision: string,
    reasonCodes: string,
    forced: int,
    txHash: Option<string>)

  /** The ledger: request id to the row most recently written under it. */
  type Ledger = map<string, Record>

  /** Every row is filed under its own request id, as a lookup by id returns it. */
  predicate WellKeyed(ledger: Ledger) {
    forall id :: id in ledger ==> ledger[id].requestId == id
  }

  /** `get_by_request_id`: the row filed under `id`, if any. */
  function Lookup(ledger: Ledger, id: string): (r: Option<Record>)
    ensures r.Some? <==> id in ledger
    ensures r.Some? ==> r.value == ledger[id]
  {
    if id in ledger then Some(ledger[id]) else None
  }

  /** `log_intercept` read as an upsert keyed by the row's request id: the row
      replaces whatever was filed under that id and every other row stays. */
  function Store(ledger: Ledger, row: Record): (r: Ledger)
    ensures r.Keys == ledger.Keys + {row.requestId}
    ensures r[row.requestId] == row
    ensures forall id :: id in ledger && id != row.requestId ==> r[id] == ledger[id]
    ensures WellKeyed(ledger) ==> WellKeyed(r)
  {
    ledger[row.requestId := row]
  }
}
