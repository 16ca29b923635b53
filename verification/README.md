# Wallet firewall: request handlers

A model of the request handlers of the wallet firewall API (`backend/app/main.py`).
The firewall intercepts outgoing crypto transfers: `/risk/check` asks the risk
engine for a score, level and decision (ALLOW, REVIEW or BLOCK) and records an
intercept row; `/tx/send` later forwards the transfer, refuses it when the
recorded decision is BLOCK, or forwards it anyway when the caller forces it;
three admin endpoints maintain the BLACKLIST and WHITELIST.

Modules:

- `Wrappers` — `Option` and `Result`.
- `Ledger` — the intercept row, the ledger as `map<string, Record>` keyed by
  request id, lookup, and the upsert used to chain calls.
- `ReasonCodes` — the comma-joined text in which a row stores its reason codes,
  with a Python-style split as its partner.
- `RiskCheck` — `risk_check`: building the fresh, unforwarded row and the response.
- `Forwarding` — `tx_send`: the not-found / BLOCKED / FORWARDED / FORCED_LOGGED
  state machine, the row it writes back, and what repeated calls do.
- `AdminList` — the list-kind guard and the store call each admin handler makes.
- `Pipeline` — `risk_check` followed by `tx_send` on the id it returned.

The risk engine (`assess`, `make_request_id`) and the clock enter `RiskCheck.Check`
as parameters. A ledger write is the row handed to `log_intercept`; a handler's
list operation is the `ListOp` value naming the store call.

## Model

| member | source | states |
|---|---|---|
| RiskCheck.Check | backend/app/main.py:19-45 | the row carries the id `make_request_id(chain, to_address, amount)` and the response carries the same id; the row has `forced = 0` and no tx hash; score, level and decision in row and response are `assess`'s; the row copies chain, addresses, amount and the timestamp and stores the comma-join of `assess`'s reasons; the response passes the reason list and votes through |
| RiskCheck.CheckReasonsRecoverable | backend/app/main.py:32-42 | the row's joined reason text splits back into the response's reason list when at least one code fired and no code holds a comma |
| ReasonCodes.Join | backend/app/main.py:32 | the reason column of a row: no codes give the empty text and a single code is stored as itself; longer lists are fixed by `JoinAppend` |
| ReasonCodes.JoinAppend | backend/app/main.py:32 | joining two non-empty lists back to back equals joining each with one comma between, for any codes, commas inside codes included |
| ReasonCodes.JoinSplit | backend/app/main.py:32 | every text is the comma-join of its comma-separated pieces, so splitting loses nothing and distinct texts have distinct pieces |
| ReasonCodes.SplitJoin | backend/app/main.py:32 | `",".join` is undone by splitting on commas for every non-empty list of comma-free codes |
| ReasonCodes.JoinNotInjective | backend/app/main.py:32 | the joined text is ambiguous outside that case: no codes and one empty code store the same text, and so do `["A,B"]` and `["A", "B"]` |
| Forwarding.PseudoTxHash | backend/app/main.py:57 | the hash is the request id behind the three-character prefix `tx_` |
| Forwarding.ForwardUpdate | backend/app/main.py:57-59 | the forwarded row has `forced` 1 exactly when forced (else 0) and the pseudo hash; every other column equals the stored row's |
| Forwarding.Send | backend/app/main.py:47-63 | not-found exactly when no row is filed under the id; the receipt echoes the id; BLOCKED exactly when the stored decision is BLOCK and the call is not forced, and then no hash and no write; otherwise the hash is `tx_` + id, the status is FORCED_LOGGED exactly when forced, and the write is the forwarded row |
| Forwarding.SendAndCommit | backend/app/main.py:49-60 | a call keeps the ledger keyed by id, adds no key, and leaves every other request's row as it was; the sent id's row stays as stored when the call is BLOCKED and becomes the forwarded row otherwise |
| Forwarding.NonBlockNeverBlocked | backend/app/main.py:53-63 | a stored ALLOW or REVIEW decision (anything but BLOCK) is never BLOCKED, forced or not; it is FORWARDED, or FORCED_LOGGED when forced |
| Forwarding.ForwardUpdateIdempotent | backend/app/main.py:57-59 | applying the forward update twice with the same id and flag gives the same row as once |
| Forwarding.SendIdempotent | backend/app/main.py:47-63 | a second call with the same id and flag returns the same receipt and leaves the ledger where the first call left it |
| Forwarding.UnforcedResendClearsForceMark | backend/app/main.py:53-60 | on a non-BLOCK row, a forced call stores `forced = 1` and a later unforced call overwrites it with 0 |
| Forwarding.BlockedAfterForcedSend | backend/app/main.py:53-60 | a force-forwarded BLOCK row keeps its hash in the ledger, yet a later unforced call answers BLOCKED with no hash and writes nothing |
| AdminList.ParseKind | backend/app/main.py:78-79 | a kind is accepted exactly when it is `BLACKLIST` or `WHITELIST`, and the accepted kind names the input; anything else is the 400 error for that input |
| AdminList.ParseKindName | backend/app/main.py:78 | each of the two list kinds passes the guard as itself |
| AdminList.ListAddHandler | backend/app/main.py:76-81 | a rejected kind yields an error and no store call; an accepted one yields exactly the add of that kind and address |
| AdminList.ListRemoveHandler | backend/app/main.py:83-88 | a rejected kind yields an error and no store call; an accepted one yields exactly the remove of that kind and address |
| AdminList.ListGetHandler | backend/app/main.py:90-94 | a rejected kind yields an error and no store call; an accepted one yields exactly the read of that list |
| AdminList.HandlersShareGuard | backend/app/main.py:76-94 | the three handlers reject the same kinds with the same error |
| Pipeline.CheckThenSend | backend/app/main.py:19-63 | after recording the fresh row, sending its id always finds it; BLOCKED exactly when `assess` said BLOCK and the call is not forced; any write is the assessed row with only the force mark and pseudo hash filled in |

## Left out

- `assess` and `make_request_id` (`services/risk_engine.py`): not part of this model; they are function parameters, so no scoring thresholds, list lookups or time bucketing are assumed.
- The clock (`datetime.now(timezone.utc).isoformat()`): the timestamp is an input string.
- The storage behind `log_intercept`, `get_by_request_id`, `list_add`, `list_remove`, `list_get` and `init_db` (`utils/logger.py`): not part of this model. A lookup is a map lookup; a write is an output. Only the lemmas that chain calls (`SendAndCommit`, `SendIdempotent`, `UnforcedResendClearsForceMark`, `BlockedAfterForcedSend`, `CheckThenSend`) read a write as an upsert keyed by the row's request id (`Ledger.Store`).
- The list contents returned by `list_get` and the `{"ok": True}` bodies: the store is not modelled, so a handler's effect ends at the store call it makes.
- FastAPI routing, the startup hook, HTTP status codes and the response models (`models/schemas.py`): errors are `SendError` and `KindError` values.
- `/health`, `/admin/intercepts` and `/admin/intercepts/{request_id}`: `/health` returns a constant; the two intercept-listing endpoints read the storage layer and, for a single id, raise 404 when no row is found. None of them decides anything beyond that.
- Number representation: `amount_usdt` is a `real` and the risk score an `int`; floating point is not modelled, and neither value is computed on here.
- The fields of a vote: the engine's schema is not part of this model, so `Vote` is an opaque type passed through unchanged.
- ReasonCodes.Join: its own contract states only the lists of zero or one code; lists of two or more codes are fixed by the separate lemma `JoinAppend` rather than by restating the join.
- Python truthiness in `if not row`: a row is a non-empty dict, so only a missing row fails the test.
- The force mark is not kept as a separate audit event: an unforced resend of a forwarded ALLOW or REVIEW row overwrites `forced = 1` with 0 (`UnforcedResendClearsForceMark`), so after an unforced resend the ledger keeps no trace that the request was once forced; the model follows the code.
