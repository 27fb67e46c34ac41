# Payment engine ledger — a Dafny model

This project models the core of a small payment engine. The engine reads a
sequence of transaction records: deposit, withdrawal, dispute, resolve and
chargeback. It keeps one account per client, with `available`, `held`,
`total` and `locked`. It also keeps a history that maps a transaction id to a
tag and an amount. Dispute, resolve and chargeback records look up that
history to find the amount they act on.

The model has four modules:

- `Ledger` (ledger.dfy) holds the data model: client and transaction ids,
  `Kind` (with an `Other` case for unknown type names), `Tag`, `Entry`,
  `Account`, `State`, `Outcome`. It also has one value-level function for each
  routine of `src/payments.rs`: `Increase`, `Decrease`, `GetClient`,
  `GetTxnInfo`, `DepositRule`, `WithdrawalRule`, `DisputeRule`, `ResolveRule`,
  `ChargebackRule`, `Process`. `ProcessAll` is the driver loop of
  `src/main.rs`. These functions are the specification.
- `Payments` (payments.dfy) is the imperative engine. `Client` is a class
  whose balance fields `Increase` and `Decrease` update in place. `Engine`
  owns the client map (`clientMap`, id to `Client` object) and the history
  (`txnMap`). Its methods have the same names and branches as the source
  functions. Each method is proved to have exactly the effect of the
  corresponding `Ledger` function on the abstract state `Model()`.
- `LedgerProperties` (properties.dfy) holds lemmas over the specification:
  the effect of each rule on its own (`DepositRuleEffect` to
  `ChargebackRuleEffect`), the effect of each kind of record, non-negative
  balances, locking,
  `total == available + held`, repeated records, and whole runs.
- `Scenarios` (scenarios.dfy) holds short concrete runs from an empty engine.

Amounts are integers in minor currency units. Client ids and transaction ids
are integers limited to the `u16` and `u32` ranges.

The model follows the code as written, including these behaviours:

- A deposit is written to the history before the lock check. It is
  therefore recorded on a locked account too.
- A withdrawal on a locked account returns `Ok`, so it is recorded.
- A withdrawal debits `total` before it checks `available`. When `total`
  covers the amount and `available` does not, only `total` drops. The record
  is then neither recorded nor reported.
- A dispute credits `held` before it checks `available`. It never looks at
  the entry's tag, so a transaction that is already disputed can be
  disputed again.
- Resolve and chargeback return `Ok` when the transaction is unknown or not
  disputed. They report `Err` only when `held` does not cover the amount.
- A chargeback sets `locked` before its debit of `held` can fail. It never
  changes `total` and never removes the history entry, so repeating it debits
  `held` again.
- A dispute, resolve or chargeback acts on the client named in the record. It
  does not check who owned the referenced transaction.

A clean ledger would ignore deposits and withdrawals on a locked account
without recording them. It would reject a resolve or chargeback of an unknown
or undisputed transaction. The code does neither, and the model follows the
code.

So `total == available + held` is not an invariant of every run. Successful
deposit, withdrawal, dispute and resolve rules preserve it. A chargeback, an
uncovered withdrawal and an uncovered dispute break it.

## Model

| member | source | states |
|---|---|---|
| `Ledger.Increase` | src/payments.rs:197-203 | adds the amount to exactly the named field; id, lock and the other two fields are unchanged |
| `Ledger.Decrease` | src/payments.rs:205-231 | succeeds if and only if the named field covers the amount; on success only that field drops by the amount, on failure the account is unchanged |
| `Ledger.GetClient` | src/payments.rs:75-86 | an existing account is returned unchanged; an absent id gets a zero-balance unlocked account; no other entry is touched |
| `Ledger.GetTxnInfo` | src/payments.rs:88-98 | finds an entry exactly when the id is in the history, and returns that entry |
| `Ledger.NewAccount` | src/payments.rs:77-83 | the account created for an id has that id, every balance zero, and is unlocked |
| `LedgerProperties.DepositRuleEffect` | src/payments.rs:100-113 | always `Ok`, history untouched, only the named account created or changed; on an unlocked account `available` and `total` rise by the amount and `held` stays; a locked account is unchanged |
| `LedgerProperties.WithdrawalRuleEffect` | src/payments.rs:115-128 | `Err` exactly when the account is unlocked and `total` or `available` does not cover the amount; `total` drops whenever it covers the amount, `available` only when both do; a locked account is unchanged; history untouched |
| `LedgerProperties.DisputeRuleEffect` | src/payments.rs:130-150 | an unknown tx gives `Ok` and the same state; otherwise `Err` exactly when the account is unlocked and `available` does not cover the recorded amount; on an unlocked account `held` rises regardless, and only when covered does `available` fall and the entry become a dispute; `total` never changes |
| `LedgerProperties.ResolveRuleEffect` | src/payments.rs:152-174 | an entry not under dispute gives `Ok` and the same state; otherwise `Err` exactly when the account is unlocked and `held` does not cover the amount; when covered the amount moves from `held` to `available` and the entry is removed; else nothing changes |
| `LedgerProperties.ChargebackRuleEffect` | src/payments.rs:176-191 | an entry not under dispute gives `Ok` and the same state; otherwise the account ends locked, `Err` exactly when `held` does not cover the amount, `held` drops only when it does, and `available`, `total` and the history never change |
| `Ledger.Process` | src/payments.rs:41-73 | only resolve, chargeback and unknown kinds can report `Err`; failed deposits, withdrawals and disputes are reported as `Ok` |
| `Ledger.ProcessAll` | src/main.rs:30-32 | a run with no resolve, chargeback or unknown-kind record always ends in `Ok` |
| `Payments.Client.constructor` | src/payments.rs:77-83 | a new client has zero balances and is unlocked |
| `Payments.Client.Increase` | src/payments.rs:197-203 | the in-place update has the effect of `Ledger.Increase` |
| `Payments.Client.Decrease` | src/payments.rs:205-231 | the in-place update and its result are those of `Ledger.Decrease` |
| `Payments.Engine.constructor` | src/main.rs:10-11 | a run starts with an empty client map and an empty history |
| `Payments.Engine.GetClient` | src/payments.rs:75-86 | returns the object stored under the id, inserting a new one if absent; the accounts become `Ledger.GetClient` of the old ones |
| `Payments.Engine.Deposit` | src/payments.rs:100-113 | state and result equal `DepositRule` of the old state |
| `Payments.Engine.Withdrawal` | src/payments.rs:115-128 | state and result equal `WithdrawalRule` of the old state |
| `Payments.Engine.Dispute` | src/payments.rs:130-150 | state and result equal `DisputeRule` of the old state |
| `Payments.Engine.Resolve` | src/payments.rs:152-174 | state and result equal `ResolveRule` of the old state |
| `Payments.Engine.Chargeback` | src/payments.rs:176-191 | state and result equal `ChargebackRule` of the old state |
| `Payments.Engine.Process` | src/payments.rs:41-73 | state and result equal `Ledger.Process` of the old state |
| `Payments.Engine.ProcessAll` | src/main.rs:30-32 | the loop's final state and result equal `Ledger.ProcessAll` of the old state: records in order, stopping at the first `Err` |
| `LedgerProperties.ProcessTouchesOnlyItsClient` | src/payments.rs:41-73 | a record never deletes an account, creates at most the one it names, and leaves every other account unchanged |
| `LedgerProperties.OtherKindRejected` | src/payments.rs:70 | a record of an unknown kind returns `Err` and changes nothing |
| `LedgerProperties.DepositEffect` | src/payments.rs:100-113 | a deposit returns `Ok` and always records ("deposit", amount); on an unlocked account it adds the amount to `available` and `total` and leaves `held` alone; a locked account is unchanged |
| `LedgerProperties.WithdrawalEffect` | src/payments.rs:115-128 | a withdrawal returns `Ok` in every case; locked: balances unchanged and recorded; `total` short: unchanged and not recorded; only `available` short: `total` alone drops and not recorded; both covered: both drop and it is recorded |
| `LedgerProperties.DisputeEffect` | src/payments.rs:130-150 | a dispute returns `Ok`; an unknown tx changes nothing and creates no account; on an unlocked account `held` rises by the recorded amount, and only if `available` covers it does `available` fall and the entry become a dispute |
| `LedgerProperties.ResolveEffect` | src/payments.rs:152-174 | an absent or non-dispute entry gives `Ok` with no change; on a locked account `Ok` with no change; with `held` covering the amount it moves to `available` and the entry is removed; otherwise `Err` with balances and history unchanged |
| `LedgerProperties.ChargebackEffect` | src/payments.rs:176-191 | on a disputed entry the account is locked even when the debit fails; `held` drops when it covers the amount (`Ok`), else `Err`; `available`, `total` and the history never change; an absent or non-dispute entry gives `Ok` with no change |
| `LedgerProperties.ProcessKeepsNonNegative` | src/payments.rs:205-231 | with non-negative amounts, one record never makes a balance or a recorded amount negative |
| `LedgerProperties.ProcessAllKeepsNonNegative` | src/payments.rs:205-231 | the same holds for every run |
| `LedgerProperties.RunFromEmptyIsNonNegative` | src/payments.rs:77-83 | starting from no accounts, every account of a run with non-negative amounts has non-negative `available`, `held` and `total` |
| `LedgerProperties.ProcessNeverUnlocks` | src/payments.rs:186 | no record deletes an account or resets `locked` |
| `LedgerProperties.OnlyChargebackLocks` | src/payments.rs:186 | only a chargeback can set `locked` |
| `LedgerProperties.LockedAccountIgnoresRecords` | src/payments.rs:100-174 | on a locked account deposit, withdrawal, dispute and resolve return `Ok` and leave every account unchanged; only deposit and withdrawal still write the history |
| `LedgerProperties.LockedStaysLocked` | src/payments.rs:176-191 | once locked, an account stays locked for the rest of any run |
| `LedgerProperties.LockedAccountUnchanged` | src/payments.rs:100-174 | a record that is not a chargeback for a locked account leaves that account as it is |
| `LedgerProperties.FrozenAccountStaysFrozen` | src/payments.rs:100-174 | a locked account keeps all its balances through any run in which no chargeback names it |
| `LedgerProperties.DepositKeepsBalance` | src/payments.rs:110-111 | a deposit keeps `total == available + held` |
| `LedgerProperties.SuccessfulWithdrawalKeepsBalance` | src/payments.rs:125-126 | a withdrawal whose rule succeeds keeps `total == available + held` |
| `LedgerProperties.SuccessfulDisputeKeepsBalance` | src/payments.rs:144-147 | a dispute whose rule succeeds keeps `total == available + held` |
| `LedgerProperties.SuccessfulResolveKeepsBalance` | src/payments.rs:166-169 | a resolve whose rule succeeds keeps `total == available + held` |
| `LedgerProperties.ChargebackBreaksBalance` | src/payments.rs:186-187 | a successful chargeback of a non-zero amount makes a balanced account unbalanced |
| `LedgerProperties.UncoveredWithdrawalBreaksBalance` | src/payments.rs:125-126 | a withdrawal covered by `total` but not by `available` is reported as `Ok`, is not recorded, and unbalances the account |
| `LedgerProperties.UncoveredDisputeBreaksBalance` | src/payments.rs:144-145 | a dispute not covered by `available` is reported as `Ok`, leaves the history as it was, and unbalances the account |
| `LedgerProperties.ResolveIsIdempotent` | src/payments.rs:158-173 | processing the same resolve twice gives the same state and result as processing it once |
| `LedgerProperties.RepeatedChargebackDebitsAgain` | src/payments.rs:182-190 | a second identical chargeback succeeds again and debits `held` a second time, leaving `total` unchanged |
| `LedgerProperties.DisputeThenResolve` | src/payments.rs:130-174 | on an unlocked account with `held >= 0` whose `available` covers the recorded amount, a dispute followed by a resolve of the same tx both succeed, leave the accounts as they were (up to creating the named one) and remove the history entry |
| `LedgerProperties.RepeatedDisputeHoldsAgain` | src/payments.rs:137-147 | disputing the same transaction twice moves its amount from `available` to `held` twice |
| `LedgerProperties.ProcessAllAppend` | src/main.rs:30-32 | a run of `ts` then `t` is the run of `ts` followed, unless it failed, by processing `t` |
| `LedgerProperties.ProcessAllKeepsAccounts` | src/payments.rs:84 | a run never deletes an account |
| `LedgerProperties.RunWithUnknownKindFails` | src/main.rs:30-32 | a run that contains a record of an unknown kind ends in `Err` |
| `Scenarios.DepositScenario` | src/payments.rs:100-113 | a first deposit of x gives available x, held 0, total x, unlocked, and a "deposit" entry |
| `Scenarios.OverdrawScenario` | src/payments.rs:115-128 | withdrawing more than was deposited leaves the state exactly as after the deposit, with `Ok` |
| `Scenarios.DisputeScenario` | src/payments.rs:130-150 | disputing the deposit gives available 0, held x, total x and a "dispute" entry |
| `Scenarios.ResolveScenario` | src/payments.rs:152-174 | resolving it gives available x, held 0, total x and an empty history |
| `Scenarios.ChargebackScenario` | src/payments.rs:176-191 | charging it back gives available 0, held 0, total still x, locked, and the entry still a dispute |
| `Scenarios.RepeatedChargebackScenario` | src/payments.rs:176-191 | a second chargeback of a positive x fails with `Err` and changes nothing |

## Left out

- Reading CSV input, trimming, headers, the choice between streaming and
  batch reading by file size, and writing the ledger to standard output
  (src/main.rs:9-57). These are I/O. Only the in-order loop that stops at the
  first error is modelled, as `ProcessAll`.
- Deserialising the record type from a string (src/payments.rs:7-28). The
  record kind is the datatype `Kind`. Every name other than the five that
  `Transaction::process` matches is the single case `Kind.Other`.
- `f32` arithmetic and its rounding (src/payments.rs:5). Amounts are exact
  integers in minor units.
- Error message texts and `Box<dyn Error>`. A single `Err` value stands for
  every error.
- The panic when a deposit or withdrawal has no amount. It is the
  precondition `HasRequiredAmount` on `Process` and `AllHaveAmounts` on
  `ProcessAll`.
- The iteration order of the client map when it is written out.
- The state that `ProcessAll` returns together with `Err`. The program
  writes no ledger in that case: the error skips `write_csv` at
  src/main.rs:31 and `unwrap` panics at src/main.rs:56. That state stands for
  no output at all.
- Parsing of out-of-range client or transaction ids. Both are subset types of
  `int` limited to the `u16` and `u32` ranges.
- The source passes the two maps to `Transaction::process` as mutable
  references. The model has one `Engine` object own both maps instead.
