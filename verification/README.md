# ANetHub: settlement, replay, streams and directories

A Dafny model of the state machines an ANetHub hub keeps exact promises with, and proofs
of those promises. `dafny verify dfyconfig.toml` checks everything.

Each SQL transaction, and each critical section under a lock, is one atomic step whose
refusal leaves the state as it was. Where the hub changes its state step by step, there is
a class or a method with loops that does the same and is proved to be a function on the
state (`LedgerStore`, `ReplayStore`, `CardStreamStore`, `KeyHistories.Store`,
`RotationConsole`, `TokenBucketSet`, `AdmissionGateStore`); the promises are then lemmas
about every run of those functions.

## What is modelled

* **Ledger** (`Amounts`, `Ledger`, `LedgerRuns`, `LedgerSafety`, `LedgerPromises`,
  `LedgerEffects`, `LedgerRefusals`, `LedgerWitness`, `LedgerStore`): one hub's balances, entries, settled rows, binding guards, cleared
  receipts, first-verification records, what it owes peers and is owed, issued and redeemed
  totals. A run interleaves grants, verifications, settlements, peer receipts, discharges,
  janitor rounds and key-history changes, each with an arbitrary clock reading.
* **Clearing** (`Clearing`, `ClearingSafety`, `ClearingPromises`, `ClearingAccounts`,
  `ClearingWitness`, `ClearingWriteOff`): any number of hubs, each
  with its own ledger and clock, over a network that loses, delays and repeats every
  receipt, statement and acknowledgement. `Forwarding` is one cross-hub payment from the
  payee's hub through the payer's hub and back, against any answer a peer may give.
* **Replay state RC1** (`Replay`, `ReplayRuns`, `ReplayAlone`, `ReplayFloors`,
  `ReplayReasons`, `ReplayRestart`, `ReplayStore`): floors, recent times, the shared floor of a part, the idle sweep and the
  memory valve.
* **A2A card stream** (`CardStream`, `CardStreamSafety`, `CardStreamPromises`,
  `CardStreamStore`): cards and withdrawals over one position counter, and a reader.
* **Directory** (`DirectoryBits`, `BucketPages`, `HomeResolution`).
* **Key histories** (`KeyHistories`) and **rotation files** (`RotationFiles`,
  `RotationConsole`).
* **Token buckets** (`TokenBuckets`, `TokenBucketSet`), over reals, and the **admission
  gate** (`AdmissionGate`, `AdmissionGateSafety`, `AdmissionGatePromises`,
  `AdmissionGateBlocks`, `AdmissionGateDays`, `AdmissionGateReopened`, `AdmissionGateStore`).

## Terms and assumptions

* Signatures are facts: an authorization carries whether its payer's signature verifies.
  Digests are injective, so an authorization's terms stand for its id, and a commitment is
  the seed and the number of the key it is of.
* An authorization's `Verify` allows the clock skew of the payment package
  (`payment.ClockSkew`, which is not part of this model) around its window; it is a
  parameter, as are `relayauth.MaxSkewMillis` and the outcome of `CheckNewEvents`.
* `ExtendsKEL` is "is a prefix of". `supplyEventTx` and `issuedTotal` are adding to the
  issued or redeemed total and reading the former.
* The hub's own AID is never a registered agent, so it is never a payer on its own ledger
  and never granted to.
* A clock reading is a number of milliseconds far enough from the ends of int64 that the
  retention times can be added to it; settle times, `IssuedAt` and `NotAfter` are any int64.
* A restart of the hub loses what is only in memory: the admission gate, the replay state
  and the token buckets. A registration or a trial grant that is in progress then was
  written to the database or was not, and either way is no longer given back. Everything
  else modelled is in the database.
* A bucket's rate does not change; a recovery file is looked for at one path.
* `hubid` is not part of this model: recovery is set once the identity was rotated.
  `dirbox` neither: a prefix is as many bytes as its bits need, the unused ones 0.

## What the proofs found

* **The 7 days are 7 days less the allowed skew.** A second debit of one authorization
  needs a clock that stepped back by `SETTLED_KEPT_AFTER - clockSkew`, not by 7 days: a
  settlement may still be accepted up to the skew after `NotAfter`, while the settled row
  is kept for 7 days after `NotAfter` itself (`SecondDebitNeedsAClockStep`). The bound is
  attained: `DebitedTwice` is such a run, for a payee here and for a peer, and with a
  binding once its 30 days are read as over.
* **Hubs agree exactly while nothing moves twice.** Two hubs' records of each other are
  proved to agree in every run in which no clock steps back a day and no request waits
  7 days, the bounds under which a hub debits and credits once. Whatever the clocks do, a
  receipt or a settlement breaks the agreement if and only if it passes the hub's own
  guards a second time (`AgreesUnlessCreditedAgain`, `AgreesUnlessDebitedAgain`); steps
  back of exactly a day and of 7 days less the skew do it (`CreditedTwice`,
  `DebitedAgain`). What the records then add up to is `AccountsAlwaysAgree` and
  `TotalAlwaysAgrees`; a write-off can then fail after its acknowledgement
  (`WriteOffFails`), exactly when `WriteOffCovered` says.
* **A record saying "tip" does not outlive every rotation.** A payment first verified at
  the tip of its payer's key history passes later checks if and only if its key was still
  valid at `IssuedAt`, because `verifiedAuth` judges that first (`TipRecordHonoured`); a
  rotation urgent enough to reach back to `IssuedAt` blocks it (`TipPaymentBlocked`).
* **The reported floor can be another signer's.** Every answer to a signer is that of a
  state of its own, but the floor reported to a peer is not: once a sweep drops an idle
  signer, its largest time is the floor of everyone in its part of whom nothing is kept,
  also of one that never signed (`FloorOfAnother`). The two floors differ only below the
  window (`AnsweredAsAlone`), and are equal under any clock until such a sweep
  (`SweepTellsTheFloor`, `OwnFloorUntilForgotten`).
* **Daily limits are limits of one roll of the day.** Registrations and trial grants per
  network, and the hub's trial budget, are counted in process memory from the last time the
  day number changed. A clock that leaves a day and comes back to it starts the day's
  counters again (`BudgetGrantedTwice`, `NetworkGrantedTwice`), and so does a restart of the
  hub, under a clock that does not step back (`RestartGrantsAgain`,
  `RestartGrantsNetworkAgain`): the limits are given out a second time on one UTC day. Under
  any clock and any restarts a day's reservations are at most the limit times the rolls of
  that day (`DailyLimits`); the counters are the day's throughout a run if and only if it
  never rolls onto a day with reservations (`CountersAreTheDays`, `DayStaysExact`), and then
  every limit holds for every UTC day (`DaysWithinLimits`): so under a clock that does not
  step back, on a hub that does not restart on a day with reservations
  (`SteadyDaysWithinLimits`).
* **A restart forgets what was signed ahead.** A request signed at or after the start of the
  new process, and accepted by the one before, is accepted once more while it is in the
  window (`ForgottenByARestart`), and none signed earlier ever is (`NothingEarlier`).
* **The hub-wide count of trial grants can also be too low for its own roll.** `release`
  compares day numbers: after the clock left a day and came back, giving back a grant of
  the earlier roll takes one off the later one (`StrayGrantUncounted`), exactly then
  (`StepGrants`). The per-network counters are always exact for their roll, as each roll
  makes a fresh key (`CountersExact`).
* **A key set that went without its card would not be announced.** A new key history drops
  a key set its tip did not sign and gives the card no new position for it; beside a card
  that still verified, readers would keep the old set (`KeysGoUnannounced`). The key that
  signs the set signs the card, so the re-check that follows delists the card, and that is
  announced.

## Model

| member | source | states |
|---|---|---|
| Amounts.AmountRoundTrip | internal/aghub/amount.go:32-50 | an amount is taken exactly when it is positive as an int64, and reads back as itself |
| Amounts.AddToRow | internal/aghub/amount.go:84-107 | the addition is refused exactly when the sum leaves int64 (or the delta cannot be negated), and otherwise is the sum |
| Amounts.WindowTooLongIsExact | internal/aghub/facilitator.go:332-339 | for every two int64 times the wrapped difference is the true one: longer than a day exactly when refused |
| Amounts.FirstVerifyDeleteAfter | internal/aghub/facilitator.go:585-591 | NotAfter plus 7 days, or the largest int64 when that would overflow |
| LedgerPromises.BooksBalance | internal/aghub/facilitator.go:95-138 | in every reachable state all balances sum to 0, the hub's row is redeemed less issued, no account is below 0, each is the sum of every entry ever written for it, and every row and total is an int64 |
| LedgerPromises.SettlesWhatTheEntriesCover | internal/aghub/facilitator.go:853-960 | in every reachable state a settlement is made exactly when all the entries ever written for its payer cover its amount, the amount fits, the authorization is new, its binding free and the payee where the caller says |
| LedgerEffects.SettlementPays | internal/aghub/facilitator.go:905-1040 | a settlement answered anew takes exactly its amount from the payer and gives it, for this hub's own caller, to the payee, and for a peer to this hub's row and what is due to that peer; credit leaves circulation only at the hub's own row; no other account changes; the receipt and the rows against a repeat say so; any other answer changes nothing |
| LedgerEffects.PaymentIsWritten | internal/aghub/facilitator.go:919-1033 | in every reachable state the entries of payer and payee move by the amount, as their accounts do |
| LedgerEffects.RefusedExactly | internal/aghub/facilitator.go:853-950 | which refusal of a settlement is given when several hold |
| LedgerEffects.GrantCredits | internal/aghub/facilitator.go:95-138 | a grant is made exactly when positive and within the room for issuing, and credits the account out of the hub's row |
| LedgerEffects.ReceiptCredits | internal/aghub/facilitator.go:1429-1546 | a receipt that is due credits its payee out of the hub's row and is owed by the peer; any other changes nothing |
| LedgerEffects.StatementAnswered | internal/aghub/redemption.go:350-415 | a statement is answered yes exactly when it is the peer's, to this hub, payable, and applied before or within what is owed; only a new one changes what is owed |
| LedgerEffects.AppliedStays | internal/aghub/redemption.go:374-394 | a statement applied once is answered yes at any later point of any run, and changes nothing |
| LedgerEffects.DueIsWrittenOff | internal/aghub/facilitator.go:1604-1620 | what is due is written off exactly when positive and no more than is due |
| LedgerEffects.ChecksExactly | internal/aghub/facilitator.go:345-487 | the checks let an authorization through exactly when it is payable, for this ledger, by an agent here, valid for at most a day and now, signed under a key valid when it is dated, and that key is valid now or was the tip at the first verification |
| LedgerEffects.CheckRefusedExactly | internal/aghub/facilitator.go:345-487 | which refusal of the checks is given when several hold |
| LedgerEffects.RecordedExactly | internal/aghub/facilitator.go:495-562 | a first verification is recorded exactly when it is the first, in its window, and the payer has fewer than 5000 records, or 20 while it lacks the credit |
| LedgerEffects.RequestSettlesExactly | internal/aghub/facilitator.go:655-760 | a whole request settles anew exactly when its authorization may settle and is due, and then pays |
| LedgerEffects.SweepKeepsExactly | internal/aghub/janitor.go:94-140 | in every reachable state a janitor's round leaves of settled rows, first verifications, bindings and cleared receipts exactly those not past their time |
| LedgerEffects.HistoriesTaken | internal/aghub/aghub.go:712-826 | when the ledger's view of the registry takes a history, and what an agent that leaves leaves behind |
| LedgerRefusals.RefusedForAReason | internal/aghub/facilitator.go:853-950 | a duplicate binding, a duplicate nonce or missing credit is answered only when a settlement under 30 days ago, one for another caller, or the entries ever written say so |
| LedgerRefusals.RecordsStayBounded | internal/aghub/facilitator.go:535-562 | no payer's first-verification records ever pass their bound |
| LedgerPromises.SecondDebitNeedsAClockStep | internal/aghub/facilitator.go:853-917 | two debits of one authorization: by the second, the clock had read 7 days less the skew past the reading the window was checked at |
| LedgerPromises.DebitedAtMostOnce | internal/aghub/janitor.go:94-95 | while no clock steps back that far, each authorization debits its payer at most once over every run of settles, retries, redemptions and janitor rounds |
| LedgerPromises.SteppedBackClockDebitsAgain | internal/aghub/janitor.go:94-95 | any settled payment, with or without a binding, to a payee here or for a peer, is debited again by a clock that for one janitor round reads past its row and its binding and then steps back into its window, while its payer holds the credit and its key |
| LedgerWitness.DebitedTwice | internal/aghub/janitor.go:94-97 | runs from an empty ledger that do: with a binding or without, for a payee here or for a peer; without one by a step back of exactly 7 days less the skew, the bound above |
| LedgerPromises.RepeatAnsweredAndMovesNothing | internal/aghub/facilitator.go:812-825 | a repeat gets the receipt of the debit if it is for the same caller, duplicate_nonce if not, at any clock reading, and nothing moves |
| LedgerPromises.RepeatAfterPruningExpired | internal/aghub/facilitator.go:655-701 | once the settled row is deleted a repeat is refused as expired and nothing is written, unless the clock stepped back 7 days less the skew |
| LedgerPromises.DebitKeyJudged | internal/aghub/facilitator.go:471-487 | every debit was signed by its payer, inside its window, under a key valid at the check or found to be the active tip at a first verification here |
| LedgerPromises.TipRecordHonoured | internal/aghub/facilitator.go:495-553 | a payment found at the tip passes every later check in its window if and only if its key was valid at IssuedAt, unless the clock stepped back 7 days less the skew |
| LedgerWitness.TipPaymentBlocked | internal/aghub/facilitator.go:471-487 | a run in which a payment recorded at the tip is refused inside its window after a rotation that retires its key from its own date on |
| LedgerPromises.OneRecordInTime | internal/aghub/janitor.go:103-104 | until 7 days after NotAfter there is one first-verification record per authorization |
| LedgerPromises.OneSettlementPerTask | internal/aghub/facilitator.go:905-917 | two settlements of one payer under one binding: the clock had read 30 days past the first; under a clock that never steps back they are 30 days apart |
| LedgerPromises.ReceiptCreditedOnce | internal/aghub/facilitator.go:1470-1502 | a peer receipt credits twice only on a clock that stepped back a full day, for every int64 settle time |
| LedgerSafety.StepKeepsInv | internal/aghub/facilitator.go:853-1040 | every transaction keeps the books, the record of debits, guards, credits, tickets and first verifications |
| LedgerSafety.RunKeepsInv | internal/aghub/facilitator.go:853-1040 | and so does every run |
| LedgerRuns.SolventIsInRange | internal/aghub/amount.go:125-136 | what a solvent ledger bounds: nothing on it exceeds what was issued, which fits int64 |
| LedgerStore.SolventFits | internal/aghub/facilitator.go:919-1033 | every row a settlement touches can hold what it becomes |
| LedgerStore.MoveCredit | internal/aghub/facilitator.go:953-1033 | the bounded row updates of a settlement pay the payee here, or the hub's row for a peer: the overflow refusals are not reached |
| LedgerStore.SettleTx | internal/aghub/facilitator.go:853-1040 | the statements of settleAuth are the settlement of the specification, refusals included |
| LedgerStore.IssueTx | internal/aghub/facilitator.go:95-138 | issuing moves credit out of the hub's row up to the room there is, and no row overflows |
| LedgerStore.ClearTx | internal/aghub/facilitator.go:1429-1546 | clearing a receipt is the specified credit, refusals in their order, and no row overflows |
| LedgerStore.Store.SettleAuth | internal/aghub/facilitator.go:853-1040 | on a solvent ledger the transaction is the specification and leaves it solvent; answered anew it pays its payee, else nothing changes |
| LedgerStore.Store.Issue | internal/aghub/facilitator.go:128-138 | likewise for issuing |
| LedgerStore.Store.ClearFromPeer | internal/aghub/facilitator.go:1429-1546 | likewise for clearing |
| LedgerStore.Store.SettleOwed | internal/aghub/redemption.go:350-415 | a statement is applied once, and only up to what is owed |
| LedgerStore.Store.DischargeDue | internal/aghub/facilitator.go:1604-1620 | what is due is reduced only by what is there |
| LedgerStore.Store.RecordFirstVerify | internal/aghub/facilitator.go:495-580 | the first whole verification is recorded once, and says whether the key was the tip; no payer's records pass their bound |
| LedgerStore.Store.KeyAtFirstVerify | internal/aghub/facilitator.go:471-487 | window, key as it stood, record, key now: the specified check in order, within the same bound |
| LedgerStore.Store.PruneLedgerAt | internal/aghub/janitor.go:113-140 | the loop over the tables leaves of each exactly what is not past its time |
| ClearingPromises.PairConserved | internal/aghub/facilitator.go:1429-1546 | in every run in which no clock steps back a day and no request waits 7 days, what A records due to B less what B records owed by A is what is on the way, which is at least 0 |
| ClearingPromises.TotalConserved | internal/aghub/facilitator.go:919-1033 | in those runs, what the hubs' accounts hold and what is on the way is all grants less all redemptions |
| ClearingAccounts.AccountsAlwaysAgree | internal/aghub/facilitator.go:1429-1546 | in every run under any clocks: due less owed is every debit A made for B, as often as it was made, less every credit at B on A's receipts, and the discharges applied and not written off |
| ClearingAccounts.TotalAlwaysAgrees | internal/aghub/facilitator.go:919-1033 | in every run under any clocks: what all accounts hold, with every debit for a peer and less every credit on a receipt, is all grants less all redemptions |
| ClearingAccounts.RunKeepsHubs | internal/aghub/facilitator.go:853-1040 | in every run of any number of hubs, under any clocks, every hub's ledger keeps all that a single hub's does |
| ClearingPromises.InFlightExactly | internal/aghub/facilitator.go:721-760 | in runs in which no clock steps back a day and no request waits 7 days, on the way to a payee means debited for the peer and not credited there |
| ClearingPromises.UnsubtractedExactly | cmd/anet-hub/clear_fed.go:46-132 | in those runs, on the way of a discharge means applied by the creditor and not written off by the debtor |
| ClearingPromises.AcknowledgedDischargeIsCovered | cmd/anet-hub/clear_fed.go:46-132 | in those runs the write-off after an acknowledgement never fails, whatever was settled, signed or written off in between |
| ClearingAccounts.WriteOffCovered | cmd/anet-hub/clear_fed.go:46-132 | in every run under any clocks it succeeds exactly when what the creditor credited beyond what the debtor debited is at most what is still recorded owed and the other discharges on their way; so always while no more was credited than debited |
| ClearingWriteOff.WriteOffFails | cmd/anet-hub/clear_fed.go:46-132 | a run in which it fails: a receipt was credited twice, and two discharges of all that is due are signed, applied and acknowledged |
| ClearingPromises.AgainChangesNothing | internal/aghub/redemption.go:350-415 | a statement delivered again changes no ledger; nor does a receipt, in those runs, while the clock it is delivered under has not stepped back a day |
| ClearingPromises.AgreesUnlessCreditedAgain | internal/aghub/facilitator.go:1470-1502 | whatever the clocks read, delivering a receipt leaves two agreeing hubs in agreement if and only if it is not a receipt credited before that has lost its row, is dated within 7 days (and the skew ahead), and fits the room for issuing |
| ClearingPromises.AgreesUnlessDebitedAgain | internal/aghub/facilitator.go:853-917 | and a settlement for a peer if and only if its credit is not on its way already while its settled row is gone, its binding free, its payer's credit there and its payee not here |
| ClearingWitness.CreditedTwice | internal/aghub/janitor.go:98-99 | a run of two hubs in which a receipt is credited a second time after a step back of exactly a day, and their records disagree |
| ClearingWitness.DebitedAgain | internal/aghub/janitor.go:94-95 | a run of two hubs in which a payment on its way is debited a second time after a step back of 7 days less the skew, and their records disagree |
| ClearingSafety.NextKeepsInv | internal/aghub/redemption.go:350-465 | every event at any hub keeps the agreement of every pair and the total |
| Forwarding.PaidMeansCredited | internal/aghub/facilitator.go:1314-1395 | in every run, whatever a peer answers: the hub's rows stay as they were or become those of one more clearing of the run, on a signed receipt; and the merchant is told it is paid only when a credit of that authorization is in the run's past, by a receipt naming the required payee and exactly what the payer signed, at least what was required |
| Forwarding.AnsweredExactly | cmd/anet-hub/wire_federation.go:186-241 | what each answer of the ledger hub means to the merchant: pending while there is no answer, or a matching receipt that does not verify or fit yet; failed only when the payment is not forwarded, not served, refused, without a receipt, with one for other terms, or with one dated where no retry can clear it |
| Forwarding.ChargedIsPending | internal/aghub/facilitator.go:1244-1290 | once the payer's hub charged, a lost answer or a receipt that does not verify is pending at the payee's hub, and nothing is credited |
| Forwarding.ChargesExactly | internal/aghub/facilitator.go:721-760 | the payer's hub charges for a peer exactly when the payment meets what is required, may settle and is due, and its payee is not the peer |
| Forwarding.RequirementRefusedExactly | internal/aghub/facilitator.go:219-281 | which refusal of the requirement checks is given when several hold |
| Forwarding.NotForwardedExactly | internal/aghub/facilitator.go:655-690 | which refusal the payee's hub gives a payment it does not forward |
| Forwarding.PeerRefusedExactly | internal/aghub/facilitator.go:721-755 | which refusal the payer's hub gives before it looks at what is settled; after that the request is one on its own ledger |
| Forwarding.RefusedIsNotCharged | internal/aghub/facilitator.go:721-760 | a refusal by the payer's hub leaves its balances, dues and settled rows as they were |
| Forwarding.ChargedWhatThePayerSigned | internal/aghub/facilitator.go:721-760 | a charge for a peer is what the payer signed, due to that peer, and the receipt says so |
| Forwarding.RetryCompletes | cmd/anet-hub/wire_federation.go:186-241 | a charge whose answer was lost is pending, and is completed by asking again: charged once, credited the same amount |
| ReplayRuns.NeverTwice | internal/aghub/auth2.go:280-408 | no signed time of a signer is accepted twice by one process of the hub, under any clock, any K, any sweeps and valve runs |
| ReplayRuns.AnswerExplained | internal/aghub/auth2.go:280-311 | in every reachable state: outside the window, else stale exactly at or below the reported floor, else replayed exactly when accepted before, else accepted |
| ReplayRuns.OutOfOrderByLessThanW | internal/aghub/auth2.go:303-305 | in every run a time W or more behind an accepted one is stale |
| ReplayRuns.FloorsRise | internal/aghub/fed_relay.go:271-279 | the floor one process reports for a signer never falls |
| ReplayRuns.FlattenedIsMonotonic | internal/aghub/auth2.go:350-401 | a signer the valve flattened has accepted exactly what is above everything it signed, in the window; nobody else notices |
| ReplayRestart.NothingEarlier | internal/aghub/auth2.go:225-239 | no run of a new state ever accepts a time signed before it was made |
| ReplayRestart.AcceptedTwiceWasAhead | internal/aghub/auth2.go:133-140 | a signer's time that two processes of a hub both accept is at or after the start of the later one |
| ReplayRestart.ForgottenByARestart | internal/aghub/auth2.go:133-140 | a time accepted before a restart is accepted once more by the new state if and only if it is not before its start and still in the window |
| ReplayRestart.OncePerStart | internal/aghub/auth2.go:133-140 | over any number of restarts, under any clocks, a signer's time is accepted at most once for every process started by then |
| ReplayAlone.AnsweredAsAlone | internal/aghub/auth2.go:267-336 | under a clock that does not step back, without the valve, every answer is that of a state of the signer's own that never forgets; the floors of the two are equal or both below the window |
| ReplayFloors.SweepTellsTheFloor | internal/aghub/auth2.go:323-336 | a sweep leaves the floor reported for a signer as it was exactly when it does not drop the signer, nor, for one it has no state of, an idle signer of its part above the part's floor |
| ReplayFloors.OwnFloorUntilForgotten | internal/aghub/fed_relay.go:271-279 | under any clock, while no sweep forgets a signer so, the floor reported for it is exactly that of a state of its own |
| ReplayFloors.FloorOfAnother | internal/aghub/fed_relay.go:271-279 | afterwards it need not be: a run in which a signer that never signed is told the floor of another |
| ReplayAlone.OthersDoNotMatter | internal/aghub/auth2.go:241-243 | so no answer depends on other signers, the number of parts, or the sweeps |
| ReplayReasons.StaleForAReason | internal/aghub/auth2.go:296-311 | a time in the window is stale only at or below the start floor, or W behind an accepted time, or with K accepted times above it |
| Replay.TookOk | internal/aghub/auth2.go:296-319 | taking a time keeps the state in order, at most max(K,1) times, each kept or at or below the floor |
| ReplayStore.ReplayState.constructor | internal/aghub/auth2.go:231-239 | the state a process starts with: no signers, the floor of every part just before its start, and every part swept then |
| ReplayStore.ReplayState.AcceptLocked | internal/aghub/auth2.go:280-311 | one request in place is the specified answer and state, and the byte count stays the sum over signers |
| ReplayStore.ReplayState.TakeTime | internal/aghub/auth2.go:296-311 | insertion, following the largest time and the trimming loop are the specified update |
| ReplayStore.ReplayState.KeepLargest | internal/aghub/auth2.go:306-308 | raising the floor one time after another keeps exactly the largest n |
| ReplayStore.ReplayState.SweepLocked | internal/aghub/auth2.go:323-336 | the sweep loop drops exactly the idle signers of the part and raises its floor to the largest top dropped |
| ReplayStore.ReplayState.FlattenOldest | internal/aghub/auth2.go:391-401 | signers lose their times oldest first until the state is small enough |
| ReplayStore.ReplayState.Relieve | internal/aghub/auth2.go:357-408 | past the high mark the state ends below the low one or with every signer monotonic, the oldest first, by sweeps and flattenings alone |
| ReplayStore.ReplayState.Accept | internal/aghub/auth2.go:267-278 | a whole request is the specified answer, then housekeeping alone: the signer's part and the next in turn are left swept within 10 s, and past the high mark the valve has acted unless it is at rest |
| ReplayStore.ReplayState.PeerFloor | internal/aghub/fed_relay.go:271-279 | the floor of the signer, or of its part |
| CardStreamPromises.WrongIsAhead | internal/aghub/fed_a2acard.go:122-249 | in every interleaving, whatever a reader has wrong of an agent has an entry ahead of its cursor that puts it right |
| CardStreamPromises.PublishShows | internal/aghub/fed_a2acard.go:186-249 | what each operation makes the hub publish of its agent, and of no other |
| CardStreamPromises.PublishStores | internal/aghub/a2acard.go:268-346 | what each operation makes the hub store of its agent, whatever the visibility: an admitted card is stored and listed, one that fails is kept unlisted, visibility and key set are what was set, and who leaves leaves nothing |
| CardStreamPromises.ShownOnceFederated | internal/aghub/fedstream.go:69-97 | a card admitted while its agent is known to this hub alone is published, in those bytes, once the agent federates, whatever others did in between |
| CardStreamPromises.NothingSetNothingMoves | internal/aghub/a2acard.go:268-325 | setting what is set already, the listed card in the same bytes, the same key set, a visibility that federates as much, a check that passes, moves no entry: no reader is sent it again |
| CardStreamPromises.ReadAdvances | internal/aghub/fed_a2acard.go:122-184 | a page for a limit of 1 to 500 takes that many of what is ahead of the reader, any other 100, or all there is |
| CardStreamPromises.AtHeadIsRight | internal/aghub/fed_a2acard.go:122-184 | a reader with nothing ahead holds exactly the listed cards of federating agents, at current bytes and key sets |
| CardStreamPromises.QuietReaderConverges | internal/aghub/fed_a2acard.go:122-184 | once the publisher is quiet, pages that add up to what is ahead make the reader right, however cut |
| CardStreamPromises.PositionsAreNew | internal/aghub/a2acard_withdraw.go:104-111 | an entry stays where it is or moves to a position never given out |
| CardStreamPromises.PageIs | internal/aghub/fed_a2acard.go:122-184 | a page is in order, within its limit, ahead of the cursor, and made of entries of the stream |
| CardStreamSafety.AdmittedMoves | internal/aghub/a2acard.go:268-346 | admitting a card announces what it changes at a new position and lifts a withdrawal it supersedes |
| CardStreamSafety.RecheckedMoves | internal/aghub/a2acard.go:353-425 | so does delisting one, with a withdrawal when the agent federates |
| CardStreamPromises.KeysGoUnannounced | internal/aghub/a2acard.go:353-425 | a key set that went and left its published card would not be announced: a reader at the head would keep it |
| CardStreamSafety.TakenBackMoves | internal/aghub/a2acard_withdraw.go:43-74 | so does an agent taking its card back |
| CardStreamSafety.VisibleMoves | internal/aghub/fedstream.go:69-97 | so does a change of visibility |
| CardStreamSafety.KeyedMoves | internal/aghub/keys.go:294-300 | so does a new key set |
| CardStreamSafety.DeregisteredMoves | internal/aghub/deregister.go:105-135 | so does leaving |
| CardStreamStore.Tables.NextA2AFedSeq | internal/aghub/a2acard_withdraw.go:104-111 | the next position is past the stored head and every row's |
| CardStreamStore.Tables.AdmitCard | internal/aghub/a2acard.go:289-345 | the writes of an admission, the unchanged card included: the specified change, announced at a new position, every row at a place of its own; the card is stored and listed whatever the visibility |
| CardStreamStore.Tables.RecheckCard | internal/aghub/a2acard.go:353-425 | the writes of a re-check, likewise, unless it takes the key set and leaves the published card |
| CardStreamStore.Tables.SetVisibility | internal/aghub/fedstream.go:69-97 | refused for an agent not registered; otherwise the specified change, announced likewise |
| CardStreamStore.Tables.A2ACardsSince | internal/aghub/fed_a2acard.go:122-184 | the loop serves exactly the first entries after the cursor, and the cursor to ask after next |
| DirectoryBits.DirMaxBits | internal/aghub/directory.go:301-320 | the largest number of bits below 64 at which every bucket holds 32, 0 if none, and every smaller one qualifies: the early stops are sound |
| DirectoryBits.QualifiesBelow | internal/aghub/directory.go:296-300 | buckets merge in pairs, so qualifying is downward closed |
| DirectoryBits.BucketIsRange | internal/aghub/directory.go:296-320 | the buckets of b-bit prefixes are the 2^b ranges of 2^(64 - b), one after the other |
| DirectoryBits.BucketRange | internal/aghub/directory.go:382-391 | a hash is between lo and hi exactly when it has the prefix |
| BucketPages.DirBucket | internal/aghub/directory.go:340-378 | refused exactly for a cursor outside the bucket; else the page is exactly the hub's entries of the bucket between its cursors, fits an answer, and its next cursor is in the bucket |
| BucketPages.MergedBucket | internal/aghub/fed_home.go:821-889 | refused likewise; else the page is exactly everybody's entries of the bucket between its cursors, sorted stably, whole hashes at a time; the next cursor is further on and in the bucket; more than one hash fits an answer |
| BucketPages.FollowPages | internal/aghub/fed_home.go:821-889 | following next is never refused and ends, with the stable sort of the hub's and every peer's entries of the bucket, nothing missing or repeated |
| HomeResolution.LookupEntryOnce | internal/aghub/fed_home.go:583-635 | nothing exactly when nothing verified or some two histories fork; otherwise the longest history with the newest key set, the first of equals |
| HomeResolution.OrderDoesNotMatter | internal/aghub/fed_home.go:609-634 | any order of the same entries gives the same history and key set |
| HomeResolution.ForkWhateverTheOrder | internal/aghub/fed_home.go:609-634 | and a fork, or nothing, in one order is so in every order |
| KeyHistories.HistoriesOnlyExtend | internal/aghub/aghub.go:712-826 | between any two points of a run, what is held of an AID is kept or extended, leaving and coming back included; a tombstone is a prefix of the registered history beside it |
| KeyHistories.TakenExactlyWhenItExtends | internal/aghub/kelpush.go:313-392 | a history is taken exactly when it extends what is held (a pushed one when it is longer and in time), and then it is what is held |
| KeyHistories.RegisteringIsExact | internal/aghub/aghub.go:712-826 | a registration taken leaves the agent registered under exactly its history, tombstones and others as they were; else nothing changes, and which refusal it is |
| KeyHistories.PushingIsExact | internal/aghub/kelpush.go:313-392 | a push taken is the registered history, or the tombstone and the agent gone when it ends in a deactivation, or the tombstone of one that left; no push registers anybody; and which refusal it is |
| KeyHistories.LeavingIsExact | internal/aghub/deregister.go:105-199 | a deregistration is done exactly when the agent is registered; then it is gone and its whole history is the tombstone, others as they were |
| KeyHistories.ComesBackWithItsHistory | internal/aghub/deregister.go:154-199 | whatever happens after an agent left, a registration of it that is taken extends the history it left with |
| KeyHistories.TombstoneNeverShrinks | internal/aghub/deregister.go:203-232 | the refusal to shrink a tombstone is never reached |
| KeyHistories.NoForkEverTaken | internal/aghub/kelpush.go:313-392 | of two histories ever taken for one AID, one extends the other |
| KeyHistories.Store.PutAgent | internal/aghub/aghub.go:712-826 | a registration in place is the specified step; what is held of every AID is kept or extended, and tombstones stay behind |
| KeyHistories.Store.PushKEL | internal/aghub/kelpush.go:313-392 | so is a push, a deactivation ending in a deregistration |
| KeyHistories.Store.Deregister | internal/aghub/deregister.go:154-199 | a deregistration takes a registered agent out and keeps its history as the tombstone, and changes nothing for another; it never finds a tombstone it would shrink |
| RotationFiles.NeverLosesTheSeed | cmd/anet-hub/identity_ops.go:161-282 | however many commands stopped at whatever write: once recovery is set, path or path.new holds a seed deriving the committed key, and finishing leaves that file at path alone |
| RotationFiles.FinishLeavesTheRightFile | cmd/anet-hub/identity_ops.go:161-178 | finishNewRecovery leaves the right file at path and no .new |
| RotationFiles.StoppedRenewOpens | cmd/anet-hub/identity_ops.go:570-611 | after a change of recovery stopped anywhere, the file finished opens to the seed the saved identity commits to |
| RotationFiles.RenewEnds | cmd/anet-hub/identity_ops.go:450-563 | a completed change leaves the identity two keys on, committed to the new seed, whose file is alone at path |
| RotationFiles.RotateEnds | cmd/anet-hub/identity_ops.go:488-505 | a completed rotation commits to the next key of the same seed, and the file still opens |
| RotationFiles.SetupEnds | cmd/anet-hub/identity_ops.go:337-439 | a completed setup leaves the new seed's file alone at path and the identity committed to its key |
| RotationFiles.SetupIsExact | cmd/anet-hub/identity_ops.go:337-439 | what a setup leaves of any disk: a file at path is never replaced but by that of a setup that stopped, and with its place given nothing is touched |
| RotationFiles.RotateIsExact | cmd/anet-hub/identity_ops.go:450-505 | what a rotation leaves of any disk, refused or not, its file opening or not |
| RotationFiles.RenewIsExact | cmd/anet-hub/identity_ops.go:506-563 | what a change of recovery leaves of any disk, whichever of its rotations is refused, its file opening or not |
| RotationConsole.Console.RunSetupRecovery | cmd/anet-hub/identity_ops.go:337-439 | the command makes its writes in order as far as it gets, and is safe wherever it stops |
| RotationConsole.Console.RunRotate | cmd/anet-hub/identity_ops.go:450-505 | likewise |
| RotationConsole.Console.RunRenew | cmd/anet-hub/identity_ops.go:506-546 | likewise for the two rotations |
| RotationConsole.Console.RotateTo | cmd/anet-hub/identity_ops.go:259-282 | the writes of one rotation, around the identity file |
| TokenBuckets.TakesBounded | internal/aghub/limits.go:348-442 | in any stretch of length T a key takes at most its burst, its rate over T and what it was given back |
| TokenBuckets.RestartForgets | internal/aghub/limits.go:342-344 | a restart, which leaves no buckets, is the forgetting of every key, so it gives each key its burst and no more |
| TokenBuckets.SweepsUnobservable | internal/aghub/limits.go:348-355 | every answer of a run is the answer without its sweeps |
| TokenBuckets.LevelLater | internal/aghub/limits.go:356-367 | looking at a bucket in between changes nothing about what it holds later |
| TokenBuckets.RefillsAtItsRate | internal/aghub/limits.go:345-368 | a key never seen holds its burst; what a bucket holds grows by its rate, up to the burst |
| TokenBuckets.OperationsAreExact | internal/aghub/limits.go:401-466 | when a take of one or of n is granted and what is left; what a refund, a debit and a forgetting leave; no other key notices |
| TokenBucketSet.WaitIsExact | internal/aghub/limits.go:371-376 | at any later time, a bucket that refused holds a token exactly when the wait it told is over |
| TokenBucketSet.BucketSet.Refilled | internal/aghub/limits.go:348-368 | the refill, and the sweep loop that drops exactly the full buckets |
| TokenBucketSet.BucketSet.Peek | internal/aghub/limits.go:380-397 | empty exactly when less than a token is held, with the exact wait |
| TokenBucketSet.BucketSet.Take | internal/aghub/limits.go:401-410 | one token or none |
| TokenBucketSet.BucketSet.TakeAll | internal/aghub/limits.go:478-493 | at one instant: granted exactly when every bucket holds as many tokens as it is named for, each then short by that many; else every bucket is at the level it had, also one named twice, and the first that could not afford it is told |
| AdmissionGatePromises.CountersExact | internal/aghub/admission.go:913-1010 | whatever the clock does and however often the hub restarts, a network's counter is exactly the reservations of the current roll of the day not given back, and within its limit |
| AdmissionGateBlocks.PassesExactly | internal/aghub/admission.go:859-965 | a registration, or a trial grant, passes exactly when at every level of its address's family fewer of its roll not given back came from its aligned block of addresses than the limit (and the hub's budget is not spent); what passes is counted as from that address |
| AdmissionGateBlocks.PlaceExactly | internal/aghub/admission.go:969-979 | a window's place is refused exactly when the places used, as read, and those registrations in progress hold come to its size |
| AdmissionGateBlocks.WritesExactly | internal/aghub/admission.go:969-1023 | a written registration takes a place of its window exactly when one is left |
| AdmissionGateBlocks.RestartsExactly | internal/aghub/admission.go:24-30 | a restart counts nothing of any day or window; what was in progress is made if it was written and given back if not; windows are as they were |
| AdmissionGatePromises.PlacesExact | internal/aghub/admission.go:969-1023 | a window's counter is exactly the registrations in progress, and its used places never pass its size, stale reads and restarts included |
| AdmissionGatePromises.StepGrants | internal/aghub/admission.go:983-1010 | a step keeps the hub-wide count exact for its roll if and only if it is not giving back a grant of an earlier roll of the same day number while grants are counted |
| AdmissionGatePromises.TrialsWithinBudget | internal/aghub/admission.go:939-965 | with no such step the count is the grants of the current roll and within the budget |
| AdmissionGatePromises.StrayGrantUncounted | internal/aghub/admission.go:1007-1009 | the run after which one grant is out and none is counted |
| AdmissionGateDays.DailyLimits | internal/aghub/admission.go:844-965 | in every run under any clock and any restarts: the registrations of a UTC day not given back from a block of addresses, the trial grants to one, and those of the hub, are at most the limit times how often that day was rolled |
| AdmissionGateDays.ExactWhenCurrent | internal/aghub/admission.go:844-857 | in every reachable state the counters are what the reservations of their UTC day hold if and only if none of them, not given back, is of an earlier roll and the hub-wide count of trial grants is exact for its roll |
| AdmissionGateDays.DayStaysExact | internal/aghub/admission.go:844-1010 | a step keeps them so, whatever the clock does, if and only if it does not roll, by a clock that comes back or after a restart, onto a day of which there are reservations not given back |
| AdmissionGateDays.CountersAreTheDays | internal/aghub/admission.go:844-1010 | the counters are today's reservations, for every network and for the hub, at every point of a run if and only if the run has no such roll |
| AdmissionGateDays.DaysWithinLimits | internal/aghub/admission.go:844-965 | in a run with no such roll, whatever its clock and its restarts, every limit holds for every UTC day, per block of addresses and for the hub's trial budget |
| AdmissionGateDays.SteadyDaysWithinLimits | internal/aghub/admission.go:24-30 | so under every clock that does not step back, on a hub that restarts only while there are no reservations of the day last read but such as the restart loses |
| AdmissionGateReopened.BudgetGrantedTwice | internal/aghub/admission.go:844-857 | the clock leaves a day whose trial budget is spent and comes back to it: a grant more than the budget on one UTC day, with nothing given back |
| AdmissionGateReopened.NetworkGrantedTwice | internal/aghub/admission.go:844-857 | and so for one network's limit |
| AdmissionGateReopened.RestartGrantsAgain | internal/aghub/admission.go:829-835 | the hub restarts on a day whose trial budget is spent: a grant more than the budget on one UTC day, under a clock that does not step back, with nothing given back or lost |
| AdmissionGateReopened.RestartGrantsNetworkAgain | internal/aghub/admission.go:829-835 | and so for one network's limit |
| AdmissionGateStore.Memory.Restarted | internal/aghub/admission.go:829-835 | a new process starts with nothing counted, of no day, which is what is held under its first key |
| AdmissionGateStore.Memory.RollDay | internal/aghub/admission.go:844-857 | a new day number starts new counters under a new key, of which no reservation holds anything yet |
| AdmissionGateStore.Memory.ReserveSignup | internal/aghub/admission.go:913-935 | one place at every level or none, granted exactly when the address's block has room at each; the counters stay what the reservations hold, within every limit |
| AdmissionGateStore.Memory.ReserveTrial | internal/aghub/admission.go:939-965 | one grant of every budget or none; likewise |
| AdmissionGateStore.Memory.Commit | internal/aghub/admission.go:1014-1023 | only a window's place is given up: its row holds it now; likewise |
| AdmissionGateStore.Memory.Release | internal/aghub/admission.go:983-1010 | what is given back, and when; likewise |

## Left out

- Redeem: its redemption row and the listing of redemptions; a redemption is a settlement to the hub's own row without the task binding.
- Credit entries and redemptions are deleted by the janitor after 14 days; the model keeps every entry ever written beside the rows, and the sums are over those.
- Clearing: modelled as protocol steps over values, each hub's part of `runClear`, `peerSettler` and the federation endpoints being one step; what prompts for or prints is not in it. PairConserved, TotalConserved and what follows from them are for runs in which no clock steps back a day and no request waits 7 days between its check and its settlement, the bounds under which they hold; ClearingAccounts is for all runs.
- Key rules inside a history (inception, witnesses, `firstWitness`, event times) and the key-set rules `followsStored` and `checkMboxEpoch`: a history or a key set that the hub would refuse for itself does not reach the model.
- CardStream: what a receiving hub checks before it takes a card (`AdmitFedA2ACard`, `retireFedA2ACard`) is an unconditional upsert; the key history and the witness notice an entry carries do not move an entry when they change, and are not compared.
- BucketPages.MergedBucket: a peer's list is what the peer answered, entries outside the bucket dropped as they are when it is read; how it is asked page by page, its limits, its cache (`lru`, `peerBucketAge`) and the `partial` flag are not modelled.
- Sealing of directory entries (`sealDirEntry`) and the proof of work are cryptography.
- TokenBuckets: float64 rounding, a rate that changes for a key, and the wait of `takeN`; `rateLimiter` is the same bucket at one rate and has no rows of its own.
- AdmissionGate: the admission list, its one-off grant (`payListGrantTx`), modes and closing of windows.
- dack.go, registry.go's key cache, the Merkle tree of the supply, relay, reviews, restore, HTTP, JSON and logging.
- RotationFiles: the passphrase, and hubs started in between, which only read the identity.
