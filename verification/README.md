# A verified model of the settlement, admission and delivery protocols

The repository sells resources over HTTP 402 on a test chain: a *facilitator* redeems a buyer's signed
delegation on chain and keeps a durable journal of every redemption; an *arcade* sells game tickets through it;
a *shop* delivers codes for paid orders; a *sponsor* pays for account deployments under a daily budget; two
scripts report on chain activity and police the log statements. This project models that logic in Dafny and
proves what it is meant to keep, over every run, every crash and every input.

Verify with `dafny verify dfyconfig.toml`.

| file | what it models |
|---|---|
| `Journal.dfy` | the settlement journal: one row per payment intent, running totals per day and payer, one ledger event per ending |
| `Guards.dfy`, `Receipts.dfy` | which thrown error is a verdict; whether a mined receipt credited the vendor and what it cost |
| `Recovery.dfy` | `SettlementRecovery`, one step per stretch of code between two awaits; the class runs the same steps on its fields |
| `RecoveryRuns.dfy`, `RecoveryProperties.dfy` | all runs of it: concurrent calls, lost answers, disk faults, a crash between any two steps, the repair running beside it; the invariant and the theorems |
| `RecoveryMoney.dfy` | what the journal's rows and ledger amount to, in the terms of the transactions that were claimed and of the receipts that came back |
| `RecoveryAnswers.dfy`, `RecoveryFinish.dfy`, `RecoveryWitness.dfy` | what a caller can be told, with exact conditions; that a call can finish its row in a busy process; runs that reach the surprising answers |
| `Wire.dfy` | what `/verify` and `/settle` say, and what the seller tells the buyer, against what happened |
| `Arcade.dfy`, `ArcadeRuns.dfy`, `ArcadeProperties.dfy` | ticket admission over three tables that a crash between any two writes can separate, and its repair without payment |
| `ArcadeAnswers.dfy` | what `buy`, `get` and the repair answer for any ticket, and what the end of a payment leaves on it |
| `Client.dfy` | what the paying client reads in the seller's answer, and so what the arcade records of it |
| `Shop.dfy`, `Bindings.dfy` | one payment, one ticket; the bounded table of payment identifiers |
| `Sponsor.dfy` | the daily spend budget, and a sponsored deployment with the local its `finally` settles, at every exit |
| `Probe.dfy` | the cached, shared, spaced probe |
| `SqlReader.dfy`, `SqlRoundTrip.dfy`, `SqlExport.dfy` | the strict reader of SQL dumps; that it undoes the printing of values, rows and whole exports, with quoted names, column lists in any order and settings |
| `SqlRefusals.dfy` | that whatever text is imported was wholly data, and why any other is refused |
| `ChainScan.dfy` | the chunked log scan, when its counts are exact, and what an incomplete report says |
| `Lexer.dfy`, `LexerSlash.dfy`, `LexerTwice.dfy`, `LexerBraces.dfy` | the source stripper of the log check, in place on an array, and the redactor blanking behind it; which slashes open a regex; when it is idempotent; when interpolations stay code |
| `LexerFinds.dfy` | what is left of a call to be searched, and the line quoted for a finding |
| `JsText.dfy`, `Wrappers.dfy` | JavaScript white space; `Option` |

A method or class field stands where the source updates something in place; each method is proved equal to a
function of the old state, and the theorems are about runs of those functions.

## Assumptions

- The transaction hash is injective, so `Hash` is the transaction; a payment intent id is an injective digest
  of its fields, so `Intent` is those fields (asset, payer, vendor, amount, leaf).
- The signer has no other user; a nonce is mined at most once, in order; a node may answer late, wrongly or not
  at all, but it does not forge a receipt of a transaction the journal names.
- A library call never throws one of the service's own error classes.
- Clocks do not run backwards (`Probe.dfy` only).
- That a transaction is eventually mined is only ever a hypothesis.

## Where code and documentation disagree

The model follows the code. Each disagreement has a lemma.

- `guards.ts` says a revert anywhere in the cause chain settles that the RPC answered. The first link that is a
  revert or a transport failure decides, so a transport failure wrapped around a revert reads as unreachable:
  `Guards.RevertDecidesUnlessWrapped`, `Guards.WrappedRevertReadsAsUnreachable`.
- The overshoot of a day's total is bounded by the *positive* differences of cost and reservation. With signed
  differences the bound holds exactly while everything ever reserved fits the limit:
  `Journal.SignedOvershootIff`, `Journal.SignedOvershootFails`.
- The unmarked answer is said to come from the one call that settled the payment. That call made the claim; with
  the read-only repair running beside it, the repair may have finished the row, and did exactly when that call did
  not: `RecoveryAnswers.ClaimerFinishedIff`, `RecoveryWitness.RepairFinishesFirst`.
- A finished payment is not answered alike for good. If the repair finished the row while an operation of the
  intent was past its claim, that operation can still answer `settlement_pending`, to calls that came later too:
  `RecoveryAnswers.AnswersStableIff`, `RecoveryWitness.FinishedYetPending`.
- A failure after the claim is meant to be in doubt under the row's hash. It is, except where the disk commits the
  claim and loses its answer: that call is told not-ready, with a committed row behind it:
  `RecoveryAnswers.ClaimerNotReadyIff`, `RecoveryAnswers.NotReadyHidesARowIff`, `RecoveryWitness.LostClaimIsReached`.
- The seller withholds its offer from a buyer whose mined payment credited someone else. When the same payment
  is presented again, `/verify` refuses first and the offer goes out: `Wire.RepeatedOfferIff`,
  `Wire.RepeatedOfferIsReached`.
- An unresolved ticket is meant to hold up later requests until it is reconciled. Where its payment can no longer
  settle it closes the arcade to every later request for good, exactly as `ArcadeProperties.GateReopensIff` says.
  No crash is needed: a payment that mined as a failure is read as unknown and nothing ever settles it
  (`ArcadeProperties.FailedPaymentCloses`, `Client.MinedFailureCloses`, `Client.MisdirectedCloses`), and what is
  thrown before an intent is bound does the same (`ArcadeProperties.InterruptedCloses`), as a crash between the
  reservation and the claim does (`ArcadeProperties.CrashAfterReserving`, `ArcadeProperties.CrashAfterBinding`).
- The shop's comment says a retry cannot recover a paid order that was not recorded. It does:
  `Shop.LostOrderIsRecovered`, `Shop.LostOrderIsServedAgain`.
- The spend budget's comment says a crash under-counts by at most one reservation. Deployments of different
  accounts run side by side, and a crash forgets them all: `Sponsor.CrashLosesOneIff`, `Sponsor.CrashMayLoseTwo`.
- An accepted broadcast is meant never to be charged nothing. It is charged nothing exactly when the node took it
  and the send threw all the same: `Sponsor.AcceptedIsFreeIff`, `Sponsor.AcceptedMayGoFree`.
- A failed probe is meant to clear the way for the next one. Where the call of the probe itself throws, its
  rejected promise is stored behind the clean-up and stays, and no probe starts again: `Probe.StuckForGood`,
  `Probe.StuckIff`. An async function cannot throw from its call, however early it fails, so the repository's own
  probes do clear the way: `Probe.AsyncThrowClears`, `Probe.AsyncNeverSticks`.
- The stripper's comment says interpolations stay code and its stack tracks the depth of `${`. Nothing is ever
  counted in it: the first `}` inside an interpolation resumes the template body, and what follows is blanked. It
  reads a source as a reader that counts braces would exactly when that reader meets no nested `}`:
  `LexerBraces.InterpolationsStayCodeIff`, `LexerBraces.NestedBraceChanges`, `LexerBraces.InterpolationLost`,
  `LexerBraces.MessageIsLost`.
- Stripping a stripped source again changes it exactly when a regex literal that holds an escaped line feed is
  closed by a slash that would open a comment: `LexerTwice.StripTwiceIff`, `LexerTwice.EscapedFeedStripsTwice`.

## Model

| member | source | states |
|---|---|---|
| Journal.IndexOf | packages/store/src/settlement.ts:77-90 | the row of an intent, and none exactly when no row has it |
| Journal.MaxNonce | packages/store/src/settlement.ts:129-132 | the greatest nonce claimed by one signer on one chain, attained unless there is none |
| Journal.NextNonceIsGapFree | packages/store/src/settlement.ts:129-132 | the allocated nonce is above every claimed one, and directly above exactly when the node is not ahead of the journal |
| Journal.SettlementJournal.Claim | packages/store/src/settlement.ts:91-110 | the claim transaction, on the store's own fields: known row, refusal by payer share before refusal by day total, or row and both reservations together |
| Journal.SettlementJournal.Finish | packages/store/src/settlement.ts:111-126 | the finish transaction: ending, both totals of the claim's day and the ledger event together, once |
| Journal.ClaimKeeps | packages/store/src/settlement.ts:91-110 | a claim adds at most one row and leaves the day total and the payer share within their limits; every total stays the sum of its rows' charges |
| Journal.FinishKeeps | packages/store/src/settlement.ts:111-126 | a finish changes one unfinished row and nothing else; totals, bounds and ledger stay in step with the rows |
| Journal.FinishLands | packages/store/src/settlement.ts:111-126 | on sound tables the finish of a known row cannot be refused by a total going negative |
| Journal.SignedOvershootIff | packages/store/src/settlement.ts:103-118 | with signed differences the overshoot bound holds if and only if everything ever reserved in the series fits its limit |
| Journal.SignedOvershootFails | packages/store/src/settlement.ts:103-118 | a day within its limit at every claim on which the signed bound is false |
| Guards.WalkDecides | apps/facilitator-erc7710/guards.ts:330-338 | unreachable if and only if a transport failure has no revert above it, or no link decides and the text is a rate limit |
| Guards.IsRpcUnreachable | apps/facilitator-erc7710/guards.ts:330-338 | the bounded walk over a chain of causes, cyclic or not, computes that verdict |
| Guards.IsRedemptionRevert | apps/facilitator-erc7710/guards.ts:257-264 | true exactly when one of the first eight links is a revert |
| Guards.RevertDecidesUnlessWrapped | apps/facilitator-erc7710/guards.ts:323-338 | with a revert in the chain, unreachable if and only if a transport failure is wrapped around it |
| Guards.WrappedRevertReadsAsUnreachable | apps/facilitator-erc7710/guards.ts:323-338 | an error with a revert in its chain that reads as unreachable |
| Guards.CausesInOrder | apps/facilitator-erc7710/guards.ts:242-248 | the walk sees the links that at most seven causes lead to, in that order, up to the first that is no error |
| Receipts.OneTransfer | packages/delegation/src/settlement-evidence.ts:148-201 | the reconciliation passes exactly when one log alone is the expected transfer and carries the amount |
| Receipts.NoFailureIffCredited | apps/facilitator-erc7710/settlement.ts:14-19 | a receipt is free of failures if and only if the transaction succeeded and credited the vendor |
| Recovery.SettlementRecovery.constructor | apps/facilitator-erc7710/recovery.ts:40-49 | a new process holds nothing but the journal |
| Recovery.SettlementRecovery.Call | apps/facilitator-erc7710/recovery.ts:57-60 | a call is coalesced into the live operation of its intent, or starts one at the end of the queue |
| Recovery.SettlementRecovery.GoOn | apps/facilitator-erc7710/recovery.ts:88-122 | an operation is suspended again, or its entry is dropped and every caller answered, the coalesced ones marked |
| Recovery.SettlementRecovery.Begin | apps/facilitator-erc7710/recovery.ts:63-65 | the queue's turn: an intent the journal knows is resumed as replayed, an unreadable journal is not-ready |
| Recovery.SettlementRecovery.Allocate | apps/facilitator-erc7710/recovery.ts:66-72 | the nonce is the greater of the node's pending one and the journal's next |
| Recovery.SettlementRecovery.Commit | apps/facilitator-erc7710/recovery.ts:73-90 | only a prepared transaction that matches the allocated envelope is claimed, and only a committed claim goes on |
| Recovery.SettlementRecovery.Look | apps/facilitator-erc7710/recovery.ts:91-94 | a receipt found ends the row without sending; none leads to a reconstruction; a failed lookup leaves the claim pending |
| Recovery.SettlementRecovery.Resend | apps/facilitator-erc7710/recovery.ts:94-98 | bytes are handed to the network only when their hash is the row's |
| Recovery.SettlementRecovery.Sent | apps/facilitator-erc7710/recovery.ts:98-99 | whether the send answered or threw, the operation waits for the receipt |
| Recovery.SettlementRecovery.Arrive | apps/facilitator-erc7710/recovery.ts:99-100 | the awaited receipt closes the row, or the claim stays pending |
| Recovery.SettlementRecovery.CloseWith | apps/facilitator-erc7710/recovery.ts:101-116 | the receipt's hash and fees are checked and its cost committed; any failure answers pending with the row's hash |
| RecoveryRuns.NextNonceIsNext | apps/facilitator-erc7710/recovery.ts:66-72 | with no other user of the signer, the allocated nonce is the next of the gap-free run |
| RecoveryRuns.DecideFits | apps/facilitator-erc7710/recovery.ts:57-117 | what each resumption may do to journal, history and its own operation, for every answer it can get |
| RecoveryRuns.CallKept | apps/facilitator-erc7710/recovery.ts:57-60 | a new or coalesced call keeps the invariant |
| RecoveryRuns.RepairKept | apps/arcade-service/fork.ts:90-102 | the read-only repair running beside live calls keeps the invariant |
| RecoveryRuns.AroundKept | apps/facilitator-erc7710/recovery.ts:94-100 | acceptance, mining and a crash at any point keep the invariant |
| RecoveryRuns.InvKept | apps/facilitator-erc7710/recovery.ts:57-123 | every step of the protocol keeps the invariant of journal, queue, operations, history and chain |
| RecoveryRuns.RunsKeep | apps/facilitator-erc7710/recovery.ts:57-123 | so does every run |
| RecoveryProperties.SendsCarryTheJournalledHash | apps/facilitator-erc7710/recovery.ts:91-99 | in every run, all sends of an intent carry one transaction, the one its single row names |
| RecoveryProperties.DurableBeforeSend | apps/facilitator-erc7710/recovery.ts:79-98 | that row was in the journal before the step that sends |
| RecoveryProperties.MinedAtMostOnce | apps/facilitator-erc7710/recovery.ts:57-117 | the chain never mines two transactions for one intent |
| RecoveryProperties.BudgetConserved | apps/facilitator-erc7710/recovery.ts:79-106 | each running total is the sum of its rows' charges, each row on its claim day, and passes its limit by their positive excess at most |
| RecoveryProperties.ClaimsStayWithinLimits | apps/facilitator-erc7710/recovery.ts:79-86 | a step that adds a row leaves its day total and payer share within the limits |
| RecoveryProperties.NoncesAreGapFree | apps/facilitator-erc7710/recovery.ts:62-88 | the claimed nonces are the gap-free run from the signer's first free one, whatever failed in between |
| RecoveryProperties.EventsCountFinishedRows | apps/facilitator-erc7710/recovery.ts:105-107 | terminal events equal finished rows: never more than the rows, and as many exactly when all are finished |
| RecoveryProperties.AtMostOneUnmarkedAnswer | apps/facilitator-erc7710/recovery.ts:23-37 | across calls, processes and restarts at most one answer per intent is not marked replayed |
| RecoveryProperties.UnmarkedAnswerIsTheClaimers | apps/facilitator-erc7710/recovery.ts:58-65 | it went to the one call that made the claim; without a repair beside it, that call also finished the row |
| RecoveryProperties.TerminalAnswersAreStable | apps/facilitator-erc7710/recovery.ts:64-65 | once a row is terminal, and no operation of its intent is past its claim, every later answer is that row, marked, or not-ready; nothing is prepared, sent or finished for it |
| RecoveryProperties.TerminalRowsAreLeftAlone | apps/facilitator-erc7710/recovery.ts:89-90 | without a repair, no live operation ever works on a terminal row |
| RecoveryProperties.EveryLaterSettleAgrees | apps/facilitator-erc7710/index.ts:383-405 | after any run without repairs, every continuation answers a finished intent with its one row |
| RecoveryProperties.ClosingStep | apps/facilitator-erc7710/recovery.ts:101-107 | the closing step of any operation past its claim commits the receipt to its row, adds one event and no row, and answers every caller with that row |
| RecoveryProperties.RecoveryConverges | apps/facilitator-erc7710/recovery.ts:91-107 | with an empty queue and no live operation of the intent, the call alone suffices: seeing the receipt, at once or after sending again, it finishes the row, with no new row and no new hash (a busy process: RecoveryFinish.CallConverges) |
| RecoveryProperties.RestartRecovers | scripts/recovery-e2e.ts:75-105 | from any reachable state with an unfinished row, a restart and one such call are enough |
| RecoveryMoney.ReservedIsTheMost | apps/facilitator-erc7710/recovery.ts:73-88 | over every run, each row carries the envelope of the transaction whose hash it names and reserves its gas at its maximum fee, on the day the claim was made |
| RecoveryMoney.TipIsNotReserved | packages/store/src/settlement.ts:101-103 | a claim is refused by what it could cost, not by what it tips |
| RecoveryMoney.NewRowIsTheClaims | apps/facilitator-erc7710/recovery.ts:73-88 | a row that a step adds is the claim of the transaction that step was handed, made then, for the head of the queue |
| RecoveryMoney.CloseIsTheReceipts | apps/facilitator-erc7710/recovery.ts:101-116 | for every receipt: its own, with readable fees and some gas, ends the row at gas times price plus the lower fee, books that on the claim's day and in the ledger and answers the row; any other leaves everything as it is and answers pending |
| RecoveryMoney.EndingsAreReceipts | apps/facilitator-erc7710/recovery.ts:101-107 | over every run, each finished row was finished by the receipt of its own transaction that some step brought, at that step's time and at what that receipt says was paid |
| RecoveryMoney.LedgerTells | packages/store/src/settlement.ts:111-126 | over every run, each finished row has its event, with payer, vendor, amount, transaction and ending |
| RecoveryFinish.FromClaimed | apps/facilitator-erc7710/recovery.ts:91-107 | an operation past its claim, at any of its suspensions, has a continuation that finishes the row and tells all its callers |
| RecoveryFinish.CallConverges | apps/facilitator-erc7710/recovery.ts:57-107 | from every state of the protocol, a call for an open row whose receipt can be seen can be served without a restart: alone, coalesced at any stage, or behind any queue |
| RecoveryAnswers.AnswersStableIff | apps/facilitator-erc7710/recovery.ts:64-65 | from a finished row, every continuation answers its intent with that row alone if and only if no operation of the intent is past its claim |
| RecoveryAnswers.LaterAnswersNameTheRow | apps/facilitator-erc7710/recovery.ts:89-117 | in any case whoever is answered after the end is told that row, its hash as pending, or not-ready |
| RecoveryAnswers.ClaimLandsIff | packages/store/src/settlement.ts:91-110 | a claim is committed if and only if the disk takes it, its intent is new, its envelope valid and in range, its nonce and hash free, and both totals have room |
| RecoveryAnswers.ClaimIsAnswered | packages/store/src/settlement.ts:91-110 | what becomes of a claim the disk takes: the known row, the payer's refusal before the day's, or an error, each exactly when |
| RecoveryAnswers.NotReadyHidesARowIff | apps/facilitator-erc7710/recovery.ts:79-86 | in one step: a committed row stands behind a not-ready answer exactly when the disk lost the answer of such a claim |
| RecoveryAnswers.ClaimerNotReadyIff | apps/facilitator-erc7710/recovery.ts:79-117 | over every run: the operation of a call that claimed answers not-ready if and only if the disk lost the answer of its claim, and any other failure is pending on its row's hash |
| RecoveryAnswers.ClaimerFinishedIff | apps/arcade-service/fork.ts:90-102 | the call of the unmarked answer finished the row itself if and only if the repair did not |
| RecoveryWitness.LostClaimIsReached | apps/facilitator-erc7710/recovery.ts:79-86 | a run in which a call that claimed answers not-ready |
| RecoveryWitness.RepairFinishesFirst | apps/arcade-service/fork.ts:90-102 | a run in which the repair finishes the row and the claiming call gets the unmarked answer |
| RecoveryWitness.FinishedYetPending | apps/facilitator-erc7710/recovery.ts:108-116 | a run in which a call arrives after its payment is finished and is told settlement_pending |
| RecoveryWitness.MisdirectedIsReached | apps/facilitator-erc7710/settlement.ts:14-19 | a run that ends, and is answered, with the vendor not credited |
| Wire.RejectedSentNothing | apps/facilitator-erc7710/routes.ts:38-45 | a rejection names no transaction, and its operation made no row and nobody had sent anything |
| Wire.NotReadySentNothing | apps/facilitator-erc7710/routes.ts:38-41 | a not-ready answer comes from an operation that sent nothing |
| Wire.FailureAfterClaimIsInDoubt | apps/facilitator-erc7710/recovery.ts:79-117 | over every run: a failure of an operation that claimed goes out as not-ready if and only if the disk lost the answer of its claim, and as settlement_pending with its row's hash if and only if it did not |
| Wire.NamedTransactionIsTheRows | apps/facilitator-erc7710/routes.ts:32-47 | a transaction named on the wire is the hash of the intent's row |
| Wire.EndingsOnChain | apps/facilitator-erc7710/settlement.ts:14-19 | the three endings of a row, each with the mined receipt of its own transaction that says so |
| Wire.SuccessMeansCredited | apps/facilitator-erc7710/settlement.ts:40-50 | success on the wire means a finished row whose mined receipt credited the vendor |
| Wire.ServedIsPaid | packages/seller/src/index.ts:969-1000 | the seller serves only when the vendor was credited |
| Wire.MisdirectedIsTrue | packages/seller/src/index.ts:983-991 | the seller says 502 only when the mined transaction credited someone else |
| Wire.ReofferedChargedNobody | packages/seller/src/index.ts:992-998 | an offer after `/settle` means nothing had been claimed or sent, or the mined transaction reverted |
| Wire.RoutesAgreeForGood | apps/facilitator-erc7710/settlement.ts:30-37 | whoever is answered after a payment ended is told by `/settle` what `/verify` says from then on, or no verdict: the two routes never contradict each other |
| Wire.RepeatedOfferIff | packages/seller/src/index.ts:953-998 | a finished payment presented again is re-offered exactly when it ended as a failure, so also when it credited someone else |
| Wire.RepeatedOfferIsReached | packages/seller/src/index.ts:953-998 | a run that ends there |
| Wire.EndsBeforeClaimIff | apps/facilitator-erc7710/index.ts:383-405 | before its claim an operation is ended with a failure if and only if the input has a word for it, and then every caller is told that word and nothing was written or sent: not-ready when the journal cannot be read or the RPC did not answer a guarded stage, the word of a full budget, else the failure's own; the one exception is a claim whose answer the disk lost |
| Wire.FailedSimulationOnTheWire | apps/facilitator-erc7710/index.ts:374-381 | `/verify` of an unknown payment that cannot be simulated gives no verdict if and only if the RPC did not answer, and otherwise the failure's own word |
| Wire.KnownPaymentIsVerified | apps/facilitator-erc7710/index.ts:374-380 | `/verify` of a known payment refuses one that ended with an error and accepts one that is open or settled, without the chain |
| Wire.AnyReplyIsAnswered | packages/delegation/src/facilitator-contract.ts:428-462 | for any body of any facilitator: served only as a success for the payer asked about, offered again only as a failure that names no transaction or one known to have reverted, each rung exactly when |
| Wire.PresentationIsAnswered | packages/delegation/src/facilitator-contract.ts:389-405 | for any two answers: `/settle` decides only where `/verify` accepted the payment for its payer |
| Arcade.ArcadeStore.Reserve | packages/store/src/arcade.ts:34-49 | one ticket per request, and no new one while any payment is unresolved |
| Arcade.ArcadeStore.Bind | packages/store/src/arcade.ts:66-70 | an intent is bound to a pending ticket once, and to one ticket |
| Arcade.ArcadeStore.Ready | packages/store/src/arcade.ts:71-78 | an unresolved ticket of that intent becomes ready; an admitted one is returned as it is |
| Arcade.ArcadeStore.Fail | packages/store/src/arcade.ts:79-83 | only an unresolved ticket can fail |
| Arcade.ArcadeStore.Consume | packages/store/src/arcade.ts:50-62 | a ready ticket is consumed by one run, and answered again only to that run |
| Arcade.Payments.CreateOnce | packages/store/src/index.ts:807-825 | the first order for an intent stays, and a later one is answered with it |
| Arcade.Payments.Recover | apps/arcade-service/payments.ts:57-72 | the order on file, or one written from a settled journal row at the arcade's price, makes the ticket ready |
| Arcade.Payments.Conclude | apps/arcade-service/payments.ts:105-119 | a durable order decides the end of a paying request; without one the ticket records why |
| ArcadeRuns.InvKept | apps/arcade-service/payments.ts:75-133 | every stretch of buy, get and consume, every journal move, a crash between two stretches and a crash between any two writes of one keep tickets, orders and journal consistent |
| ArcadeRuns.RunsKeep | apps/arcade-service/payments.ts:75-133 | so does every interleaving of them |
| ArcadeProperties.EachRequestPaysOnce | apps/arcade-service/payments.ts:77-88 | a request enters the paying branch at most once over all runs |
| ArcadeProperties.OneIntentPerRequest | apps/arcade-service/payments.ts:91-98 | a request submits at most one intent, bound before submission, and no two requests submit the same one |
| ArcadeProperties.NoPaymentConflict | apps/arcade-service/payments.ts:65-68 | the answer that a payment belongs to a different ticket is never given |
| ArcadeProperties.AdmittedIsPaid | apps/arcade-service/payments.ts:57-72 | a ready or consumed ticket has the order of its own intent, game and price, and its payment settled to the arcade |
| ArcadeProperties.OrdersArePaid | apps/arcade-service/payments.ts:46-55 | an order exists only for a settled payment |
| ArcadeProperties.AdmittedAtMostSettled | apps/arcade-service/payments.ts:57-133 | admitted tickets never outnumber settled payments |
| ArcadeProperties.OneUnresolvedPayment | packages/store/src/arcade.ts:42-44 | at most one payment is unresolved at any time |
| ArcadeProperties.ProtocolMovesJournal | apps/arcade-service/fork.ts:90-102 | every step of the settlement protocol is one of the journal moves the arcade's runs allow |
| ArcadeProperties.RepairAdmits | apps/arcade-service/payments.ts:77-84 | the same request, retried once its transaction mined with the vendor credited, reaches its ticket with no payment, no submission and no new row |
| ArcadeProperties.KilledRecoveryResumes | apps/arcade-service/payments.ts:57-72 | a recovery killed between the order and the ticket is completed by the next one, as if nothing had happened |
| ArcadeProperties.RetryIsTheSame | apps/arcade-service/payments.ts:83-84 | asking again for an admitted ticket gives the same answer and changes nothing |
| ArcadeProperties.RetriesChangeNothing | apps/arcade-service/anvil-integration.ts:123-140 | so do any number of retries |
| ArcadeProperties.OneRunPerTicket | packages/store/src/arcade.ts:50-62 | over every run, any two answers that hand out one ticket are for one run, and any two for one run hand out one ticket |
| ArcadeProperties.ReadyIsSpent | packages/store/src/arcade.ts:50-62 | a ready ticket goes to the first run that asks, if that run has spent no other |
| ArcadeProperties.ConsumedIsKept | packages/store/src/arcade.ts:54-57 | a consumed ticket is answered again to its own run and refused to any other, and nothing changes |
| ArcadeProperties.SecondTicketIsRefused | packages/store/src/arcade.ts:58-61 | a run that has spent one ticket is refused every other |
| ArcadeProperties.HopelessForever | apps/arcade-service/payments.ts:75-133 | nothing that can happen resolves such a ticket |
| ArcadeProperties.GateReopensIff | apps/arcade-service/payments.ts:75-133 | at any time, an unresolved ticket can stop blocking later requests if and only if it is not hopeless: some `buy` still pays it, or its order is on file, or its intent's row is open or settled, or its intent was submitted and has no row yet |
| ArcadeProperties.CrashAfterReserving | apps/arcade-service/payments.ts:77-96 | a crash after the first reservation: in every continuation every new request is refused |
| ArcadeProperties.CrashAfterBinding | apps/arcade-service/payments.ts:91-98 | so too after the binding, before the claim |
| ArcadeProperties.InterruptedCloses | apps/arcade-service/payments.ts:115-118 | so too, with no crash, when something is thrown before an intent is bound |
| ArcadeProperties.FailedPaymentCloses | apps/arcade-service/payments.ts:107-109 | so too, with no crash, when the first payment mined as a failure and was read as unknown |
| ArcadeAnswers.RecoveryIs | apps/arcade-service/payments.ts:57-72 | the recovery of any ticket: one whose payment has its order, or has settled to the arcade at its price, is answered with that order and made ready if it was unresolved; any other is missing |
| ArcadeAnswers.GetIsAnswered | apps/arcade-service/payments.ts:121-128 | a ticket is shown if and only if its payment has settled and it was not refused |
| ArcadeAnswers.NoTicketIsFound | apps/arcade-service/payments.ts:121-133 | an unknown ticket is neither shown nor consumed |
| ArcadeAnswers.KnownRequestIsAnswered | apps/arcade-service/payments.ts:75-87 | `buy` of a request that has a ticket never pays: a conflict for another game, a repair if the payment is unresolved and repairs are on, else an answer from the tables |
| ArcadeAnswers.NewRequestIsAnswered | packages/store/src/arcade.ts:34-49 | `buy` of a new request pays, on a ticket of its own, if and only if no payment is unresolved |
| ArcadeAnswers.FailedRepairIsAnswered | apps/arcade-service/payments.ts:78-82 | a repair that could not read the chain, or found a receipt that does not end the row, resolves nothing |
| ArcadeAnswers.IdleRepairIsAnswered | apps/arcade-service/fork.ts:90-102 | a repair with nothing to do, or of a transaction that has not mined, answers from the tables |
| ArcadeAnswers.PaymentEnds | apps/arcade-service/payments.ts:104-119 | the end of a paying `buy`, for each result: something thrown leaves the ticket unknown; else an order decides whatever the client was told; else the ticket is rejected or unknown, with the code that says why |
| ArcadeAnswers.IntentIsBoundIff | packages/store/src/arcade.ts:66-70 | a binding is taken if and only if the ticket is pending, has no other intent, and no other ticket has this one |
| Client.ReadUnknownIff | packages/delegation/src/payment-client.ts:856-897 | over every settlement run, the client reads an answer as paid exactly when it is a success, and as unknown exactly when a transaction may stand behind it or the facilitator could not say |
| Client.RejectedTicketSentNothing | apps/arcade-service/payments.ts:85-112 | a ticket recorded as rejected was not charged: its payment was refused by `/verify` and never settled, or the operation that answered handed nothing to the network |
| Client.MinedFailureCloses | packages/delegation/src/payment-client.ts:878-881 | over every settlement run of one payment that ends without crediting the vendor, its answer, as the client reads it, closes the arcade for good |
| Client.MisdirectedCloses | packages/delegation/src/payment-client.ts:878-881 | such a run: the payment mined and credited someone else |
| Client.AnyRefusalIsRead | packages/delegation/src/payment-client.ts:856-890 | for any status and declared failure: in doubt exactly when status or word says so or a transaction is named, to be tried later exactly when word or status says that, refused otherwise |
| Client.SilenceIsUnknown | apps/arcade-service/payments.ts:104-114 | where no payment is due, a request never sent leaves its ticket rejected, and one whose answer was lost, unreadable, or a success without an order leaves it unknown |
| Shop.Orders.GetByIntent | packages/store/src/index.ts:826-829 | the row of an intent, by search over the table |
| Shop.Orders.CreateOnce | packages/store/src/index.ts:807-825 | the insert that does nothing for an intent on file, and the read behind it |
| Shop.StepKeeps | apps/delegated-seller/app.ts:526-604 | every request, confirmation, seeding and crash keeps rows distinct in intent and code, paid for, and shown as they are |
| Shop.OnePaymentOneTicket | apps/delegated-seller/app.ts:526-604 | in any sequence of requests at any items, two successful answers are for one intent exactly when they carry one code, and then they agree throughout |
| Shop.AnswersShowTheFirstRow | apps/delegated-seller/app.ts:384-403 | a ticket shown is the first row's, and its payment settled |
| Shop.CodesAreIntents | apps/delegated-seller/app.ts:556-571 | as many codes as intents recorded, and no more than payments settled |
| Shop.BoughtItemsStay | apps/delegated-seller/app.ts:598-602 | the answer for a row whose item is gone is never given |
| Shop.RecordedIsAnsweredAtOnce | apps/delegated-seller/app.ts:526-539 | a recorded payment is answered from its row before the facilitator is asked, at any item that derives its intent |
| Shop.LostOrderIsRecovered | apps/delegated-seller/app.ts:580-589 | a settled payment whose row could not be written is delivered when the same header comes back |
| Shop.LostOrderIsServedAgain | apps/delegated-seller/app.ts:580-589 | and the facilitator does confirm it again, after any settlement run: `/verify` accepts it, `/settle` answers its one row, and the seller serves it under the same transaction |
| Shop.RowsNameTheirPayments | apps/delegated-seller/app.ts:556-571 | over every run, each row names the payment it was written for: its token, its payer and its amount |
| Shop.AskIsAnswered | apps/delegated-seller/app.ts:511-540 | a request is answered from the row of the payment it carries, of the item's price to that shop's vendor, and goes on to pay only where there is none |
| Shop.ConfirmIsAnswered | apps/delegated-seller/app.ts:556-604 | a confirmed payment is answered from the row on file, or from the one written for it then, or not at all if none could be written |
| Bindings.PaymentIdentifiers.Bind | packages/store/src/index.ts:937-965 | new, settled, or which of two conflicts, with the recorded payment either way |
| Bindings.PaymentIdentifiers.Record | packages/store/src/index.ts:966-979 | a payment is recorded once, on a bound row |
| Bindings.PaymentIdentifiers.Sweep | packages/store/src/index.ts:930-935 | the two deletes of a prune, in one transaction |
| Bindings.ShopBindings.Bind | apps/delegated-seller/app.ts:437-458 | a prune on the first and every 256th binding of a process, before the binding itself |
| Bindings.NewestCount | packages/store/src/index.ts:921-929 | exactly the given number of unsettled rows survive, or all when there are no more |
| Bindings.SurvivorsAreNewer | packages/store/src/index.ts:921-929 | every survivor is newer than every row that went, the identifier breaking a tie |
| Bindings.PruneKeeps | packages/store/src/index.ts:915-935 | a prune leaves settled rows alone, keeps both limits and drops nothing within them |
| Bindings.BoundedByMissedPrunes | apps/delegated-seller/app.ts:405-443 | from any table, once a prune has succeeded each failed one since lets in at most one window of 256 |
| Bindings.BoundedAfterEveryBind | apps/delegated-seller/app.ts:405-443 | at most 5000 + 256 unsettled rows after every binding of every run whose prunes succeed, from any table and over any restarts |
| Bindings.BoundIsMet | apps/delegated-seller/app.ts:94-101 | a run that reaches that bound |
| Bindings.SettledRowsStay | packages/store/src/index.ts:908-914 | a settled row never changes and never goes |
| Bindings.RowStaysIff | packages/store/src/index.ts:915-935 | what a binding does to any other row: a due prune keeps it if and only if it is settled, or bound within the hour with fewer than 5000 such rows newer; else it stays |
| Bindings.RecordIsAnswered | packages/store/src/index.ts:937-979 | once a payment is recorded, whatever happens next its identifier answers that record to the request and payment it was bound to, and to any other a conflict that carries it |
| Bindings.BindingIsAnswered | packages/store/src/index.ts:937-965 | an identifier is bound to the request and payment that come first, and answers them as new until it is settled |
| Bindings.RecordsOnce | packages/store/src/index.ts:966-979 | a record is taken exactly once, on a bound row, and changes nothing else of it |
| Sponsor.SpendBudget.constructor | packages/delegation/src/account-bootstrap.ts:396-404 | a restart resumes the day's charged total and forgets reservations |
| Sponsor.SpendBudget.RollTo | packages/delegation/src/account-bootstrap.ts:406-412 | at a new day the total is that day's |
| Sponsor.SpendBudget.Reserve | packages/delegation/src/account-bootstrap.ts:423-428 | an amount is held on the current day when it still fits, else refused |
| Sponsor.SpendBudget.Settle | packages/delegation/src/account-bootstrap.ts:466-486 | the hold is released and what was spent charged to the day that admitted it |
| Sponsor.SpendBudget.Remaining | packages/delegation/src/account-bootstrap.ts:493-497 | the room left, never negative |
| Sponsor.ReleaseIsExact | packages/delegation/src/account-bootstrap.ts:430-433 | the clamp at zero never fires |
| Sponsor.StepKeeps | apps/account-bootstrap/index.ts:322-389 | every exit of every concurrent deployment keeps totals, holds and charges in step |
| Sponsor.TotalsAreCharges | packages/delegation/src/account-bootstrap.ts:442-451 | each day's total is its charges, and with everything held passes the limit by the charges' excess at most |
| Sponsor.ReservationsFit | packages/delegation/src/account-bootstrap.ts:423-428 | at every reservation the day's spend and everything held fit the limit |
| Sponsor.HoldIsGrantedIff | apps/account-bootstrap/index.ts:322-366 | over every run, a request is given a hold if and only if it can be afforded and the day's total, everything held and the most it may cost fit the limit to the last unit; the hold is of that most, on the day the clock reads |
| Sponsor.TurnedAwayIff | apps/account-bootstrap/index.ts:322-364 | each refusal is given exactly when its check is the first to fail |
| Sponsor.ChargesAreTheReceipts | apps/account-bootstrap/index.ts:368-400 | what each settled deployment was charged, in the terms of its receipt |
| Sponsor.Begin | apps/account-bootstrap/index.ts:322-360 | the checks in order, and one reservation behind them exactly when they all pass |
| Sponsor.Deployment.constructor | apps/account-bootstrap/index.ts:362-362 | a deployment starts with its hold and nothing charged |
| Sponsor.Deployment.Sent | apps/account-bootstrap/index.ts:363-377 | a send that answered puts the whole reservation into the local; one that threw leaves through the settlement of nothing |
| Sponsor.Deployment.Waited | apps/account-bootstrap/index.ts:378-387 | a receipt puts its cost into the local, a failed wait leaves the reservation there, and either way the hold is settled with it |
| Sponsor.Deployment.Finally | apps/account-bootstrap/index.ts:386-388 | the hold is settled with what the local holds |
| Sponsor.EachHoldSettledOnce | apps/account-bootstrap/index.ts:362-388 | every hold ever granted is in exactly one place: live, settled, or dropped by a crash |
| Sponsor.EntriesStay | apps/account-bootstrap/index.ts:386-388 | a settled hold is never settled again nor changed |
| Sponsor.AcceptedIsFreeIff | apps/account-bootstrap/index.ts:372-387 | a deployment whose send answered is charged its receipt's cost or its whole reservation; an accepted one is charged nothing if and only if its send threw |
| Sponsor.AcceptedMayGoFree | apps/account-bootstrap/index.ts:363-370 | a run in which one is |
| Sponsor.AcceptedIsNeverFree | apps/account-bootstrap/index.ts:372-387 | where a send that throws was not accepted, every accepted broadcast that costs something is charged something, and no other is |
| Sponsor.CrashLosesOneIff | packages/delegation/src/account-bootstrap.ts:382-384 | a crash loses no more than one reservation if and only if no second accepted broadcast is in flight |
| Sponsor.CrashMayLoseTwo | packages/delegation/src/account-bootstrap.ts:382-384 | a run in which a crash would lose two |
| Probe.CachedProbe.Prime | apps/facilitator-erc7710/guards.ts:412-414 | a seeded reading fills a window |
| Probe.CachedProbe.Read | apps/facilitator-erc7710/guards.ts:416-424 | a fresh reading, the run in flight, or a new run |
| Probe.CachedProbe.Finish | apps/facilitator-erc7710/guards.ts:426-439 | a completed run fills the window if it succeeded or failures are cached, and clears the way |
| Probe.OneInFlight | apps/facilitator-erc7710/guards.ts:387-391 | at most one probe is in flight, the last that started |
| Probe.NextStartIsSpaced | apps/facilitator-erc7710/guards.ts:416-439 | after a success, or any ending when failures are cached, the next probe starts a window later |
| Probe.StartsSpanWindows | apps/facilitator-erc7710/guards.ts:387-391 | n such starts span at least n - 1 windows |
| Probe.FailuresAreShared | apps/facilitator-erc7710/guards.ts:372-383 | without failure caching an error reaches only callers that waited on the run that raised it |
| Probe.WindowIsTheLastFill | apps/facilitator-erc7710/guards.ts:416-439 | a reading served from the window is the outcome of the last run that filled it, or the last primed value |
| Probe.WaitersAreTold | apps/facilitator-erc7710/guards.ts:416-439 | every caller that waited on a run is told its outcome |
| Probe.StuckForGood | apps/facilitator-erc7710/guards.ts:416-439 | once the call of a probe threw, no probe ever starts, and outside a window every caller gets that error |
| Probe.StuckIff | apps/facilitator-erc7710/guards.ts:416-439 | that state is reached if and only if the call of a probe that was started threw synchronously, which that of an async function cannot |
| Probe.AsyncThrowClears | apps/facilitator-erc7710/guards.test.ts:687-702 | an async probe that throws at once tells its callers and clears the way: the next caller outside a window starts a probe |
| Probe.AsyncNeverSticks | apps/facilitator-erc7710/guards.ts:426-439 | no run of async probes reaches that state |
| JsText.SpacesAre | scripts/arcade-guardians-report.ts:52-52 | white space is twenty-five characters, by their code points |
| SqlReader.SkipLine | scripts/arcade-guardians-report.ts:40-41 | a line comment runs to its line feed |
| SqlReader.Statements | scripts/arcade-guardians-report.ts:33-49 | the one-pass splitter computes the statements of a dump, or refuses it |
| SqlReader.Space | scripts/arcade-guardians-report.ts:52-52 | white space is skipped |
| SqlReader.ReadText | scripts/arcade-guardians-report.ts:57-60 | a quoted text, its doubled quotes undone |
| SqlReader.ReadValue | scripts/arcade-guardians-report.ts:56-65 | a text, NULL or a safe integer |
| SqlReader.ReadCell | scripts/arcade-guardians-report.ts:56-66 | a cell and whether it closes its row |
| SqlReader.ReadRow | scripts/arcade-guardians-report.ts:54-67 | the cells of one row |
| SqlReader.ReadRowAndComma | scripts/arcade-guardians-report.ts:53-71 | one row, its size limit and the comma behind it |
| SqlReader.Literals | scripts/arcade-guardians-report.ts:50-73 | the rows of an INSERT, or which way it is refused |
| SqlRoundTrip.TextReads | scripts/arcade-guardians-report.ts:57-60 | reading undoes the doubling of quotes, for every text |
| SqlRoundTrip.NumberReads | scripts/arcade-guardians-report.ts:61-65 | reading undoes the printing of every safe integer |
| SqlRoundTrip.CellsRead | scripts/arcade-guardians-report.ts:54-67 | a printed row reads back, whatever white space stands between |
| SqlRoundTrip.RowsRead | scripts/arcade-guardians-report.ts:50-73 | so do the rows of an INSERT |
| SqlRoundTrip.QuotedPasses | scripts/arcade-guardians-report.ts:37-39 | inside a quoted text semicolons and comment marks are content |
| SqlRoundTrip.GapsPass | scripts/arcade-guardians-report.ts:40-43 | comments and white space between statements leave nothing behind |
| SqlRoundTrip.DumpSplits | scripts/arcade-guardians-report.ts:33-49 | a dump splits into exactly its statements, whatever comments stand between them |
| SqlExport.NameParses | scripts/arcade-guardians-report.ts:84-86 | a bare, double-quoted or back-quoted table name reads back |
| SqlExport.ColumnsRead | scripts/arcade-guardians-report.ts:87-87 | a column list reads back, whatever quotes and white space its names carry |
| SqlExport.InsertParses | scripts/arcade-guardians-report.ts:84-87 | a printed INSERT parses to its table, its columns and its rows |
| SqlExport.InsertIsSealed | scripts/arcade-guardians-report.ts:33-49 | a printed INSERT is one statement, whatever its texts hold |
| SqlExport.SettingIsSkipped | scripts/arcade-guardians-report.ts:83-83 | every spelling of the two settings is skipped |
| SqlExport.SettingIsSealed | scripts/arcade-guardians-report.ts:33-49 | and is one statement |
| SqlExport.ArrangeUndoes | scripts/arcade-guardians-report.ts:87-93 | a row printed in the order of any column list is stored in the table's own |
| SqlExport.ExportReadsBack | scripts/arcade-guardians-report.ts:74-98 | reading a printed export returns its rows: any names and column orders, any texts, integers and NULLs, any settings, any white space and comments |
| SqlExport.ExportedShapes | scripts/arcade-guardians-report.test.ts:113-119 | the statements of the repository's own exporter are among those |
| SqlRefusals.RowsSpelled | scripts/arcade-guardians-report.ts:50-73 | whatever text is read as rows was a writing of those rows, and there are no more of them than the limit |
| SqlRefusals.InsertSpelled | scripts/arcade-guardians-report.ts:84-87 | whatever statement is taken for an INSERT was written as one |
| SqlRefusals.PassedOverIff | scripts/arcade-guardians-report.ts:83-83 | a statement is passed over if and only if, in capitals, it is a transaction mark or one of the two settings |
| SqlRefusals.OnlyDataIsImported | scripts/arcade-guardians-report.ts:74-98 | whatever text is imported was wholly data: marks, settings, and INSERTs of rows into each column of a known table; what is stored is full rows of those tables, at most half a million |
| SqlRefusals.OtherStatementIsRefused | scripts/arcade-guardians-report.ts:83-85 | a statement that is neither is refused as no data |
| SqlRefusals.InsertIsAnswered | scripts/arcade-guardians-report.ts:85-93 | the answer to any printed INSERT: which of the four refusals, or one row on file for each |
| SqlRefusals.UnsafeNumberIsRefused | scripts/arcade-guardians-report.ts:61-65 | a number that a double does not hold exactly is not read |
| SqlRefusals.UnfinishedIsRefused | scripts/arcade-guardians-report.ts:33-49 | nothing is imported of a dump that ends in an open quote, an open comment, or a statement without its semicolon |
| SqlRefusals.FirstRefusalStands | scripts/arcade-guardians-report.ts:80-97 | the first statement that is refused decides for the dump, and nothing of it is stored |
| SqlRefusals.ExportIsReadIff | scripts/arcade-guardians-report.ts:74-98 | a printed export is imported whole if it has at most half a million rows, and refused whole if it has more |
| ChainScan.WindowsPartition | scripts/arcade-guardians-report.ts:190-191 | the windows partition the range: each block in exactly one |
| ChainScan.WindowsAreBounded | scripts/arcade-guardians-report.ts:182-191 | no window is wider than 2000 blocks, and there are at most 500 |
| ChainScan.ChainActivity.Window | scripts/arcade-guardians-report.ts:192-206 | one window's logs, checked and gathered one by one |
| ChainScan.ChainActivity.Logs | scripts/arcade-guardians-report.ts:190-208 | window after window up to the end, or to the first that throws |
| ChainScan.ChainActivity.Payments | scripts/arcade-guardians-report.ts:212-220 | every payment confirmed or not, and gathered when it is in time |
| ChainScan.ChainActivity.Run | scripts/arcade-guardians-report.ts:176-228 | the whole scan and its report |
| ChainScan.CompleteIff | scripts/arcade-guardians-report.ts:209-226 | complete counts are given if and only if the whole requested range was read and every payment confirmed |
| ChainScan.UnchunkedGathers | scripts/arcade-guardians-report.ts:190-208 | one unchunked scan of the same logs, in any order and with any repeats, throws nothing and gathers the same |
| ChainScan.CompleteCountsAreExact | scripts/arcade-guardians-report.ts:176-228 | complete counts are the sizes of what the range's logs and the confirmed payments come to |
| ChainScan.ReportTells | scripts/arcade-guardians-report.ts:176-228 | of any scan that started, complete or not: it says it came as far as it read, counts at least what the windows it read come to and no more than that with the one that threw, and calls range and payments complete exactly when |
| ChainScan.NothingIsReported | scripts/arcade-guardians-report.ts:181-184 | a scan that may not start, or finds another chain or no safe head, observes and completes nothing |
| Lexer.NextLength | scripts/check-logging.ts:74-176 | a token takes at least one character and turns some of those it takes to spaces |
| Lexer.StripOnlyBlanks | scripts/check-logging.ts:54-62 | stripping keeps the length and every line feed, and changes characters to spaces only |
| Lexer.StringStops | scripts/check-logging.ts:90-96 | a string ends at its first line feed or unescaped quote |
| Lexer.TemplateStops | scripts/check-logging.ts:106-116 | a template body ends at its first unescaped back quote or opening of an interpolation |
| Lexer.RegexStops | scripts/check-logging.ts:151-164 | a regex ends at its first unescaped line feed, or unescaped slash outside a class |
| Lexer.LineStops | scripts/check-logging.ts:78-82 | a line comment ends at its line feed |
| Lexer.CloseStops | scripts/check-logging.ts:84-88 | a block comment ends behind its first closing mark, or at the end |
| Lexer.TokenIsBlanked | scripts/check-logging.ts:74-176 | comments become blank; of a string, regex or template body only the marks around it survive; other code stays |
| LexerSlash.RegexIsBlanked | scripts/check-logging.ts:148-176 | a slash behind any of the twenty marks, whatever white space stands between, opens a regex: its body is blank and the code behind it stays |
| LexerSlash.DivisionIsCode | scripts/check-logging.ts:148-176 | a slash behind a name, a digit, a closing parenthesis or bracket stays, and what follows it is read as code |
| LexerSlash.SlashBehindCode | scripts/check-logging.ts:148-176 | for any code with comments and white space in it, which of the two the slash behind it is |
| LexerSlash.FirstSlashDivides | scripts/check-logging.ts:148-176 | so at the start of a source, where nothing stands before it |
| LexerSlash.SlashBehindLiteral | scripts/check-logging.ts:90-103 | and behind a string or a regex, whose closing mark divides |
| LexerSlash.ResumedStays | scripts/check-logging.ts:120-147 | a resumed template body passes on what stood before it |
| LexerSlash.MessageIsSeen | scripts/check-logging.ts:148-176 | a quote inside a regex argument hides nothing of the arguments behind it |
| LexerTwice.NextAgain | scripts/check-logging.ts:74-176 | any token but a comment is read again just as it was, whatever follows it once stripped |
| LexerTwice.CutLiteral | scripts/check-logging.ts:148-170 | a regex literal with an escaped line feed, stripped, reads as it was exactly when its close does not open a comment |
| LexerTwice.StripTwiceIff | scripts/check-logging.ts:54-62 | stripping is idempotent on a source if and only if no regex literal that holds an escaped line feed is closed by a slash that would open a comment |
| LexerTwice.BareIffFixed | scripts/check-logging.ts:54-62 | a text is left alone by stripping if and only if no comment opens in it and every literal is blank inside |
| LexerTwice.StrippedIsBareIff | scripts/check-logging.ts:54-62 | a stripped source is such a text exactly under the condition of idempotence |
| LexerTwice.EscapedFeedStripsTwice | scripts/check-logging.ts:148-170 | a source on which stripping twice differs |
| LexerBraces.ReadAlikeIff | scripts/check-logging.ts:104-150 | from any point, the stripper and a reader that counts braces read token for token alike if and only if the counting one meets no nested closing brace |
| LexerBraces.InterpolationsStayCodeIff | scripts/check-logging.ts:104-150 | so for whole sources, which are then stripped alike |
| LexerBraces.NestedBraceChanges | scripts/check-logging.ts:129-150 | the stripped text itself differs wherever something shows behind the first nested brace: past blanks, anything but a comment or the end of a template body |
| LexerBraces.NestedBraceMayBeHarmless | scripts/check-logging.ts:129-150 | a source with a nested brace, and nothing of the kind behind it, that both readers leave as it is |
| LexerBraces.InterpolationKept | scripts/check-logging.ts:125-128 | the counting reader keeps an interpolation with an object literal in it as code |
| LexerBraces.InterpolationLost | scripts/check-logging.ts:129-150 | the stripper blanks whatever stands behind that literal |
| LexerBraces.MessageIsLost | scripts/check-logging.ts:129-150 | an error message logged through such an interpolation is blanked before it is searched |
| Lexer.BlankRange | scripts/check-logging.ts:65-69 | a range of the array is blanked, line feeds kept, clamped to its length |
| Lexer.StringEnd | scripts/check-logging.ts:91-96 | the loop over a string body stops where the body ends |
| Lexer.TemplateEnd | scripts/check-logging.ts:107-115 | the loop over a template body stops where the body ends |
| Lexer.RegexEnd | scripts/check-logging.ts:152-164 | the loop over a regex body stops where the body ends |
| Lexer.Token | scripts/check-logging.ts:74-176 | one round of the loop blanks one token in place and moves position, stack and last significant character with it |
| Lexer.StripInPlace | scripts/check-logging.ts:63-179 | the loop over the array computes the stripped source |
| Lexer.ReportedLinesAreTheSources | scripts/check-logging.ts:273-274 | a line number computed on the stripped text is that of the source |
| Lexer.FindCall | scripts/check-logging.ts:187-187 | the first call from a position on, and none exactly when there is none |
| Lexer.CallSpans | scripts/check-logging.ts:189-200 | a call's span stays open until its end and is balanced there, unless the text never closes it |
| Lexer.EndOfCall | scripts/check-logging.ts:189-200 | the loop finds that end |
| Lexer.BlankOneRedactor | scripts/check-logging.ts:185-206 | the loop blanks every call of one redactor |
| Lexer.BlankRedactorCalls | scripts/check-logging.ts:182-209 | both redactors, one after the other |
| Lexer.CallsAreBlanked | scripts/check-logging.ts:182-209 | only blanks are written, and no call of the redactor is left to be searched |
| LexerFinds.BlankedIffInCall | scripts/check-logging.ts:182-209 | blanking a redactor's calls blanks each character within one, nested ones included, and leaves every other as it is |
| LexerFinds.HiddenIffRedacted | scripts/check-logging.ts:182-209 | what is left of an argument list to be searched is all of it but the calls of the two redactors |
| LexerFinds.QuotedLineIsItsOwn | scripts/check-logging.ts:273-279 | the line quoted for a position of the source is the one it stands on |
| Lexer.FindingsPointAtTheSource | scripts/check-logging.ts:269-279 | what is left of a call's arguments stands where the source has it, on the line the source has it |

## Left out

- Signing, keccak, ABI encoding, caveat enforcers and the client libraries: the transaction, the receipt and the intent are values, and a library call is an answer that may be anything.
- SQLite itself: a table is a sequence, a transaction lands whole or not at all, and `Disk` says whether its caller hears of it.
- Request parsing, validation, environment variables, rate limits, headers, HTML pages, health and metrics endpoints, logging: one-branch checks and input or output.
- The facilitator's rejection ledger rows and their pruning, and the budget gauge of its health page.
- The `payments_disabled` branches of the arcade's `buy` and `get`, taken before anything is read.
- Strings of UTF-16 code units: text is `seq<char>`, and the readers only look at ASCII marks and white space. A dump's byte-size limit and the tables' own constraints on inserted values.
- UTC day keys: a day is a number of whole days since the epoch, so dates a calendar string cannot write are not told apart.
- Negative fees, gas or amounts, which the chain's types exclude.
- Faults of the sponsor's budget store, a budget without a store, and a charge that is not a big integer.
- A ticket code that collides with one already on file is a failed insert here; that codes are random is not modelled.
- The matchers of `findLogLeaks`: the lemmas hold of any position a matcher may report.
- Decoding of collection logs: a log carries the event it decodes to, or says that it does not decode.
- The faucet, the model provider and its validators, the deployment tools, the documentation site and the end-to-end drivers.
