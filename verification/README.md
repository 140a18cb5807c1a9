# LIBRETA: a verified model of settlement, schedules and reputation

LIBRETA lets a lender and a borrower agree on a loan, pay it in installments, and keep proof of every payment.
An installment is paid on one of two rails. On the Pollar rail a payment intent is frozen in SQL, the borrower
reports a Stellar transaction, the server checks it against the ledger, `pollar_settle` marks the installment
PAID, and a worker writes the receipt into the `LibretaRegistry` contract on HSK before `pollar_mark_anchored`
closes the intent. On the cash rail `collectCash` takes a one-time code, reserves the installment, writes to the
same contract and then updates the same row. Both rails run concurrently, in several processes that may stop
between any two steps.

This project models those parts of the backend and proves what they promise. `dafny verify dfyconfig.toml`
checks all of it.

## Layout

| file | models |
|---|---|
| `Wrappers.dfy`, `Values.dfy` | options and results; identifiers, digests, `Math.round` |
| `Registry.dfy` | the contract: storage, its two transactions, runs of any calls, and the class that updates storage in place |
| `SettlementDb.dfy`, `SettlementDbProofs.dfy` | the settlement tables, each SQL function as one atomic step, and the invariant every step keeps |
| `SettlementEffects.dfy` | what each of these functions does to the rows, field by field, and which rows each error stands for |
| `SettlementSql.dfy` | the same functions as the plpgsql bodies run them: row by row, with triggers, CHECK constraints, unique indexes and rollback |
| `Decimal.dfy`, `Stellar.dfy` | amounts as text, and the verification of a ledger payment |
| `Protocol.dfy`, `ProtocolProofs.dfy` | the three stores as one transition system, its invariant, and its preservation by every step |
| `ProtocolTheorems.dfy`, `SettlementTheorems.dfy` | what holds in every reachable state and over every run |
| `RailTheorems.dfy` | which steps pay an installment and complete a loan, what a crash on the cash rail leaves, and how far table and chain may be apart |
| `OriginTheorems.dfy` | the one statement of a run that opened an intent, settled it, or gave it its hash |
| `ProgressTheorems.dfy` | explicit continuations that settle and anchor an intent from any reachable state |
| `Otp.dfy`, `ServiceFacts.dfy`, `Services.dfy` | `anchor`, `reconcile`, `create`, `report`, `tick` and `collectCash` as imperative code in which anything may happen at every await |
| `EvidenceCache.dfy` | the expiring, bounded cache in front of the chain |
| `Outbox.dfy` | the audit log and its outbox |
| `LoanCalculation.dfy`, `Schedule.dfy` | interest, the split into cents, and the schedule on both paths |
| `Calendar.dfy`, `DueDates.dfy` | the Gregorian calendar of ECMA-262 section 21.4.1, and due dates computed with the setters of a Date |
| `Lri.dfy` | the reliability index and the three loops that gather its inputs |

## How the protocol is modelled

A state holds the SQL tables, the Stellar ledger, the registry at the head block and one block earlier, the pool of
confirmation transactions, and what worker processes have learnt so far. Whatever a worker reads before an await
(a verified hash, a queued intent, a seen proof, a claimed installment, a fully paid schedule) is kept in a set and
may be acted upon at any later moment, any number of times, or never. That covers every number of concurrent
workers and every crash or timeout. A submitted HSK transaction may be mined late, revert, or stay pending for
ever. The worker lease is never used for safety.

`Services.dfy` runs the TypeScript methods against that system: `Elsewhere()` stands for an await and lets any
sequence of events happen. The requests of a call are numbered, and an input says which of them are answered, so that
a contract can say what a call does when its requests are answered and that it gives up only behind one that was not;
`Up(net, i, j)` means that requests i to j - 1 are. A request that takes effect although its reply is lost counts as an
event of somebody else, except for a submitted transaction, whose reply is a request of its own. Each method's contract
ties its answer to the state it leaves and names the statements it has sent itself (`sent`, `statements`).

Assumptions:

- the ledger and the chain never reorganise;
- hashes are injective (a digest is represented by its preimage);
- operator, contract address and chain are fixed configuration, so the network checks of the services pass;
- the operator is the on-chain lender of every loan in the database, and all payment confirmations it signs come from
  `anchor` and `collectCash`;
- the installment count on chain and in SQL agree and rows are numbered 1..n, as `createLoan` establishes;
- block timestamps are positive;
- Horizon shows a transaction and its operations together.

## Findings

- A transfer of a thousand million USDC or more on the same route, placed before the exact payment in the same
  transaction, makes `units` throw inside `find`. The candidate is rejected, and rejection is final
  (`Stellar.LargeTransferHidesAMatch`, `Stellar.MatchSuffices`, `ServiceFacts.EvidenceIsFinal`).
- On the cash rail completion is a separate step. A process that stops after marking the last installment leaves a
  fully paid loan ACTIVE (`SettlementTheorems.CashCrashLeavesLoanOpen` shows the run). Exactly when a loan ends up
  COMPLETED: its last unpaid installment is on the POLLAR rail, which can be read beforehand, or some completion
  check lives to write what it saw (`RailTheorems.CompletedExactly`, `LastPaymentCompletes`, `OnlyCheckCloses`). For
  loans without cash the two agree in every state.
- The cash rail has no repair. Once a confirmation is mined, its installment becomes PAID exactly by the UPDATE of
  the call that sent it (`RailTheorems.CashPaidExactly`). If that process stops in between, which `CashRowGetsStuck`
  shows a run for, the row stays unpaid: any further confirmation reverts (`LaterConfirmationsFail`), so
  `collectCash` never succeeds for this installment again (`Services.Backend.CollectCash`), the loan is never
  COMPLETED, and its later installments can no longer be paid on the Pollar rail (`StuckRowBlocksLoan`). The chain
  runs ahead of the table exactly by cash rows that miss this UPDATE (`RowLag`, `LagIsAtMostOne`). On the Pollar rail `anchor`
  repairs the same crash by reading (`ProtocolTheorems.RepairWithoutSubmission`,
  `ProgressTheorems.SettledCanBeAnchored`).
- `Date.UTC` takes years 0 to 99 for the twentieth century. The month-end clamp is wrong exactly for the leap day of
  the year 0000, and results after the year 9999 print as a truncated text (`DueDates.ResultIsRight`;
  `DueDates.LeapDayIsMissed` at the input "0000-01-31", monthly, one month on). For start dates from the year 0100
  with results up to 9999 every due date is right.
- The documentation calls audit delivery durable and idempotent. Events recorded without an idempotency key may be
  logged several times when replies are lost, exactly as often as `Outbox.UnkeyedMayRepeat` counts. Keyed events are
  logged at most once, and once accepted are in the log or the outbox for ever. A keyed event is lost exactly when
  none of the call's statements reaches the database and it was not accepted before (`Outbox.LostExactly`,
  `Outbox.LosingRun`); the caller is not told. A call whose statements all failed may still have recorded its event.
- The documentation counts an installment as punctual when it is paid on the due date or before
  (`docs/PROJECT_DOCUMENTATION.md:178`). The code compares with the midnight that begins the due day, so a payment
  later on that day is late in all three loops (`Lri.NoonOfTheDueDay`). The two agree exactly for all other payments
  (`Lri.OnTimeAsDocumented`).
- After a cash payment the completion check passes over a schedule that it cannot read: the repository answers a failed
  read with an empty list (`supabase-installment.repository.ts:36-51`), which is never fully paid, so the loan stays
  ACTIVE and nobody is told (`Services.Backend.CheckAndComplete`). A failed write is told, but after the row is PAID.
- The documentation defines the repayment ratio over capital; the code adds up installment amounts, interest
  included (`borrower.service.ts:91`). The model follows the code.
- The documentation lists DAILY, WEEKLY and MONTHLY; the code also accepts BIWEEKLY.

## Model

| member | source | states |
|---|---|---|
| Registry.LibretaRegistry.RegisterLoan | contracts/LibretaRegistry.sol:67-91 | succeeds exactly for an unregistered id, a positive count and a nonzero borrower, and otherwise says why; stores sender, borrower, hash, count and time field by field and lists the id once more for its borrower |
| Registry.LibretaRegistry.ConfirmPayment | contracts/LibretaRegistry.sol:96-125 | succeeds exactly for the lender of an active loan and the next number, and otherwise says why; appends exactly that proof, counts one more, and completes the loan at that time exactly with the last one |
| Registry.ConfirmNeverPanics | contracts/LibretaRegistry.sol:103-108 | on reachable storage the checked uint16 increment never overflows |
| Registry.EveryRunIsValid | contracts/LibretaRegistry.sol:67-125 | any transactions from anyone, in any order, keep the storage invariant and only append |
| Registry.DeployedContract | contracts/LibretaRegistry.sol:33-125 | paid count equals proof count and never exceeds the total; COMPLETED exactly when they meet; proof j has number j+1; every registered id is listed exactly once |
| Registry.FoundProof | src/application/modules/pollar/settlement-anchor.service.ts:163-170 | finding a proof by number in a numbered-through list is indexing |
| SettlementSql.TriggerKeepsReservations | migrations/20260912_pollar_settlements.sql:180-194 | any UPDATE the trigger lets through keeps a reserved rail, its frozen columns and a recorded payment, and pays a POLLAR row only behind a settled intent |
| SettlementSql.TriggerKeepsIntent | migrations/20260912_pollar_settlements.sql:199-208 | over any number of row updates an intent keeps its terms and payment and its status only advances |
| SettlementSql.ChecksKeepRow | docs/Supabase.sql:84-108 | any UPDATE the constraints let through leaves a row that is PAID exactly with a date, then with method and receipt, and shares number, receipt and hash with no other |
| SettlementSql.Tables.UpdateInstallment | migrations/20260912_pollar_settlements.sql:180-196 | an UPDATE succeeds exactly when trigger, checks and unique indexes allow it, and otherwise changes nothing |
| SettlementSql.Tables.UpdateIntent | migrations/20260912_pollar_settlements.sql:199-210 | the same for intents, with UNIQUE(network, tx_hash) |
| SettlementSql.Tables.PollarCreateIntent | migrations/20260912_pollar_settlements.sql:82-109 | the body, with rollback, has exactly the effect and error of the one-step specification; a new intent is the row, loan and wallet as they were with what was passed, an error says what the rows were |
| SettlementSql.Tables.PollarObserve | migrations/20260912_pollar_settlements.sql:111-125 | the same for reporting a hash: a pending candidate of now, replays, the limit of five, refusals |
| SettlementSql.Tables.PollarSettle | migrations/20260912_pollar_settlements.sql:128-153 | the same for settling: intent, installment, candidate and loan change together, field by field, or not at all |
| SettlementSql.Tables.PollarMarkAnchored | migrations/20260912_pollar_settlements.sql:155-163 | succeeds exactly for a settled intent, stores the hash that is given and keeps the stored one when none is; neither update can be refused |
| SettlementSql.Tables.LibretaClaimCash | migrations/20260912_pollar_settlements.sql:173-178 | reserves an unpaid row that is not on the other rail, changes nothing else, and refuses exactly the others |
| SettlementSql.Tables.MarkPaidInCash | src/application/modules/installments/installments.service.ts:149-156 | the cash UPDATE, as trigger and indexes let it through, writes exactly these five columns |
| SettlementSql.Tables.DeferCandidate | src/application/modules/pollar/settlement.repository.ts:52-62 | only the retry time of that candidate changes |
| SettlementSql.Tables.Reject | src/application/modules/pollar/settlement.repository.ts:63-72 | rejects exactly a pending candidate and nothing else |
| SettlementSql.Tables.AnchorFailed | src/application/modules/pollar/settlement.repository.ts:85-98 | postpones exactly a verified intent; an anchored one is untouched |
| SettlementSql.SettledRowAllowed | migrations/20260912_pollar_settlements.sql:144-147 | after the intent update the installment update passes its trigger and checks, and fails only on a used receipt |
| SettlementSql.AnchoredRowsAllowed | migrations/20260912_pollar_settlements.sql:161-162 | both updates of anchoring pass triggers, checks and indexes |
| SettlementSql.StellarHashOwner | migrations/20260912_pollar_settlements.sql:22-23 | two installments never carry the same Stellar hash |
| SettlementEffects.CreateIntentEffect | migrations/20260912_pollar_settlements.sql:88-107 | a new intent names the row's loan, place and amount, the loan's parties, the lender's wallet as recipient, and sender, issuer, ledger and contract as passed, for an open row of an active USDC loan on Stellar behind a synced prefix; each error names the rows behind it |
| SettlementEffects.ObserveEffect | migrations/20260912_pollar_settlements.sql:115-124 | a success leaves the report in the queue or the intent settled with this hash; each error names the rows behind it |
| SettlementEffects.SettleEffect | migrations/20260912_pollar_settlements.sql:132-152 | the payment in all four tables, column by column, the loan COMPLETED at that time exactly when no row is left unpaid; each error names the rows behind it |
| SettlementEffects.MarkAnchoredEffect | migrations/20260912_pollar_settlements.sql:159-162 | stores a given hash and keeps the stored one otherwise, clears the error, and syncs exactly the row with this receipt |
| SettlementEffects.ClaimCashEffect | migrations/20260912_pollar_settlements.sql:176-177 | reserves exactly an unpaid row that is not on the other rail |
| SettlementEffects.MarkCashPaidEffect | src/application/modules/installments/installments.service.ts:149-156 | writes exactly status, method, time, receipt and sync state; each error names the rows behind it |
| SettlementDbProofs.CreateIntentKeeps | migrations/20260912_pollar_settlements.sql:82-109 | creating an intent keeps the table invariant and takes nothing back |
| SettlementDbProofs.SettleKeeps | migrations/20260912_pollar_settlements.sql:128-153 | settling keeps the table invariant, loan completion included, and takes nothing back |
| SettlementDbProofs.MarkAnchoredKeeps | migrations/20260912_pollar_settlements.sql:155-163 | anchoring keeps the table invariant and takes nothing back |
| SettlementDbProofs.InsertScheduleKeeps | src/application/modules/loans/loans.service.ts:158-170 | inserting a schedule keeps the table invariant and takes nothing back |
| Decimal.UnitsAreExact | src/application/modules/pollar/pollar.service.ts:27-33 | the parsed integer is the denoted rational times ten million |
| Decimal.SameUnitsSameNumber | src/application/modules/pollar/pollar.service.ts:27-33 | two accepted numerals are equal in units exactly when they denote the same rational |
| Decimal.FormatIsExact | src/application/modules/pollar/pollar.service.ts:28-31 | the accepted texts, character by character: one to nine digits without leading zeros, and perhaps a point with one to seven more |
| Decimal.PrintedCentsParse | src/application/modules/pollar/settlement.service.ts:183-190 | a database amount in cents, printed with trailing zeros dropped, parses to cents times 100000 exactly below 10^11 cents, and is refused above |
| Decimal.HorizonParses | src/application/modules/pollar/pollar.service.ts:113-124 | a seven-decimal amount parses back exactly below 10^16 ten-millionths, and is refused above |
| Stellar.FindIsExact | src/application/modules/pollar/pollar.service.ts:113-124 | find succeeds exactly when some operation pays and none before it on the same route is unreadable |
| Stellar.VerifyIsExact | src/application/modules/pollar/pollar.service.ts:78-142 | confirms exactly a successful, late enough transaction with a USDC payment of the issuer, from the sender to the recipient, over the amount, before which no operation on that route is unreadable; at the ledger time |
| Stellar.RefusedBecause | src/application/modules/pollar/pollar.service.ts:88-128 | what each refusal stands for |
| Stellar.MatchSuffices | src/application/modules/pollar/pollar.service.ts:113-124 | with readable amounts a matching transfer anywhere is enough |
| Stellar.LargeTransferHidesAMatch | src/application/modules/pollar/pollar.service.ts:113-124 | for every amount, an oversized transfer placed first hides the exact one |
| ProtocolProofs.StepKeeps | src/application/modules/pollar/settlement.service.ts:178-263 | each of the twenty-four kinds of step keeps the cross-store invariant and takes nothing back in any store |
| ProtocolProofs.RunKeeps | src/application/modules/pollar/settlement.service.ts:178-263 | so does every run, under any interleaving of workers, crashes and late transactions |
| ProtocolProofs.GenesisIsSound | migrations/20260912_pollar_settlements.sql:31-68 | empty stores satisfy the invariant |
| ProtocolProofs.VerifiedIsBacked | src/application/modules/pollar/settlement.service.ts:182-191 | a confirmed verification is a real payment of exactly the intent's terms |
| ProtocolTheorems.EveryProofIsReserved | src/application/modules/pollar/settlement-anchor.service.ts:185-192 | every on-chain proof k of a loan belongs to installment k, whose rail is reserved; it is digital exactly on the POLLAR rail and then carries that intent's receipt and Stellar hash |
| ProtocolTheorems.EverySubmissionIsReserved | src/application/modules/installments/installments.service.ts:139-146 | so does every confirmation ever submitted, mined or not |
| ProtocolTheorems.ProvenOrNext | src/application/modules/pollar/settlement.service.ts:152-155 | an intent's proof is on chain, or the chain loan is active with exactly the earlier installments paid |
| ProtocolTheorems.AnchoringNeverWedges | src/application/modules/pollar/settlement-anchor.service.ts:179-192 | a settled intent is proven, or the contract would accept its confirmation now |
| ProtocolTheorems.NoForeignReceipt | src/application/modules/pollar/settlement-anchor.service.ts:171-178 | what anchor reads for its installment is its own proof: the conflict branch is unreachable |
| ProtocolTheorems.AnchoredIsProven | src/application/modules/pollar/settlement.service.ts:242-246 | ANCHORED means the exact proof is on chain, then and in every later state |
| ProtocolTheorems.LateConfirmationsRevert | contracts/LibretaRegistry.sol:104-106 | once an installment is proven, any further confirmation of it reverts and changes nothing |
| ProtocolTheorems.TwiceConfirmedIsDeep | src/application/modules/pollar/settlement-anchor.service.ts:193-196 | after wait(2) the proof a transaction carries is on chain one block below the head |
| ProtocolTheorems.OneProofPerInstallment | src/application/modules/pollar/settlement-anchor.service.ts:198-203 | a proven installment keeps its one proof whatever is retried |
| ProtocolTheorems.RepairWithoutSubmission | src/application/modules/pollar/settlement-anchor.service.ts:171-178 | a crash between chain success and the database is repaired by reading, without submitting and without a new proof |
| ProtocolTheorems.OneOpenIntentPerLoan | migrations/20260912_pollar_settlements.sql:96-103 | a loan never has two intents that are not anchored |
| OriginTheorems.IntentOrigin | src/application/modules/pollar/settlement.service.ts:157-164 | over every run each intent was opened by one statement, from the rows and the wallet as they were then and with what it passed, and still has those terms |
| OriginTheorems.SettlementOrigin | src/application/modules/pollar/settlement.service.ts:192-213 | over every run each settled intent was settled by one statement, in all four tables, with the receipt of its own fields and the time of a payment the ledger showed |
| OriginTheorems.StoredHashIsLastGiven | src/application/modules/pollar/settlement.service.ts:242-246 | over every run the HSK hash stored with an intent is the last one that anchor handed over; closing without one keeps it |
| SettlementTheorems.SettledIsBacked | src/application/modules/pollar/settlement.service.ts:191-213 | a settled intent is backed, then and later, by a successful ledger payment after its ledger from its sender to its recipient in USDC of its issuer over its amount; its receipt is the digest of its own terms and that hash, its time the ledger's |
| SettlementTheorems.ConfirmedExactly | src/application/modules/pollar/pollar.service.ts:92-135 | a hash is confirmed for an intent exactly when the ledger holds such a payment, over the operation's own fields and the intent's own terms |
| SettlementTheorems.NoSharedPayment | migrations/20260912_pollar_settlements.sql:55-58 | two settled intents never share a transaction or a receipt |
| SettlementTheorems.CreditNeverExceedsTransfers | src/application/modules/pollar/pollar.service.ts:110-124 | what any set of installments was credited never exceeds what their distinct transactions moved from the intents' own senders to their own recipients in USDC of their own issuers |
| SettlementTheorems.SettlementIsFinal | migrations/20260912_pollar_settlements.sql:137-145 | the first settlement fixes hash, receipt and time for ever, terms never change, status only advances |
| SettlementTheorems.ReplayIsNoOp | migrations/20260912_pollar_settlements.sql:137-140 | the same claim again changes nothing, any other is refused |
| SettlementTheorems.FirstAcceptedClaimDecides | src/application/modules/pollar/settlement.service.ts:208-213 | in any run, whatever else happens in between, all settlement calls of an intent but the first accepted one can be struck without changing the final state, which carries that call's hash |
| SettlementTheorems.LaterClaimsDoNothing | migrations/20260912_pollar_settlements.sql:137-140 | once an intent is settled, every later settlement call for it leaves the whole state as it is, whatever ran in between |
| SettlementTheorems.CandidatesAgree | migrations/20260912_pollar_settlements.sql:121-124 | at most five candidates are pending, and the verified one is exactly the settled hash |
| SettlementTheorems.RailsExclude | migrations/20260912_pollar_settlements.sql:172-194 | rail, payment state, intent, sync state and proof of an installment always agree |
| SettlementTheorems.ReservedRailIsForEver | migrations/20260912_pollar_settlements.sql:183-188 | a reserved rail, the row's terms and a recorded payment never change |
| SettlementTheorems.VerifiedFlagIsSettled | src/application/modules/pollar/settlement.service.ts:84-95 | an installment shown as hsk_verified is PAID with its own receipt at its own place on chain |
| SettlementTheorems.CompletedIsPaid | migrations/20260912_pollar_settlements.sql:149-151 | COMPLETED means every installment is PAID, then and later |
| SettlementTheorems.PollarLoanCompletes | migrations/20260912_pollar_settlements.sql:149-151 | for a scheduled loan without cash, COMPLETED and fully paid are equivalent in every state |
| SettlementTheorems.CompletionCheckCloses | src/application/modules/installments/installments.service.ts:194-205 | the cash rail's check closes any fully paid loan, whatever happens between its read and its write |
| SettlementTheorems.CashCrashLeavesLoanOpen | src/application/modules/installments/installments.service.ts:149-175 | a concrete run that stops before the check leaves a fully paid loan ACTIVE |
| RailTheorems.OnlyTwoStepsPay | migrations/20260912_pollar_settlements.sql:180-194 | an unpaid installment becomes PAID exactly by an accepted settlement of its own intent, on the POLLAR rail, or by the UPDATE behind its own mined confirmation, on the CASH rail |
| RailTheorems.LastPaymentCompletes | migrations/20260912_pollar_settlements.sql:144-151 | the step that pays a loan's last installment completes the loan exactly when that installment is on the POLLAR rail |
| RailTheorems.OnlyCheckCloses | src/application/modules/installments/installments.service.ts:194-205 | a fully paid loan that is still open is completed exactly by the write of a completion check that saw it paid |
| RailTheorems.CompletedExactly | src/application/modules/installments/installments.service.ts:149-205 | after the last payment and any further run a loan is COMPLETED exactly when its last unpaid installment was on the POLLAR rail or some completion check lived to write |
| RailTheorems.OneConfirmation | contracts/LibretaRegistry.sol:103-111 | an installment never has two confirmations that succeeded, and has one whenever its place on chain is taken |
| RailTheorems.CashPaidExactly | src/application/modules/installments/installments.service.ts:137-156 | once the confirmation of an unpaid cash installment succeeded, over any run the row becomes PAID exactly when the UPDATE behind this confirmation runs |
| RailTheorems.CashRowGetsStuck | src/application/modules/installments/installments.service.ts:139-156 | a concrete run mines the confirmation of a cash installment and leaves its row unpaid |
| RailTheorems.StuckRowBlocksLoan | migrations/20260912_pollar_settlements.sql:96-103 | as long as that UPDATE has not run, the loan is never COMPLETED and no later installment of it can get a payment intent |
| RailTheorems.LaterConfirmationsFail | contracts/LibretaRegistry.sol:104-106 | what is submitted for an installment whose place on chain is taken never succeeds, in any later run |
| RailTheorems.ReceiptsAreOwn | src/application/modules/installments/installments.service.ts:129-135 | every recorded receipt names its own installment: loan and number in cash, the intent on the POLLAR rail |
| RailTheorems.CashReceiptIsFree | docs/Supabase.sql:96 | the unique index on receipts never refuses the UPDATE behind a mined cash confirmation |
| RailTheorems.RowLag | migrations/20260912_pollar_settlements.sql:96-103 | an installment is on chain and unpaid exactly when it is a stuck cash row, and a paid one is at most one place past the chain |
| RailTheorems.LagIsAtMostOne | migrations/20260912_pollar_settlements.sql:96-103 | for every loan on any rails, the paid rows are the first ones, as many as the chain counts or one more, exactly when no cash row is stuck |
| ProgressTheorems.SettledCanBeAnchored | src/application/modules/pollar/settlement.service.ts:238-250 | from every reachable state with a settled intent the explicit steps of one anchoring end ANCHORED and proven, without a submission if the proof is there |
| ProgressTheorems.OpenCanBeSettled | src/application/modules/pollar/settlement.service.ts:166-213 | from every reachable state an open intent with fewer than five pending reports can be paid, reported, verified and settled by a new transaction |
| ProgressTheorems.AnchoredIsReachable | src/application/modules/pollar/settlement.service.ts:122-250 | a whole run from empty stores opens a loan, settles its intent and anchors it |
| ServiceFacts.EvidenceIsFinal | src/application/modules/pollar/settlement.service.ts:180-218 | the terms and the ledger entry that decide a verdict never change once the entry is there, so a refusal is final |
| ServiceFacts.OutOfSequenceIsProven | src/application/modules/pollar/settlement-anchor.service.ts:179-184 | the sequence check fails only for an intent already proven |
| ServiceFacts.OneShortExactly | src/application/modules/pollar/settlement-anchor.service.ts:179-184 | the sequence check passes exactly for a queued intent whose proof is not mined yet |
| ServiceFacts.RefusalHasReason | migrations/20260912_pollar_settlements.sql:137-145 | pollar_settle refuses a verified hash only because the intent was settled with another one, the report is not pending any more, or another intent was settled with this one |
| ServiceFacts.CashUpdatePasses | src/application/modules/installments/installments.service.ts:149-156 | the UPDATE behind a mined cash confirmation is never refused, the first time and again |
| ServiceFacts.VerdictsLast | src/application/modules/pollar/settlement.service.ts:191-218 | a payment once settled keeps its backing, and one once refused would be refused again, in every later state |
| ServiceFacts.SentTooLate | src/application/modules/installments/installments.service.ts:140-146 | a confirmation sent for an installment that is proven already is never mined with success |
| ServiceFacts.FirstInQueue | src/application/modules/pollar/settlement.repository.ts:73-84 | a non-empty due queue has an intent of least number |
| Services.Backend.ReadExisting | src/application/modules/pollar/settlement-anchor.service.ts:163-170 | height and proofs are read an await apart; it fails exactly when one of the two requests does; the answer is exactly what the chain held at that block, is the intent's own proof, and finds every proof that was a block deep at the start |
| Services.Backend.SubmitAndWait | src/application/modules/pollar/settlement-anchor.service.ts:185-197 | the answer is settled by the requests and by whether the wait ended with two confirmations; submits exactly one fresh confirmation with the intent's exact contents if the pool is reached; after two confirmations the proof is never missing |
| Services.Backend.Anchor | src/application/modules/pollar/settlement-anchor.service.ts:145-207 | success only with the exact proof a block deep; never another receipt, never its own missing after two confirmations; UNAVAILABLE only behind a failed request; with the proof a block deep nothing is submitted and the stored hash returned; without a mined proof and with the requests answered it submits, once; a deep proof after a failed wait is success |
| Services.Backend.ConfirmOnChain | src/application/modules/pollar/settlement-anchor.service.ts:179-204 | refused as out of sequence exactly when the proof is mined at the check; submits exactly when it is not and the requests are answered; after a failed wait a deep proof is success |
| Services.Backend.RecordAnchor | src/application/modules/pollar/settlement.service.ts:242-249 | closed exactly when anchor succeeded and the update was answered, otherwise postponed by a minute, otherwise unrecorded; a closed intent stores the hash that anchor returned and keeps its own if it returned none |
| Services.Backend.VerifyNow | src/application/modules/pollar/settlement.service.ts:182-191 | answers what verification says of the ledger now, on the frozen terms |
| Services.Backend.Reconcile | src/application/modules/pollar/settlement.service.ts:178-219 | SETTLED only with backing, REJECTED only for a payment that is refused for good and leaves the queue, CONFLICT only with its cause in the rows, no answer only behind a failed request; a payment the ledger confirms is settled, was settled, or conflicts; the one statement sent is named |
| Services.Backend.Create | src/application/modules/pollar/settlement.service.ts:122-165 | hands out one intent per installment; a new one is opened from the rows, the lender's wallet and what was passed, only for a row that was the next one on chain; every error has its reason in the requests, the rows, the chain or the ledger number |
| Services.Backend.Report | src/application/modules/pollar/settlement.service.ts:166-177 | throws exactly when pollar_observe refuses, with the rows that say why, when the payment or its settlement is refused, or behind a failed request; otherwise returns the borrower's intent as it is now, still CREATED only if the ledger did not show the payment, and never if it confirmed it |
| Services.Backend.PickCandidate | src/application/modules/pollar/settlement.repository.ts:40-51 | picks the oldest pending candidate that is due, and none exactly when none is due or the read failed |
| Services.Backend.ReconcileNext | src/application/modules/pollar/settlement.service.ts:230-237 | takes the oldest due candidate, if there is one, postpones it by a minute first; then what reconciling it reports is so |
| Services.Backend.PickAnchor | src/application/modules/pollar/settlement.repository.ts:73-84 | picks a due verified intent of least installment number, and none exactly when none is due or the read failed |
| Services.Backend.AnchorNext | src/application/modules/pollar/settlement.service.ts:238-250 | takes the first due intent, if there is one; closes it, then ANCHORED and proven, or postpones it by a minute; one whose proof was deep is closed when all requests are answered |
| Services.Backend.Tick | src/application/modules/pollar/settlement.service.ts:220-264 | one round per process at a time; the flag is always handed back; without the lease nothing is sent; behind it, with every request answered, the oldest due candidate gets its verdict and the first due intent is recorded; what the round reports still holds when it ends |
| Services.Backend.GenerateOtp | src/application/modules/installments/installments.service.ts:43-72 | a challenge of five minutes is issued exactly for the borrower's own unpaid installment; every refusal has its reason and leaves the stored challenges alone |
| Services.Backend.TakeOtp | src/application/modules/installments/installments.service.ts:107-122 | succeeds exactly for the stored, unexpired, equal code, and then removes it |
| Services.Backend.CollectCash | src/application/modules/installments/installments.service.ts:74-186 | submits at most one confirmation, only for the loan's own lender, only after taking a challenge and only on the cash rail, with this collection's receipt; success means PAID, SYNCED and proven, and a fully paid loan COMPLETED; a refused call leaves the challenge alone before it is its turn, sends its statements in order, and has its reason; never succeeds on the other rail or once the place on chain is taken |
| Services.Backend.CheckAndComplete | src/application/modules/installments/installments.service.ts:194-205 | a loan that was fully paid when the call began is COMPLETED, unless a request failed; a schedule that could not be read is passed over in silence |
| Otp.OneUsePerChallenge | src/application/modules/installments/installments.service.ts:63-122 | in any order of requests each challenge authorises at most one collection |
| EvidenceCache.PutKeepsBound | src/application/modules/pollar/settlement-anchor.service.ts:88-92 | clearing before inserting keeps the cache at 500 entries |
| EvidenceCache.LearnKeeps | src/application/modules/pollar/settlement-anchor.service.ts:65-85 | whatever other calls put together from reads that lie any time apart is sound for the chain now |
| EvidenceCache.EvidenceService.Lookup | src/application/modules/pollar/settlement-anchor.service.ts:55-94 | after any hits, expiries, evictions and stores by concurrent calls, the receipts are a prefix of the loan's present proofs; a hit is served within its time to live; a miss has all that was confirmed when the call began and is kept for five seconds when a request failed and for thirty otherwise |
| EvidenceCache.EvidenceService.Fetch | src/application/modules/pollar/settlement-anchor.service.ts:59-87 | loan, height and proofs are read an await apart; a fresh answer is exactly the receipts at the block read, no older than the confirmed one when the call began; UNAVAILABLE only behind a failed read, NOT_FOUND only for a loan that was not there |
| EvidenceCache.VerifiedFlagIsProven | src/application/modules/pollar/settlement.service.ts:87-93 | hsk_verified is never true without that proof at that place on chain |
| EvidenceCache.FlagIsExact | src/application/modules/pollar/settlement.service.ts:87-93 | an answer with all receipts of a block sets the flag exactly for the proofs at that block |
| Outbox.RunKeeps | src/infrastructure/audit/audit.service.ts:101-150 | over any interleaving of processes that delete only what they were told is recorded, each key is logged at most once, the log only grows, and rows never change their event |
| Outbox.AcceptedIsKept | src/infrastructure/audit/audit.service.ts:75-190 | an accepted key is in the log or the outbox in every later state; once logged it is there exactly once, with the same event |
| Outbox.RowLeavesLogged | src/infrastructure/audit/audit.service.ts:116-142 | a row leaves the outbox only with an event in the log under its key, exactly once: its own one, unless another event was recorded under that key |
| Outbox.RecordedIsLogged | src/infrastructure/audit/audit.service.ts:118-128 | from empty tables, whatever any processes do, a row whose record was answered has an event in the log under its key exactly once: its own one, unless another was recorded under that key |
| Outbox.LogOrigin | src/infrastructure/audit/audit.service.ts:75-150 | nothing stands in the log but what was there and what some statement wrote, entry by entry |
| Outbox.EventOrigin | src/infrastructure/audit/audit.service.ts:75-190 | from empty tables nothing stands in the log or the outbox but events that record() was given, with their payload |
| Outbox.LostExactly | src/infrastructure/audit/audit.service.ts:87-94 | a keyed event is lost exactly when no statement of the call reaches the database and it was not accepted before; a new key that is not lost keeps this very event, in the log or in its row |
| Outbox.LosingRun | src/infrastructure/audit/audit.service.ts:152-190 | three writes and the insert that never arrive leave the store as it was, without the event |
| Outbox.KeyedNeverRepeats | src/infrastructure/supabase/repositories/supabase-audit-log.repository.ts:16-33 | repeating a keyed record changes nothing |
| Outbox.UnkeyedWrites | src/infrastructure/audit/audit.service.ts:152-168 | the direct writes of an unkeyed event leave exactly one copy for each attempt that took effect, up to the first answered one |
| Outbox.UnkeyedMayRepeat | src/infrastructure/audit/audit.service.ts:75-95 | record() of an unkeyed event leaves exactly those copies and, when none was answered and the insert arrived, a row under a fresh key that is logged once more before it goes away |
| Outbox.AuditService.WriteDirectWithRetry | src/infrastructure/audit/audit.service.ts:152-168 | sends at most three upserts of this entry, up to the first answered one, and answers as they were answered; a keyed event stands in the log if any arrived, unless another was logged under its key |
| Outbox.AuditService.EnqueueOutbox | src/infrastructure/audit/audit.service.ts:170-190 | the row holds this payload under its own key or the fresh one; it is refused only for a key that is queued already |
| Outbox.AuditService.Record | src/infrastructure/audit/audit.service.ts:75-95 | sends the attempts and, exactly when none was answered, the insert; a keyed event is accepted afterwards if any of them arrived, and what is logged under its key is this event unless another was recorded under it |
| Outbox.AuditService.Drain | src/infrastructure/audit/audit.service.ts:117-141 | records the row's own event; every deletion comes after an answered record; a row that could not be recorded gets its next attempt number and delay |
| Outbox.AuditService.FlushOutbox | src/infrastructure/audit/audit.service.ts:101-150 | one flush per process, over the oldest fifty due rows if they can be read; nothing accepted is dropped, every row whose record is answered is logged, and the statements sent are each row's own |
| Outbox.BackoffGrows | src/infrastructure/audit/audit.service.ts:192-195 | the delay starts at five seconds, never shrinks, and is five minutes from the fifth failure on |
| Outbox.BackoffTable | src/infrastructure/audit/audit.service.ts:192-195 | five, fifteen, forty-five and one hundred and thirty-five seconds, then always three hundred |
| Outbox.AuditService.SelectDue | src/infrastructure/audit/audit.service.ts:106-111 | the oldest due rows, in order, fifty at most, none left out for a younger one |
| LoanCalculation.SplitIsExact | src/application/modules/loans/loan-calculation.ts:30-37 | the parts sum to the total, are non-increasing and differ by at most a cent |
| LoanCalculation.SplitIsTheOnly | src/application/modules/loans/loan-calculation.ts:30-37 | any such list of parts is this split |
| LoanCalculation.InterestIsHalfUp | src/application/modules/loans/loan-calculation.ts:23-25 | interest is the exact percentage rounded half up |
| LoanCalculation.AcceptedTerms | src/application/modules/loans/loan-calculation.ts:9-39 | terms are accepted exactly up to 999,999,999.99 at 0 to 1000 percent in 1 to 52 installments, with a cent of capital per installment and a total the first installment can carry; and which refusal means what |
| LoanCalculation.PlanIsExact | src/application/modules/loans/loan-calculation.ts:4-46 | every accepted plan sums exactly, is even, and is bounded installment by installment by its single check |
| LoanCalculation.NoPrecisionIsLost | src/application/modules/loans/loan-calculation.ts:23-43 | every integer converted to a number is below 2^53 |
| LoanCalculation.FlatAmountCovers | src/application/modules/loans/loans.service.ts:46-53 | an amount that covers the total over n installments covers every part |
| Schedule.BothPathsCover | src/application/modules/loans/loans.service.ts:41-58 | on both paths each principal is at least a cent and at most the row's amount |
| Schedule.BuildSchedule | src/application/modules/loans/loans.service.ts:38-61 | a schedule exists exactly for terms within the limits, in numbers; it is admissible to the installments table, covers the capital, and has its due dates in order |
| Calendar.ClosedForm | src/application/modules/loans/loan-calculation.ts:56-69 | the closed form of ECMA-262 for the first day of a year counts exactly the leap years in between |
| Calendar.MonthsClosedForm | src/application/modules/loans/loan-calculation.ts:64-69 | the first day of every month in its year as one expression |
| Calendar.MonthLengths | src/application/modules/loans/loan-calculation.ts:66-69 | the length of every month in every year is that of the usual table |
| Calendar.DayNumber | src/application/modules/loans/loan-calculation.ts:56-75 | the day number of any civil date as one expression in year, month and day |
| Calendar.CivilOfDayOf | src/application/modules/loans/loan-calculation.ts:56-75 | a real date survives the trip through its day number |
| Calendar.DayOfCivilOf | src/application/modules/loans/loan-calculation.ts:56-75 | a day number survives the trip through its date, which is real |
| Calendar.CarriedIsLater | src/application/modules/loans/loan-calculation.ts:64-65 | carrying months by division is walking month by month |
| DueDates.OnlyRealDatesPrintBack | src/application/modules/loans/loan-calculation.ts:54-61 | the print-back check accepts exactly the real dates |
| DueDates.UtcDate.SetUTCDate | src/application/modules/loans/loan-calculation.ts:64-73 | the date moves to that day counted from the first of its month |
| DueDates.UtcDate.SetUTCMonth | src/application/modules/loans/loan-calculation.ts:65 | the date moves to that many months later, keeping its day count |
| DueDates.Monthly | src/application/modules/loans/loan-calculation.ts:62-69 | the setters land on the due date, the leap day of the year 0 excepted |
| DueDates.InstallmentDate | src/application/modules/loans/loan-calculation.ts:49-76 | exactly which inputs fail and how, and the text of every other due date |
| DueDates.ResultIsRight | src/application/modules/loans/loan-calculation.ts:62-75 | the text is the due date's exactly up to the year 9999 and off the leap day of the year 0 |
| DueDates.LeapDayIsMissed | src/application/modules/loans/loan-calculation.ts:66-69 | "0000-01-31" monthly, one month on, is due on the 29th of February and printed as the 28th |
| DueDates.DueDatesAreExact | src/application/modules/loans/loan-calculation.ts:62-74 | fixed steps are exactly 1, 7 or 14 days times the index; monthly is exactly the index-th following month on the start day or the month's last in the usual table of months |
| DueDates.DueDatesIncrease | src/application/modules/loans/loans.service.ts:54-58 | schedules are real dates in strictly increasing order from the start date |
| Lri.ScoreInRange | src/core/services/lri-calculator.service.ts:59-62 | the score lies between 0 and 100 for all inputs |
| Lri.ScoreIsExact | src/core/services/lri-calculator.service.ts:34-79 | the score in whole numbers: half the punctual share, three tenths of the completed loans out of three, a fifth of the repaid share, to the nearest tenth; both rates to the nearest thousandth |
| Lri.GradeBounds | src/core/services/lri-calculator.service.ts:64-74 | the grades begin exactly at ninety, seventy-five, sixty and forty points |
| Lri.NoHistoryScoresZero | src/core/services/lri-calculator.service.ts:34-41 | without history the score is 0 and the grade INSUFFICIENT |
| Lri.BetterTotals | src/core/services/lri-calculator.service.ts:25-83 | one more payment on time never lowers score or grade |
| Lri.PayingOnTimeNeverHurts | src/core/services/lri-calculator.service.ts:25-83 | turning any unpaid installment of any loan into an on-time PAID one, completing the loan or not, never lowers score or grade |
| Lri.PayingLateHurtsWhen | src/core/services/lri-calculator.service.ts:34-62 | on any loans a late payment lowers the punctuality share exactly when some payment was on time, and the raw score exactly when that loss outweighs the gain in completed loans and repaid capital |
| Lri.PayingLateMayHurt | src/core/services/lri-calculator.service.ts:34-83 | on two concrete loans a payment late by any time costs two grades |
| Lri.OnTimeAsDocumented | src/application/modules/borrower/borrower.service.ts:92-97 | the code's test agrees with "on the due date or before" exactly for payments not made on the due day after 00:00 UTC, and is never more generous |
| Lri.NoonOfTheDueDay | src/application/modules/borrower/borrower.service.ts:92-97 | a payment at noon of the due day counts as late and costs two grades |
| Lri.GetPassport | src/application/modules/borrower/borrower.service.ts:75-108 | the loop's score is the index of the borrower's gathered totals, in range |
| Lri.GetSummary | src/application/modules/passports/passports.service.ts:48-90 | the same score from the second loop, with the exact count of late installments, each by the clock as it was read for it |
| Lri.LateCountGrows | src/application/modules/passports/passports.service.ts:75-81 | the count lies between what the first and the last reading of the clock would give |
| Lri.LateIsUnpunctualOrOverdue | src/application/modules/passports/passports.service.ts:60-81 | the count is the payments that were not on time and the open installments that are overdue or past due |
| Lri.CountsOneByOne | src/application/modules/borrower/borrower.service.ts:86-100 | each PAID row counts once, with its amount, and as punctual exactly when it was paid by its due instant |
| Lri.GetAuditDossier | src/application/modules/passports/passports.service.ts:200-254 | the same score from the third loop, with exactly the specified lines, each by the chain as it was read for its loan |
| Lri.DossierHolds | src/application/modules/passports/passports.service.ts:212-243 | however far apart the loans were read, every line marked verified holds of the chain at the end |
| Lri.DossierCount | src/application/modules/passports/passports.service.ts:218-244 | the dossier has one line for each paid installment |
| Lri.VerifiedLine | src/application/modules/passports/passports.service.ts:229-243 | every field of a line: number, rail, Stellar hash, payment date, the time of the proof in its place, the receipt; verified exactly when the chain holds this number with this receipt |

## Left out

- Controllers, guards, DTO validation, authentication, roles, profiles, RLS and permissions, Unlock membership, lender analytics.
- `SyncService`: it takes loan id and installment number from the request without tying them to the installment, so no claim is made for its retries; its completion check also treats a failed read of the schedule as fully paid.
- HTTP, RPC and Supabase transport beyond success, failure, and a lost reply; timeouts are failures at any moment.
- READ COMMITTED anomalies: each SQL function, and each single UPDATE of a service, is one atomic step; the locks of the functions are not modelled.
- The worker lease and its two minutes, which safety does not need, and any promise that a queued item is eventually handled.
- Legacy EVM Pollar rows (pollar_chain_id), the format checks on hashes and addresses, and columns no property needs (principal and due date inside the protocol rows, error codes, creation times).
- Contract events, `getBorrowerLoanCount`, the audit listener and its cursor.
- Cryptography: hashing is injective, encryption and signatures do not appear.
- IEEE double rounding: money is in integer cents, inputs and the index are reals, NaN and infinities do not occur.
- Loans entered PENDING or DEFAULTED, deletion of loans, and reassignment of rows by hand: no modelled code does these.
- Services.Backend.Create: the configuration, chain id and address format checks that precede the SQL call are assumed to pass.
