/** What can still happen: explicit continuations that settle and anchor an intent from any reachable state. */
module ProgressTheorems {
  import opened Wrappers
  import opened Values
  import R = Registry
  import opened SettlementDb
  import opened SettlementDbProofs
  import Decimal
  import Stellar
  import opened Protocol
  import opened ProtocolProofs
  import opened ProtocolTheorems
  import opened RailTheorems
  import SettlementTheorems

  // ---------- anchoring

  /** What anchor() and the worker around it do when nothing fails, with tx the transaction they would send. */
  ghost function AnchoringRun(s: State, i: Uuid, tx: HskTx): seq<Event>
    requires i in s.db.intents
  {
    var r := s.db.intents[i];
    if ProvenOn(s.registry, r)
    then [ReadQueue(i)] + [NextBlock, SeeProof(r), CloseIntent(i, r.hskTxHash)]
    else [ReadQueue(i), SubmitAnchor(tx, r), Mine(tx, 1)] + [NextBlock, SeeProof(r), CloseIntent(i, Some(tx))]
  }

  /** From every reachable state a settled intent can be ANCHORED with its proof, whatever happened before. */
  lemma {:induction false} SettledCanBeAnchored(s: State, i: Uuid, tx: HskTx)
    requires Reachable(s) && i in s.db.intents && s.db.intents[i].status == VERIFIED && tx !in s.txs
    ensures var t := Run(s, AnchoringRun(s, i, tx));
            && i in t.db.intents && t.db.intents[i].terms == s.db.intents[i].terms
            && t.db.intents[i].status == ANCHORED && ProvenOn(t.registry, t.db.intents[i])
            && (ProvenOn(s.registry, s.db.intents[i]) ==> t.txs == s.txs)
  {
    ReachableIsSound(s);
    if ProvenOn(s.registry, s.db.intents[i]) {
      ReadingIsEnough(s, i);
    } else {
      SendingIsEnough(s, i, tx);
    }
  }

  lemma ReadingIsEnough(s: State, i: Uuid)
    requires Inv(s) && i in s.db.intents && s.db.intents[i].status == VERIFIED && ProvenOn(s.registry, s.db.intents[i])
    ensures var r := s.db.intents[i];
            var t := Run(s, [ReadQueue(i)] + [NextBlock, SeeProof(r), CloseIntent(i, r.hskTxHash)]);
            && i in t.db.intents && t.db.intents[i].terms == r.terms && t.db.intents[i].status == ANCHORED
            && ProvenOn(t.registry, t.db.intents[i]) && t.txs == s.txs
  {
    var r := s.db.intents[i];
    RunConcat(s, [ReadQueue(i)], [NextBlock, SeeProof(r), CloseIntent(i, r.hskTxHash)]);
    RunKeeps(s, [ReadQueue(i)]);
    ReadNow(s, i);
    ReadThenClose(Run(s, [ReadQueue(i)]), i, r.hskTxHash);
  }

  lemma ReadNow(s: State, i: Uuid)
    requires i in s.db.intents && s.db.intents[i].status == VERIFIED
    ensures Run(s, [ReadQueue(i)]) == s.(snapshots := s.snapshots + {s.db.intents[i]})
  {
    OneStep(s, ReadQueue(i));
  }

  lemma SendingIsEnough(s: State, i: Uuid, tx: HskTx)
    requires Reachable(s) && i in s.db.intents && s.db.intents[i].status == VERIFIED && tx !in s.txs
    requires !ProvenOn(s.registry, s.db.intents[i])
    ensures var r := s.db.intents[i];
            var t := Run(s, [ReadQueue(i), SubmitAnchor(tx, r), Mine(tx, 1)]
                            + [NextBlock, SeeProof(r), CloseIntent(i, Some(tx))]);
            && i in t.db.intents && t.db.intents[i].terms == r.terms && t.db.intents[i].status == ANCHORED
            && ProvenOn(t.registry, t.db.intents[i])
  {
    var r := s.db.intents[i];
    var sending := [ReadQueue(i), SubmitAnchor(tx, r), Mine(tx, 1)];
    RunConcat(s, sending, [NextBlock, SeeProof(r), CloseIntent(i, Some(tx))]);
    ReachableIsSound(s);
    RunKeeps(s, sending);
    SendAndMine(s, i, tx);
    ReadThenClose(Run(s, sending), i, Some(tx));
  }

  /** A block later the proof is read and the intent closed. */
  lemma ReadThenClose(s: State, i: Uuid, hskTx: Option<HskTx>)
    requires Inv(s) && i in s.db.intents && s.db.intents[i].status == VERIFIED
    requires s.db.intents[i] in s.snapshots && ProvenOn(s.registry, s.db.intents[i])
    ensures var r := s.db.intents[i];
            var t := Run(s, [NextBlock, SeeProof(r), CloseIntent(i, hskTx)]);
            && i in t.db.intents && t.db.intents[i].terms == r.terms && t.db.intents[i].status == ANCHORED
            && ProvenOn(t.registry, t.db.intents[i]) && t.txs == s.txs
  {
    var r := s.db.intents[i];
    ThreeSteps(s, NextBlock, SeeProof(r), CloseIntent(i, hskTx));
    StepKeeps(s, NextBlock);
    assert IntentInv(s.db, i);
    OwnProofIsFound(Step(s, NextBlock), r);
    SeenNow(Step(s, NextBlock), r);
    ClosedNow(Step(Step(s, NextBlock), SeeProof(r)), i, hskTx);
  }

  lemma SeenNow(s: State, r: Intent)
    requires r in s.snapshots
    requires var found := R.FindProof(R.ProofsAt(s.previous, r.terms.hskLoanId), r.terms.number);
             found.Some? && Matches(found.value, r)
    ensures Step(s, SeeProof(r)) == s.(seen := s.seen + {r.terms.id})
  {
  }

  lemma ClosedNow(s: State, i: Uuid, hskTx: Option<HskTx>)
    requires i in s.seen && i in s.db.intents && s.db.intents[i].status == VERIFIED
    ensures var r, t := s.db.intents[i], Step(s, CloseIntent(i, hskTx));
            && t.registry == s.registry && t.txs == s.txs
            && i in t.db.intents && t.db.intents[i].terms == r.terms && t.db.intents[i].status == ANCHORED
            && t.db.intents[i].receiptHash == r.receiptHash && t.db.intents[i].txHash == r.txHash
  {
  }

  /** The contract accepts the confirmation of a settled intent that is not proven yet. */
  lemma SendAndMine(s: State, i: Uuid, tx: HskTx)
    requires Reachable(s) && i in s.db.intents && s.db.intents[i].status == VERIFIED && tx !in s.txs
    requires !ProvenOn(s.registry, s.db.intents[i])
    ensures var r := s.db.intents[i];
            var t := Run(s, [ReadQueue(i), SubmitAnchor(tx, r), Mine(tx, 1)]);
            t.db == s.db && r in t.snapshots && ProvenOn(t.registry, r)
  {
    var r := s.db.intents[i];
    AnchoringNeverWedges(s, i, 1);
    ThreeSteps(s, ReadQueue(i), SubmitAnchor(tx, r), Mine(tx, 1));
    ReachableIsSound(s);
    assert IntentInv(s.db, i);
    Sent(s, r, tx);
    MinedNow(Step(Step(s, ReadQueue(i)), SubmitAnchor(tx, r)), r, tx);
  }

  /** The transaction sent for an intent. */
  function SubmissionOf(r: Intent): Submission
    requires r.terms.number < 0x1_0000 && r.receiptHash.Some? && r.txHash.Some?
  {
    Submission(r.terms.installmentId, r.terms.hskLoanId, r.terms.number, r.receiptHash.value, true,
               ExternalHash(r.txHash.value), IN_POOL)
  }

  lemma Sent(s: State, r: Intent, tx: HskTx)
    requires r.terms.id in s.db.intents && s.db.intents[r.terms.id] == r && r.status == VERIFIED && tx !in s.txs
    requires r.terms.number < 0x1_0000 && r.receiptHash.Some? && r.txHash.Some?
    ensures Step(Step(s, ReadQueue(r.terms.id)), SubmitAnchor(tx, r)) ==
      s.(snapshots := s.snapshots + {r}, txs := s.txs[tx := SubmissionOf(r)])
  {
  }

  lemma MinedNow(s: State, r: Intent, tx: HskTx)
    requires R.Valid(s.registry) && r.terms.number < 0x1_0000 && r.receiptHash.Some? && r.txHash.Some?
    requires tx in s.txs && s.txs[tx] == SubmissionOf(r)
    requires R.Confirm(s.registry, OPERATOR, 1, r.terms.hskLoanId, r.terms.number, r.receiptHash.value, true,
                       ExternalHash(r.txHash.value)).Success?
    ensures var t := Step(s, Mine(tx, 1)); t.db == s.db && t.snapshots == s.snapshots && ProvenOn(t.registry, r)
  {
    R.ConfirmAppends(s.registry, OPERATOR, 1, r.terms.hskLoanId, r.terms.number, r.receiptHash.value, true,
      ExternalHash(r.txHash.value));
  }

  // ---------- settling

  /** A ledger transaction with the one transfer an intent asks for. */
  function PaymentFor(t: Terms, hash: StellarHash, ledger: int, at: Instant): LedgerEntry {
    LedgerEntry(
      Stellar.Transaction(hash, true, at, ledger),
      [Stellar.Payment("payment", true, hash, t.sender, t.recipient, "credit_alphanum4", "USDC", t.issuer,
                       Decimal.PrintHorizon(t.amount * 100_000))])
  }

  /** The borrower pays and reports the payment, and the server settles it. */
  function SettlingRun(t: Terms, hash: StellarHash, ledger: int, at: Instant, now: Instant): seq<Event> {
    [LedgerClose(hash, PaymentFor(t, hash, ledger, at)), Report(t.id, t.borrowerId, hash, now)]
    + [VerifyPayment(t.id, hash), SettlePayment(t.id, hash, at)]
  }

  lemma PaymentIsConfirmed(t: Terms, hash: StellarHash, ledger: int, at: Instant)
    requires 0 < t.amount < INTENT_AMOUNT_LIMIT && 0 < t.minLedger < ledger <= Stellar.MAX_SAFE
    ensures VerifyEntry(t, hash, Some(PaymentFor(t, hash, ledger, at))) == Stellar.CONFIRMED(at)
  {
    var e := PaymentFor(t, hash, ledger, at);
    Decimal.PrintedCentsParse(t.amount);
    Decimal.HorizonParses(t.amount * 100_000);
    assert Stellar.PaidAt(e.ops, hash, RouteOf(t), t.amount * 100_000, 0);
    Stellar.VerifyIsExact(Decimal.PrintCents(t.amount), hash, RouteOf(t), t.minLedger, Some(e.tx), Some(e.ops));
  }

  /** No other installment holds the receipt of an intent. */
  lemma PollarReceiptIsFree(s: State, i: Uuid, hash: StellarHash)
    requires Reachable(s) && i in s.db.intents
    ensures var t := s.db.intents[i].terms; !ReceiptTaken(s.db.installments, t.installmentId, ReceiptOf(t, hash))
  {
    ReachableIsSound(s);
    var t := s.db.intents[i].terms;
    assert IntentInv(s.db, i);
    forall y | y in s.db.installments && y != t.installmentId
      ensures s.db.installments[y].receiptHash != Some(ReceiptOf(t, hash))
    {
      assert RowInv(s.db, y);
      if s.db.installments[y].status == PAID { ReceiptsAreOwn(s, y); }
    }
  }

  lemma HashIsFree(s: State, i: Uuid, hash: StellarHash)
    requires Inv(s) && hash !in s.ledger
    ensures !TxTaken(s.db.intents, i, hash)
  {
    forall j | j in s.db.intents ensures s.db.intents[j].txHash != Some(hash) { assert IntentBacked(s, j); }
  }

  /** From every reachable state an open intent can be settled by a new payment, unless five reports are pending. */
  lemma {:induction false} OpenCanBeSettled(
      s: State, i: Uuid, hash: StellarHash, ledger: int, at: Instant, now: Instant)
    requires Reachable(s) && i in s.db.intents && s.db.intents[i].status == CREATED
    requires hash !in s.ledger && (i, hash) !in s.db.candidates && |PendingFor(s.db.candidates, i)| < MAX_PENDING
    requires s.db.intents[i].terms.minLedger < ledger <= Stellar.MAX_SAFE
    ensures var r := s.db.intents[i];
            var t := Run(s, SettlingRun(r.terms, hash, ledger, at, now));
            && i in t.db.intents && t.db.intents[i].terms == r.terms
            && t.db.intents[i].status == VERIFIED && t.db.intents[i].txHash == Some(hash) && t.txs == s.txs
  {
    ReachableIsSound(s);
    assert IntentInv(s.db, i) && RowInv(s.db, s.db.intents[i].terms.installmentId);
    PollarReceiptIsFree(s, i, hash);
    HashIsFree(s, i, hash);
    PaymentSettles(s, i, hash, ledger, at, now);
  }

  /** Nothing recorded so far is in the way of settling intent i with this hash. */
  predicate Settleable(s: State, i: Uuid, hash: StellarHash) {
    && i in s.db.intents && s.db.intents[i].status == CREATED && s.db.intents[i].terms.id == i
    && !TxTaken(s.db.intents, i, hash)
    && var x := s.db.intents[i].terms.installmentId;
       && x in s.db.installments && s.db.installments[x].status != PAID && s.db.installments[x].rail == Some(POLLAR)
       && !ReceiptTaken(s.db.installments, x, ReceiptOf(s.db.intents[i].terms, hash))
  }

  lemma PaymentSettles(s: State, i: Uuid, hash: StellarHash, ledger: int, at: Instant, now: Instant)
    requires Settleable(s, i, hash) && IntentOk(s.db.intents[i])
    requires hash !in s.ledger && (i, hash) !in s.db.candidates && |PendingFor(s.db.candidates, i)| < MAX_PENDING
    requires s.db.intents[i].terms.minLedger < ledger <= Stellar.MAX_SAFE
    ensures var r := s.db.intents[i];
            var t := Run(s, SettlingRun(r.terms, hash, ledger, at, now));
            && i in t.db.intents && t.db.intents[i].terms == r.terms
            && t.db.intents[i].status == VERIFIED && t.db.intents[i].txHash == Some(hash) && t.txs == s.txs
  {
    var t := s.db.intents[i].terms;
    var entry := PaymentFor(t, hash, ledger, at);
    PaymentIsConfirmed(t, hash, ledger, at);
    RunConcat(s, [LedgerClose(hash, entry), Report(i, t.borrowerId, hash, now)],
      [VerifyPayment(i, hash), SettlePayment(i, hash, at)]);
    TwoSteps(s, LedgerClose(hash, entry), Report(i, t.borrowerId, hash, now));
    ReportedNow(s, i, hash, entry, now);
    var b := s.(ledger := s.ledger[hash := entry],
                db := s.db.(candidates := s.db.candidates[(i, hash) := Candidate(CANDIDATE_PENDING, now, now)]));
    TwoSteps(b, VerifyPayment(i, hash), SettlePayment(i, hash, at));
    SettledNow(b, i, hash, entry);
  }

  lemma ReportedNow(s: State, i: Uuid, hash: StellarHash, entry: LedgerEntry, now: Instant)
    requires i in s.db.intents && s.db.intents[i].status == CREATED && hash !in s.ledger && entry.tx.hash == hash
    requires (i, hash) !in s.db.candidates && |PendingFor(s.db.candidates, i)| < MAX_PENDING
    ensures Step(Step(s, LedgerClose(hash, entry)), Report(i, s.db.intents[i].terms.borrowerId, hash, now)) ==
      s.(ledger := s.ledger[hash := entry],
         db := s.db.(candidates := s.db.candidates[(i, hash) := Candidate(CANDIDATE_PENDING, now, now)]))
  {
  }

  lemma SettledNow(s: State, i: Uuid, hash: StellarHash, entry: LedgerEntry)
    requires Settleable(s, i, hash) && hash in s.ledger && s.ledger[hash] == entry
    requires VerifyEntry(s.db.intents[i].terms, hash, Some(entry)) == Stellar.CONFIRMED(entry.tx.createdAt)
    requires (i, hash) in s.db.candidates && s.db.candidates[(i, hash)].status == CANDIDATE_PENDING
    ensures var r := s.db.intents[i];
            var t := Step(Step(s, VerifyPayment(i, hash)), SettlePayment(i, hash, entry.tx.createdAt));
            && i in t.db.intents && t.db.intents[i].terms == r.terms
            && t.db.intents[i].status == VERIFIED && t.db.intents[i].txHash == Some(hash) && t.txs == s.txs
  {
    var at := entry.tx.createdAt;
    var v := Step(s, VerifyPayment(i, hash));
    assert v == s.(verified := s.verified + {(i, hash, at)});
    assert Settle(v.db, i, hash, ReceiptOf(s.db.intents[i].terms, hash), at).Success?;
  }

  // ---------- a whole run on the POLLAR rail

  const POLLAR_LOAN: Loan := Loan(7, 20, 21, USDC, true, 1, LOAN_ACTIVE, None)

  /** The state right after the borrower of a new loan asked for an intent. */
  lemma IntentOpens()
    ensures exists s :: && Reachable(s) && 40 in s.db.intents && s.db.intents[40].status == CREATED
                        && s.db.intents[40].terms.minLedger == 1
                        && s.ledger == map[] && s.txs == map[] && s.db.candidates == map[]
  {
    var opening := [ContractCall(R.RegisterCall(OPERATOR, 1, 7, ZeroHash, 3, 1)), InsertLoanRow(10, POLLAR_LOAN),
      InsertScheduleRows(10, [11], [SettlementTheorems.FIRST_ROW])];
    SettlementTheorems.LoanOpens(POLLAR_LOAN);
    var s := SettlementTheorems.Opened(POLLAR_LOAN);
    assert Reachable(s);
    StepIsReachable(s, SetWallet(20, 31));
    StepIsReachable(Step(s, SetWallet(20, 31)), Create(40, 11, 21, 30, 32, 1, 0));
    IntentOpened(s);
  }

  lemma IntentOpened(s: State)
    requires s == SettlementTheorems.Opened(POLLAR_LOAN)
    ensures var t := Step(Step(s, SetWallet(20, 31)), Create(40, 11, 21, 30, 32, 1, 0));
            && 40 in t.db.intents && t.db.intents[40].status == CREATED && t.db.intents[40].terms.minLedger == 1
            && t.ledger == map[] && t.txs == map[] && t.db.candidates == map[]
  {
    assert Step(s, SetWallet(20, 31)).db.routes == map[20 := 31];
    FirstIntent(Step(s, SetWallet(20, 31)).db);
  }

  lemma FirstIntent(db: Database)
    requires db == EMPTY.(loans := map[10 := POLLAR_LOAN], installments := map[11 := SettlementTheorems.FIRST_ROW],
                          routes := map[20 := 31])
    ensures var r := CreateIntent(db, 40, 11, 21, 30, 32, 1, CONTRACT, 0);
            && r.Success? && 40 in r.value.intents && r.value.intents[40].status == CREATED
            && r.value.intents[40].terms.minLedger == 1 && r.value.candidates == map[]
  {
    assert EarlierSynced(db.installments, 10, 1);
  }

  /** The whole way: a loan is opened, paid and settled, and its intent anchored. */
  lemma AnchoredIsReachable()
    ensures exists s, i :: Reachable(s) && i in s.db.intents && s.db.intents[i].status == ANCHORED
  {
    IntentOpens();
    var s :| Reachable(s) && 40 in s.db.intents && s.db.intents[40].status == CREATED
             && s.db.intents[40].terms.minLedger == 1 && s.ledger == map[] && s.txs == map[]
             && s.db.candidates == map[];
    assert PendingFor(s.db.candidates, 40) == {};
    OpenCanBeSettled(s, 40, 60, 2, 5, 6);
    var settling := SettlingRun(s.db.intents[40].terms, 60, 2, 5, 6);
    RunIsReachable(s, settling);
    var t := Run(s, settling);
    SettledCanBeAnchored(t, 40, 50);
    RunIsReachable(t, AnchoringRun(t, 40, 50));
  }
}
