/** Which steps pay an installment, which complete a loan, and what a crash on the cash rail leaves behind. */
module RailTheorems {
  import opened Wrappers
  import opened Values
  import R = Registry
  import opened SettlementDb
  import opened SettlementDbProofs
  import opened Protocol
  import opened ProtocolProofs
  import opened ProtocolTheorems
  import SettlementTheorems

  // ---------- payment

  predicate Unpaid(db: Database, x: Uuid) {
    x in db.installments && db.installments[x].status != PAID
  }

  /**
   The two statements that mark installment x: pollar_settle of its intent, and the UPDATE behind its own mined
   confirmation.
   */
  predicate Pays(s: State, e: Event, x: Uuid) {
    match e
    case SettlePayment(id, hash, paidAt) =>
      && (id, hash, paidAt) in s.verified && id in s.db.intents && s.db.intents[id].terms.installmentId == x
      && Settle(s.db, id, hash, ReceiptOf(s.db.intents[id].terms, hash), paidAt).Success?
    case PayCash(tx, at) =>
      && tx in s.txs && s.txs[tx].outcome == SUCCEEDED && !s.txs[tx].digital && s.txs[tx].origin == x
      && MarkCashPaid(s.db, x, s.txs[tx].receipt, at).Success?
    case _ => false
  }

  /** Nothing else ever pays an installment, and each of the two only on its own rail. */
  lemma OnlyTwoStepsPay(s: State, e: Event, x: Uuid)
    requires Reachable(s) && Unpaid(s.db, x)
    ensures !Unpaid(Step(s, e).db, x) <==> Pays(s, e, x)
    ensures Pays(s, e, x) ==> s.db.installments[x].rail == Some(if e.SettlePayment? then POLLAR else CASH)
  {
    ReachableIsSound(s);
    if e.PayCash? { assert TxAt(s, e.tx); }
    PayingSteps(s, e, x);
  }

  lemma PayingSteps(s: State, e: Event, x: Uuid)
    requires Valid(s.db) && Unpaid(s.db, x) && (e.PayCash? ==> TxAt(s, e.tx))
    ensures !Unpaid(Step(s, e).db, x) <==> Pays(s, e, x)
    ensures Pays(s, e, x) ==> s.db.installments[x].rail == Some(if e.SettlePayment? then POLLAR else CASH)
  {
    match e
    case SettlePayment(id, hash, paidAt) => SettlementPays(s, id, hash, paidAt, x);
    case PayCash(tx, at) => CashPays(s, tx, at, x);
    case InsertScheduleRows(loanId, ids, rows) => ScheduleKeepsRows(s.db, loanId, ids, rows, x);
    case CloseIntent(id, hskTx) => MarkKeepsUnpaid(s.db, id, hskTx, x);
    case _ => OthersPayNothing(s, e, x);
  }

  lemma SettlementPays(s: State, id: Uuid, hash: StellarHash, paidAt: Instant, x: Uuid)
    requires Valid(s.db) && Unpaid(s.db, x)
    ensures !Unpaid(Step(s, SettlePayment(id, hash, paidAt)).db, x) <==> Pays(s, SettlePayment(id, hash, paidAt), x)
    ensures Pays(s, SettlePayment(id, hash, paidAt), x) ==> s.db.installments[x].rail == Some(POLLAR)
  {
    assert IntentInv(s.db, id) && RowInv(s.db, x);
  }

  lemma CashPays(s: State, tx: HskTx, at: Instant, x: Uuid)
    requires TxAt(s, tx) && Unpaid(s.db, x)
    ensures !Unpaid(Step(s, PayCash(tx, at)).db, x) <==> Pays(s, PayCash(tx, at), x)
    ensures Pays(s, PayCash(tx, at), x) ==> s.db.installments[x].rail == Some(CASH)
  {
  }

  lemma ScheduleKeepsRows(db: Database, loanId: Uuid, ids: seq<Uuid>, rows: seq<Installment>, x: Uuid)
    requires Unpaid(db, x)
    ensures InsertSchedule(db, loanId, ids, rows).Success? ==> Unpaid(InsertSchedule(db, loanId, ids, rows).value, x)
  {
  }

  lemma MarkKeepsUnpaid(db: Database, id: Uuid, hskTx: Option<HskTx>, x: Uuid)
    requires Unpaid(db, x)
    ensures MarkAnchored(db, id, hskTx).Success? ==> Unpaid(MarkAnchored(db, id, hskTx).value, x)
  {
  }

  lemma OthersPayNothing(s: State, e: Event, x: Uuid)
    requires Unpaid(s.db, x)
    requires !e.SettlePayment? && !e.PayCash? && !e.InsertScheduleRows? && !e.CloseIntent?
    ensures Unpaid(Step(s, e).db, x)
  {
  }

  // ---------- completion

  predicate Closed(db: Database, l: Uuid) {
    l in db.loans && db.loans[l].status == LOAN_COMPLETED
  }

  /**
   The step that pays a loan's last installment completes the loan exactly when that installment is on the POLLAR rail.
   */
  lemma LastPaymentCompletes(s: State, e: Event, l: Uuid, x: Uuid)
    requires Reachable(s) && Unpaid(s.db, x) && s.db.installments[x].loanId == l && PaidUp(Step(s, e).db, l)
    ensures Closed(Step(s, e).db, l) <==> s.db.installments[x].rail == Some(POLLAR)
    ensures Closed(Step(s, e).db, l) <==> e.SettlePayment?
  {
    ReachableIsSound(s);
    LastPayment(s, e, l, x);
  }

  lemma LastPayment(s: State, e: Event, l: Uuid, x: Uuid)
    requires Inv(s) && Unpaid(s.db, x) && s.db.installments[x].loanId == l && PaidUp(Step(s, e).db, l)
    ensures Closed(Step(s, e).db, l) <==> s.db.installments[x].rail == Some(POLLAR)
    ensures Closed(Step(s, e).db, l) <==> e.SettlePayment?
  {
    StepKeeps(s, e);
    assert RowGrows(s.db, Step(s, e).db, x);
    if e.PayCash? { assert TxAt(s, e.tx); }
    PayingSteps(s, e, x);
    if e.SettlePayment? {
      SettledLoanCloses(s, e.id, e.hash, e.paidAt, l, x);
    } else {
      CashLeavesOpen(s, e.tx, e.at, l, x);
    }
  }

  lemma SettledLoanCloses(s: State, id: Uuid, hash: StellarHash, paidAt: Instant, l: Uuid, x: Uuid)
    requires Valid(s.db) && Unpaid(s.db, x) && s.db.installments[x].loanId == l
    requires Pays(s, SettlePayment(id, hash, paidAt), x) && PaidUp(Step(s, SettlePayment(id, hash, paidAt)).db, l)
    ensures Closed(Step(s, SettlePayment(id, hash, paidAt)).db, l)
  {
    assert IntentInv(s.db, id) && RowInv(s.db, x);
  }

  lemma CashLeavesOpen(s: State, tx: HskTx, at: Instant, l: Uuid, x: Uuid)
    requires Valid(s.db) && Unpaid(s.db, x) && s.db.installments[x].loanId == l
    ensures !Closed(Step(s, PayCash(tx, at)).db, l)
  {
    assert LoanInv(s.db, l);
  }

  /**
   A fully paid loan that is still open is completed by the write of a completion check that saw it paid, and by
   nothing else.
   */
  lemma OnlyCheckCloses(s: State, e: Event, l: Uuid)
    requires Reachable(s) && PaidUp(s.db, l) && !Closed(s.db, l)
    ensures Closed(Step(s, e).db, l) <==> e.CloseLoan? && e.loanId == l && l in s.sawPaid
  {
    ReachableIsSound(s);
    CheckCloses(s, e, l);
  }

  lemma CheckCloses(s: State, e: Event, l: Uuid)
    requires Inv(s) && PaidUp(s.db, l) && !Closed(s.db, l)
    ensures Closed(Step(s, e).db, l) <==> e.CloseLoan? && e.loanId == l && l in s.sawPaid
  {
    assert SawPaidAt(s, l);
    match e
    case SettlePayment(id, hash, paidAt) => SettleKeepsOpen(s, id, hash, paidAt, l);
    case CloseLoan(loanId, at) =>
    case _ => OthersKeepOpen(s, e, l);
  }

  /** What is still to be settled belongs to another loan. */
  lemma SettleKeepsOpen(s: State, id: Uuid, hash: StellarHash, paidAt: Instant, l: Uuid)
    requires Valid(s.db) && AllPaid(s.db.installments, l) && !Closed(s.db, l)
    ensures !Closed(Step(s, SettlePayment(id, hash, paidAt)).db, l)
  {
    assert IntentInv(s.db, id);
    if id in s.db.intents { assert RowInv(s.db, s.db.intents[id].terms.installmentId); }
  }

  lemma OthersKeepOpen(s: State, e: Event, l: Uuid)
    requires !Closed(s.db, l) && !e.SettlePayment? && !e.CloseLoan?
    ensures !Closed(Step(s, e).db, l)
  {
  }

  /** Nothing that happens later makes a fully paid loan less than fully paid. */
  lemma PaidUpLasts(s: State, t: State, l: Uuid)
    requires Inv(s) && Inv(t) && Follows(s, t) && PaidUp(s.db, l)
    ensures PaidUp(t.db, l)
  {
    var x :| x in s.db.installments && s.db.installments[x].loanId == l;
    assert RowInv(s.db, x) && RowGrows(s.db, t.db, x) && LoanGrows(s.db, t.db, l);
    forall y | y in t.db.installments && t.db.installments[y].loanId == l ensures t.db.installments[y].status == PAID {
      RowWasThere(s, t, l, y);
    }
  }

  /** A scheduled loan gets no further installments. */
  lemma RowWasThere(s: State, t: State, l: Uuid, y: Uuid)
    requires Inv(s) && Valid(t.db) && Grows(s.db, t.db) && l in s.db.loans && Scheduled(s.db.installments, l)
    requires y in t.db.installments && t.db.installments[y].loanId == l
    ensures y in s.db.installments && s.db.installments[y].loanId == l
      && Later(s.db.installments[y], t.db.installments[y])
  {
    assert RowInv(t.db, y) && LoanGrows(s.db, t.db, l);
    var k := t.db.installments[y].number;
    assert Covered(s, l, k);
    var z :| z in s.db.installments && s.db.installments[z].loanId == l && s.db.installments[z].number == k;
    assert RowGrows(s.db, t.db, z) && RowPair(t.db, y, z);
  }

  /** The k-th step is the write of a completion check that saw the loan paid. */
  predicate ChecksAt(s: State, later: seq<Event>, l: Uuid, k: nat)
    requires k < |later|
  {
    later[k].CloseLoan? && later[k].loanId == l && l in Run(s, later[..k]).sawPaid
  }

  predicate Checked(s: State, later: seq<Event>, l: Uuid) {
    exists k: nat | k < |later| :: ChecksAt(s, later, l, k)
  }

  lemma {:induction false} CheckedLater(s: State, later: seq<Event>, l: Uuid)
    requires later != []
    ensures Checked(s, later, l) <==>
      (later[0].CloseLoan? && later[0].loanId == l && l in s.sawPaid) || Checked(Step(s, later[0]), later[1..], l)
  {
    assert later[..0] == [] && Run(s, []) == s;
    assert ChecksAt(s, later, l, 0) <==> later[0].CloseLoan? && later[0].loanId == l && l in s.sawPaid;
    forall k: nat | 0 < k < |later| ensures ChecksAt(s, later, l, k) <==>
        ChecksAt(Step(s, later[0]), later[1..], l, k - 1) {
      assert later[..k][1..] == later[1..][..k - 1];
    }
    if k: nat :| k < |later[1..]| && ChecksAt(Step(s, later[0]), later[1..], l, k) {
      assert ChecksAt(s, later, l, k + 1);
    }
  }

  lemma {:induction false} ClosedWhenChecked(s: State, later: seq<Event>, l: Uuid)
    requires Inv(s) && PaidUp(s.db, l) && !Closed(s.db, l)
    ensures Closed(Run(s, later).db, l) <==> Checked(s, later, l)
    decreases |later|
  {
    if later != [] {
      var t := Step(s, later[0]);
      StepKeeps(s, later[0]);
      CheckCloses(s, later[0], l);
      CheckedLater(s, later, l);
      PaidUpLasts(s, t, l);
      if Closed(t.db, l) {
        RunKeeps(t, later[1..]);
        assert LoanGrows(t.db, Run(t, later[1..]).db, l);
      } else {
        ClosedWhenChecked(t, later[1..], l);
      }
    }
  }

  /**
   When a loan is COMPLETED, exactly: x is the last unpaid installment, e the step that pays it, `later` whatever
   follows. The loan ends up COMPLETED if and only if x is on the POLLAR rail, which can be read beforehand, or some
   completion check lives to write what it saw.
   */
  lemma {:induction false} CompletedExactly(s: State, e: Event, later: seq<Event>, l: Uuid, x: Uuid)
    requires Reachable(s) && Unpaid(s.db, x) && s.db.installments[x].loanId == l && PaidUp(Step(s, e).db, l)
    ensures Closed(Run(Step(s, e), later).db, l) <==>
      s.db.installments[x].rail == Some(POLLAR) || Checked(Step(s, e), later, l)
  {
    ReachableIsSound(s);
    var t := Step(s, e);
    StepKeeps(s, e);
    LastPayment(s, e, l, x);
    if Closed(t.db, l) {
      RunKeeps(t, later);
      assert LoanGrows(t.db, Run(t, later).db, l);
    } else {
      ClosedWhenChecked(t, later, l);
    }
  }

  // ---------- one confirmation per installment

  predicate Succeeded(s: State, tx: HskTx, x: Uuid) {
    tx in s.txs && s.txs[tx].outcome == SUCCEEDED && s.txs[tx].origin == x
  }

  /** The chain has a proof at the place of installment x. */
  predicate OnChain(s: State, x: Uuid) {
    Known(s.db, x) && 1 <= s.db.installments[x].number <= |R.ProofsAt(s.registry, KeyOf(s.db, x))|
  }

  ghost predicate Single(s: State, x: Uuid, a: HskTx, b: HskTx) {
    Succeeded(s, a, x) && Succeeded(s, b, x) ==> a == b
  }

  ghost predicate Sourced(s: State, x: Uuid) {
    OnChain(s, x) ==> exists tx :: Succeeded(s, tx, x)
  }

  /** An installment has at most one confirmation that succeeded, and has one as soon as its place on chain is taken. */
  lemma OneConfirmation(s: State, x: Uuid, a: HskTx, b: HskTx)
    requires Reachable(s)
    ensures Single(s, x, a, b) && Sourced(s, x)
  {
    var events: seq<Event> :| s == Run(GENESIS, events);
    GenesisIsSound();
    ConfirmationsKept(GENESIS, events, x, a, b);
  }

  lemma {:induction false} ConfirmationsKept(s: State, events: seq<Event>, x: Uuid, a: HskTx, b: HskTx)
    requires Inv(s) && Single(s, x, a, b) && Sourced(s, x)
    ensures Single(Run(s, events), x, a, b) && Sourced(Run(s, events), x)
    decreases |events|
  {
    if events != [] {
      StepKeeps(s, events[0]);
      SingleKept(s, events[0], x, a, b);
      SourcedKept(s, events[0], x);
      ConfirmationsKept(Step(s, events[0]), events[1..], x, a, b);
    }
  }

  /** A confirmation succeeds only when mined as the next one of its loan, so its place was free. */
  lemma NewSuccess(s: State, e: Event, tx: HskTx, x: Uuid)
    requires Inv(s) && Succeeded(Step(s, e), tx, x) && !Succeeded(s, tx, x)
    ensures e.Mine? && e.tx == tx && tx in s.txs && s.txs[tx].origin == x && !OnChain(s, x)
  {
    if e.Mine? {
      assert TxAt(s, tx);
    } else {
      OthersMineNothing(s, e, tx);
    }
  }

  lemma OthersMineNothing(s: State, e: Event, tx: HskTx)
    requires !e.Mine?
    ensures tx in Step(s, e).txs && Step(s, e).txs[tx].outcome == SUCCEEDED ==>
      tx in s.txs && s.txs[tx] == Step(s, e).txs[tx]
  {
  }

  lemma SingleKept(s: State, e: Event, x: Uuid, a: HskTx, b: HskTx)
    requires Inv(s) && Single(s, x, a, b)
    ensures Single(Step(s, e), x, a, b)
  {
    if Succeeded(Step(s, e), a, x) && Succeeded(Step(s, e), b, x) && a != b {
      assert TxAt(s, a) && TxAt(s, b);
      if !Succeeded(s, a, x) { NewSuccess(s, e, a, x); }
      if !Succeeded(s, b, x) { NewSuccess(s, e, b, x); }
    }
  }

  lemma SourcedKept(s: State, e: Event, x: Uuid)
    requires Inv(s) && Inv(Step(s, e)) && Follows(s, Step(s, e)) && Sourced(s, x)
    ensures Sourced(Step(s, e), x)
  {
    var t := Step(s, e);
    if OnChain(t, x) {
      if OnChain(s, x) {
        SuccessLasts(s, t, x);
      } else {
        NewProof(s, e, x);
      }
    }
  }

  lemma SuccessLasts(s: State, t: State, x: Uuid)
    requires Follows(s, t) && exists tx :: Succeeded(s, tx, x)
    ensures exists tx :: Succeeded(s, tx, x) && Succeeded(t, tx, x)
  {
    var tx :| Succeeded(s, tx, x);
    assert tx in t.txs;
    assert Succeeded(t, tx, x);
  }

  lemma NewProof(s: State, e: Event, x: Uuid)
    requires Inv(s) && Inv(Step(s, e)) && Grows(s.db, Step(s, e).db) && !OnChain(s, x) && OnChain(Step(s, e), x)
    ensures exists tx :: Succeeded(Step(s, e), tx, x)
  {
    assert RowOnChain(Step(s, e), x);
    if x !in s.db.installments {
      NewRowIsUnreserved(s, e, x);
    } else {
      assert RowInv(s.db, x);
      KeyGrows(s.db, Step(s, e).db, x);
      assert LoanLinked(s, s.db.installments[x].loanId);
      match e
      case Mine(tx, now) => MinedProof(s, tx, now, x);
      case ContractCall(call) => ForeignProof(s, call, x);
      case _ => OthersKeepChain(s, e);
    }
  }

  lemma NewRowIsUnreserved(s: State, e: Event, x: Uuid)
    requires x !in s.db.installments && x in Step(s, e).db.installments
    ensures Step(s, e).db.installments[x].rail.None?
  {
    if e.InsertScheduleRows? { InsertedRow(s.db, e.loanId, e.ids, e.rows, x); }
  }

  lemma MinedProof(s: State, tx: HskTx, now: nat, x: Uuid)
    requires Inv(s) && Known(s.db, x) && !OnChain(s, x) && OnChain(Step(s, Mine(tx, now)), x)
    ensures Succeeded(Step(s, Mine(tx, now)), tx, x)
  {
    var c := s.txs[tx];
    assert TxAt(s, tx) && RowInv(s.db, x);
    assert LoanPair(s.db, s.db.installments[x].loanId, s.db.installments[c.origin].loanId)
      && RowPair(s.db, x, c.origin);
    R.ConfirmAppends(s.registry, OPERATOR, now, c.key, c.number, c.receipt, c.digital, c.external);
  }

  lemma ForeignProof(s: State, call: R.Call, x: Uuid)
    requires R.Valid(s.registry) && Known(s.db, x) && LoanLinked(s, s.db.installments[x].loanId) && !OnChain(s, x)
    ensures !OnChain(Step(s, ContractCall(call)), x)
  {
    if Step(s, ContractCall(call)) != s {
      ForeignCallKeepsProofs(s, call, KeyOf(s.db, x));
    }
  }

  lemma OthersKeepChain(s: State, e: Event)
    requires !e.Mine? && !e.ContractCall?
    ensures Step(s, e).registry == s.registry
  {
  }

  // ---------- receipts

  /** A row paid in cash is SYNCED by the very update that pays it. */
  ghost predicate CashSynced(s: State, x: Uuid) {
    x in s.db.installments && s.db.installments[x].status == PAID && s.db.installments[x].rail == Some(CASH) ==>
      s.db.installments[x].sync == SYNCED
  }

  lemma CashSyncedKept(s: State, e: Event, x: Uuid)
    requires Inv(s) && CashSynced(s, x)
    ensures CashSynced(Step(s, e), x)
  {
    if x !in s.db.installments {
      if x in Step(s, e).db.installments { NewRowIsUnreserved(s, e, x); }
    } else if Unpaid(s.db, x) {
      if e.PayCash? { assert TxAt(s, e.tx); }
      FreshlyPaid(s, e, x);
    } else {
      StepKeeps(s, e);
      StillSynced(s, Step(s, e), x);
    }
  }

  lemma FreshlyPaid(s: State, e: Event, x: Uuid)
    requires Valid(s.db) && Unpaid(s.db, x) && (e.PayCash? ==> TxAt(s, e.tx))
    ensures CashSynced(Step(s, e), x)
  {
    PayingSteps(s, e, x);
    if e.SettlePayment? && Pays(s, e, x) { assert IntentInv(s.db, e.id) && RowInv(s.db, x); }
  }

  lemma StillSynced(s: State, t: State, x: Uuid)
    requires Inv(s) && CashSynced(s, x) && x in s.db.installments && s.db.installments[x].status == PAID
    requires Grows(s.db, t.db)
    ensures CashSynced(t, x)
  {
    assert RowGrows(s.db, t.db, x) && RowOnChain(s, x) && RowInv(s.db, x);
  }

  lemma {:induction false} CashSyncedOverRun(s: State, events: seq<Event>, x: Uuid)
    requires Inv(s) && CashSynced(s, x)
    ensures CashSynced(Run(s, events), x)
    decreases |events|
  {
    if events != [] {
      StepKeeps(s, events[0]);
      CashSyncedKept(s, events[0], x);
      CashSyncedOverRun(Step(s, events[0]), events[1..], x);
    }
  }

  lemma PaidCashIsOnChain(s: State, x: Uuid)
    requires Reachable(s) && x in s.db.installments
    requires s.db.installments[x].status == PAID && s.db.installments[x].rail == Some(CASH)
    ensures OnChain(s, x) && s.db.installments[x].sync == SYNCED
  {
    ReachableIsSound(s);
    var events: seq<Event> :| s == Run(GENESIS, events);
    GenesisIsSound();
    CashSyncedOverRun(GENESIS, events, x);
    assert RowOnChain(s, x) && RowInv(s.db, x);
  }

  ghost predicate CashDigest(s: State, h: HskTx) {
    h in s.txs && !s.txs[h].digital ==> OwnReceipt(s.txs[h].receipt, s.txs[h].key, s.txs[h].number)
  }

  lemma CashDigestKept(s: State, e: Event, h: HskTx)
    requires CashDigest(s, h)
    ensures CashDigest(Step(s, e), h)
  {
  }

  lemma {:induction false} CashDigestOverRun(s: State, events: seq<Event>, h: HskTx)
    requires CashDigest(s, h)
    ensures CashDigest(Run(s, events), h)
    decreases |events|
  {
    if events != [] {
      CashDigestKept(s, events[0], h);
      CashDigestOverRun(Step(s, events[0]), events[1..], h);
    }
  }

  lemma CashDigestAlways(s: State, h: HskTx)
    requires Reachable(s)
    ensures CashDigest(s, h)
  {
    var events: seq<Event> :| s == Run(GENESIS, events);
    CashDigestOverRun(GENESIS, events, h);
  }

  /** Every recorded receipt names its own installment: by place on the cash rail, by intent on the other. */
  ghost predicate NamedByReceipt(s: State, x: Uuid)
    requires Known(s.db, x)
  {
    var i := s.db.installments[x];
    && i.receiptHash.Some?
    && if i.rail == Some(CASH) then OwnReceipt(i.receiptHash.value, KeyOf(s.db, x), i.number)
       else
         && x in s.db.intentOf
         && i.receiptHash.value.PollarReceipt? && i.receiptHash.value.intentId == s.db.intentOf[x]
  }

  lemma ReceiptsAreOwn(s: State, x: Uuid)
    requires Reachable(s) && Known(s.db, x) && s.db.installments[x].status == PAID
    ensures NamedByReceipt(s, x)
  {
    if s.db.installments[x].rail == Some(CASH) {
      CashReceiptIsOwn(s, x);
    } else {
      ReachableIsSound(s);
      PollarReceiptIsOwn(s, x);
    }
  }

  lemma CashReceiptIsOwn(s: State, x: Uuid)
    requires Reachable(s) && Known(s.db, x)
    requires s.db.installments[x].status == PAID && s.db.installments[x].rail == Some(CASH)
    ensures NamedByReceipt(s, x)
  {
    ReachableIsSound(s);
    PaidCashIsOnChain(s, x);
    OneConfirmation(s, x, 0, 0);
    var tx :| Succeeded(s, tx, x);
    CashDigestAlways(s, tx);
    assert TxAt(s, tx) && RowOnChain(s, x);
  }

  lemma PollarReceiptIsOwn(s: State, x: Uuid)
    requires Inv(s) && Known(s.db, x)
    requires s.db.installments[x].status == PAID && s.db.installments[x].rail != Some(CASH)
    ensures NamedByReceipt(s, x)
  {
    assert RowInv(s.db, x) && RowOnChain(s, x);
    assert s.db.installments[x].rail.value == CASH || s.db.installments[x].rail.value == POLLAR;
    var i := s.db.intentOf[x];
    assert IntentInv(s.db, i) && IntentBacked(s, i);
  }

  /** So the unique index on receipts never refuses the UPDATE behind a mined cash confirmation. */
  lemma CashReceiptIsFree(s: State, tx: HskTx)
    requires Reachable(s) && tx in s.txs && !s.txs[tx].digital
    ensures !ReceiptTaken(s.db.installments, s.txs[tx].origin, s.txs[tx].receipt)
  {
    ReachableIsSound(s);
    var x := s.txs[tx].origin;
    CashDigestAlways(s, tx);
    assert TxAt(s, tx);
    forall y | y in s.db.installments && y != x ensures s.db.installments[y].receiptHash != Some(s.txs[tx].receipt) {
      assert RowInv(s.db, y) && RowPair(s.db, x, y);
      if s.db.installments[y].status == PAID {
        ReceiptsAreOwn(s, y);
        assert LoanPair(s.db, s.db.installments[x].loanId, s.db.installments[y].loanId);
      }
    }
  }

  // ---------- a crash on the cash rail

  lemma {:induction false} RunIsReachable(s: State, later: seq<Event>)
    requires Reachable(s)
    ensures Reachable(Run(s, later))
  {
    var events: seq<Event> :| s == Run(GENESIS, events);
    RunConcat(GENESIS, events, later);
  }

  lemma StepIsReachable(s: State, e: Event)
    requires Reachable(s)
    ensures Reachable(Step(s, e))
  {
    RunIsReachable(s, [e]);
    assert Run(s, [e]) == Step(s, e);
  }

  /** The UPDATE of collectCash behind confirmation tx is among the steps. */
  predicate Written(later: seq<Event>, tx: HskTx) {
    exists k | 0 <= k < |later| :: later[k].PayCash? && later[k].tx == tx
  }

  lemma {:induction false} WrittenLater(later: seq<Event>, tx: HskTx)
    requires later != []
    ensures Written(later, tx) <==> (later[0].PayCash? && later[0].tx == tx) || Written(later[1..], tx)
  {
    forall k | 0 < k < |later| ensures later[k] == later[1..][k - 1] {}
    if k :| 0 <= k < |later[1..]| && later[1..][k].PayCash? && later[1..][k].tx == tx {
      assert later[k + 1] == later[1..][k];
    }
  }

  lemma OnlyOwnWritePays(s: State, e: Event, x: Uuid, tx: HskTx)
    requires Reachable(s) && Unpaid(s.db, x) && s.db.installments[x].rail == Some(CASH) && Succeeded(s, tx, x)
    ensures !Unpaid(Step(s, e).db, x) <==> e.PayCash? && e.tx == tx
  {
    ReachableIsSound(s);
    assert TxAt(s, tx);
    if e.PayCash? {
      assert TxAt(s, e.tx);
      OneConfirmation(s, x, tx, e.tx);
      CashReceiptIsFree(s, tx);
    }
    PayingSteps(s, e, x);
  }

  /**
   The cash rail has no repair. Once the confirmation of an unpaid cash installment succeeded, the installment becomes
   PAID exactly when the UPDATE of the very call that sent this confirmation runs; if that process stopped before it,
   nothing that anyone does later makes the row PAID.
   */
  lemma {:induction false} CashPaidExactly(s: State, later: seq<Event>, x: Uuid, tx: HskTx)
    requires Reachable(s) && Unpaid(s.db, x) && s.db.installments[x].rail == Some(CASH) && Succeeded(s, tx, x)
    ensures !Unpaid(Run(s, later).db, x) <==> Written(later, tx)
    decreases |later|
  {
    if later != [] {
      var t := Step(s, later[0]);
      ReachableIsSound(s);
      StepKeeps(s, later[0]);
      StepIsReachable(s, later[0]);
      OnlyOwnWritePays(s, later[0], x, tx);
      WrittenLater(later, tx);
      assert RowGrows(s.db, t.db, x) && tx in t.txs;
      if Unpaid(t.db, x) {
        CashPaidExactly(t, later[1..], x, tx);
      } else {
        RunKeeps(t, later[1..]);
        assert RowGrows(t.db, Run(t, later[1..]).db, x);
      }
    }
  }

  /**
   What such a stop costs: as long as that UPDATE has not run, the loan is never COMPLETED, and no later installment of
   it without an intent can get one, so the rest of the loan cannot be paid on the POLLAR rail.
   */
  lemma {:induction false} StuckRowBlocksLoan(
      s: State, later: seq<Event>, x: Uuid, tx: HskTx, y: Uuid, id: Uuid, actor: Uuid, sender: Address, issuer: Address,
      ledger: int, now: Instant)
    requires Reachable(s) && Unpaid(s.db, x) && s.db.installments[x].rail == Some(CASH) && Succeeded(s, tx, x)
    requires !Written(later, tx)
    ensures var t := Run(s, later).db;
            && Unpaid(t, x) && !Closed(t, s.db.installments[x].loanId)
            && (y in t.installments && t.installments[y].loanId == s.db.installments[x].loanId
                && t.installments[y].number > s.db.installments[x].number && y !in t.intentOf ==>
                  CreateIntent(t, id, y, actor, sender, issuer, ledger, CONTRACT, now).Failure?)
  {
    CashPaidExactly(s, later, x, tx);
    ReachableIsSound(s);
    RunKeeps(s, later);
    assert RowGrows(s.db, Run(s, later).db, x) && LoanInv(Run(s, later).db, s.db.installments[x].loanId);
  }

  /** The stop is possible: a run that mines the confirmation of a cash installment and does nothing after that. */
  lemma CashRowGetsStuck()
    ensures exists s: State, x: Uuid, tx: HskTx ::
              Reachable(s) && Unpaid(s.db, x) && s.db.installments[x].rail == Some(CASH) && Succeeded(s, tx, x)
  {
    SettlementTheorems.MinedCashLoan();
    var tx := Submission(11, 7, 1, SettlementTheorems.RECEIPT, false, ZeroHash, SUCCEEDED);
    var s := SettlementTheorems.CashState(
      SettlementTheorems.CLAIMED_ROW, SettlementTheorems.PROVEN, map[50 := tx], {11});
    assert Reachable(s) && Unpaid(s.db, 11) && Succeeded(s, 50, 11);
  }

  /** Whatever is submitted for an installment whose place on chain is taken never succeeds. */
  lemma {:induction false} LaterConfirmationsFail(s: State, later: seq<Event>, x: Uuid, u: HskTx)
    requires Reachable(s) && OnChain(s, x) && !Succeeded(s, u, x)
    ensures !Succeeded(Run(s, later), u, x)
  {
    ReachableIsSound(s);
    OneConfirmation(s, x, u, u);
    RunKeeps(s, later);
    SuccessLasts(s, Run(s, later), x);
    RunIsReachable(s, later);
    if Succeeded(Run(s, later), u, x) {
      var tx :| Succeeded(s, tx, x) && Succeeded(Run(s, later), tx, x);
      OneConfirmation(Run(s, later), x, tx, u);
    }
  }

  // ---------- how far table and chain may be apart

  /** A cash row on chain that is not marked: between two steps of a collection, or for ever if the process stopped. */
  predicate Stuck(s: State, l: Uuid, x: Uuid) {
    Unpaid(s.db, x) && s.db.installments[x].loanId == l && s.db.installments[x].rail == Some(CASH) && OnChain(s, x)
  }

  /** A row is behind the chain exactly when it is stuck, and ahead of it by one place at most. */
  lemma RowLag(s: State, l: Uuid, x: Uuid)
    requires Reachable(s) && l in s.db.loans && x in s.db.installments && s.db.installments[x].loanId == l
    ensures var i, n := s.db.installments[x], |R.ProofsAt(s.registry, s.db.loans[l].hskLoanId)|;
            && (i.number <= n && i.status != PAID <==> Stuck(s, l, x))
            && (i.status == PAID ==> i.number <= n + 1)
  {
    ReachableIsSound(s);
    assert RowInv(s.db, x);
    if s.db.installments[x].rail == Some(CASH) {
      if s.db.installments[x].status == PAID { PaidCashIsOnChain(s, x); }
    } else {
      PollarRowLag(s, x);
    }
  }

  /** The one row just past the chain, if it is there, settles whether the table is ahead. */
  lemma PaidPrefixOf(s: State, l: Uuid, n: nat)
    requires Reachable(s) && l in s.db.loans && n == |R.ProofsAt(s.registry, s.db.loans[l].hskLoanId)|
    requires forall x :: !Stuck(s, l, x)
    ensures PaidPrefix(s.db, l, n) || PaidPrefix(s.db, l, n + 1)
  {
    ReachableIsSound(s);
    forall x | x in s.db.installments && s.db.installments[x].loanId == l
      ensures s.db.installments[x].number <= n ==> s.db.installments[x].status == PAID
      ensures s.db.installments[x].status == PAID ==> s.db.installments[x].number <= n + 1
    {
      assert !Stuck(s, l, x);
      RowLag(s, l, x);
    }
    if exists y <- s.db.installments :: PaidAs(s.db, y, l, n + 1) {
      var y :| y in s.db.installments && PaidAs(s.db, y, l, n + 1);
      forall x | x in s.db.installments && s.db.installments[x].loanId == l && s.db.installments[x].number == n + 1
        ensures s.db.installments[x].status == PAID
      {
        assert RowPair(s.db, x, y);
      }
      assert PaidPrefix(s.db, l, n + 1);
    } else {
      assert PaidPrefix(s.db, l, n);
    }
  }

  predicate PaidAs(db: Database, y: Uuid, l: Uuid, k: nat)
    requires y in db.installments
  {
    db.installments[y].loanId == l && db.installments[y].number == k && db.installments[y].status == PAID
  }

  /**
   Whatever rails a loan uses: its paid rows are the first ones, as many as the chain counts or one more, exactly when
   none of its cash rows is stuck.
   */
  lemma LagIsAtMostOne(s: State, l: Uuid)
    requires Reachable(s) && l in s.db.loans
    ensures var paid: nat := R.LoanAt(s.registry, s.db.loans[l].hskLoanId).paidInstallments;
            PaidPrefix(s.db, l, paid) || PaidPrefix(s.db, l, paid + 1) <==> !exists x :: Stuck(s, l, x)
  {
    ReachableIsSound(s);
    var key := s.db.loans[l].hskLoanId;
    var n := |R.ProofsAt(s.registry, key)|;
    assert LoanLinked(s, l) && R.LoanValid(R.LoanAt(s.registry, key), R.ProofsAt(s.registry, key));
    if x :| Stuck(s, l, x) {
      RowLag(s, l, x);
    } else {
      PaidPrefixOf(s, l, n);
    }
  }
}
