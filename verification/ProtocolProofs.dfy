/** Every step of the protocol keeps the cross-store invariant, and no step takes anything back. */
module ProtocolProofs {
  import opened Wrappers
  import opened Values
  import R = Registry
  import opened SettlementDb
  import opened SettlementDbProofs
  import Stellar
  import Decimal
  import opened Protocol

  // ---------- facts that survive growth

  lemma KeyGrows(a: Database, b: Database, x: Uuid)
    requires Valid(a) && Grows(a, b) && Known(a, x)
    ensures Known(b, x) && KeyOf(b, x) == KeyOf(a, x) && Later(a.installments[x], b.installments[x])
  {
    assert RowGrows(a, b, x) && LoanGrows(a, b, a.installments[x].loanId);
  }

  lemma AgreesGrows(a: Database, b: Database, x: Uuid, receipt: Digest, digital: bool, external: Digest)
    requires Valid(a) && Grows(a, b) && Agrees(a, x, receipt, digital, external)
    ensures Agrees(b, x, receipt, digital, external)
  {
    KeyGrows(a, b, x);
    if digital {
      assert RowGrows(a, b, x) && IntentGrows(a, b, a.intentOf[x]) && IntentInv(a, a.intentOf[x]);
    }
  }

  lemma ProofGrows(
        a: R.Storage, b: R.Storage, key: LoanKey, number: nat, receipt: Digest, digital: bool, external: Digest)
    requires R.Extends(a, b) && ProofIs(a, key, number, receipt, digital, external)
    ensures ProofIs(b, key, number, receipt, digital, external)
  {
    assert R.ProofsAt(a, key) <= R.ProofsAt(b, key);
  }

  lemma BackedGrows(a: map<StellarHash, LedgerEntry>, b: map<StellarHash, LedgerEntry>, t: Terms, hash: StellarHash)
    requires Backed(a, t, hash)
    requires hash in a ==> hash in b && b[hash] == a[hash]
    ensures Backed(b, t, hash)
  {
  }

  lemma SeenGrows(a: State, b: State, i: Uuid)
    requires Inv(a) && SeenAt(a, i) && Grows(a.db, b.db) && R.Extends(a.registry, b.registry)
    ensures i in a.seen ==> i in b.db.intents && ProvenOn(b.registry, b.db.intents[i])
  {
    if i in a.seen {
      assert IntentGrows(a.db, b.db, i);
      var r := a.db.intents[i];
      ProofGrows(a.registry, b.registry, r.terms.hskLoanId, r.terms.number, r.receiptHash.value, true,
        ExternalHash(r.txHash.value));
    }
  }

  lemma AllPaidGrows(a: Database, b: Database, l: Uuid)
    requires Valid(a) && Grows(a, b) && l in a.loans && Scheduled(a.installments, l) && AllPaid(a.installments, l)
    requires forall x <- b.installments :: x !in a.installments ==> b.installments[x].loanId != l
    ensures l in b.loans && Scheduled(b.installments, l) && AllPaid(b.installments, l)
  {
    assert LoanGrows(a, b, l);
    var w :| w in a.installments && a.installments[w].loanId == l;
    assert RowGrows(a, b, w);
    forall y | y in b.installments && b.installments[y].loanId == l ensures b.installments[y].status == PAID {
      assert RowGrows(a, b, y);
    }
  }

  // ---------- steps that change only the database

  ghost predicate Untouched(a: Database, b: Database, x: Uuid) {
    x in a.installments && x in b.installments && a.installments[x] == b.installments[x]
  }

  ghost predicate SameSettlement(a: Database, b: Database, i: Uuid) {
    i in a.intents && i in b.intents && a.intents[i].txHash == b.intents[i].txHash
  }

  /**
   A database step is sound once its new loans, changed rows and new settlements are accounted for on chain and ledger.
   */
  lemma DbStep(s: State, t: Database)
    requires Inv(s) && Valid(t) && Grows(s.db, t)
    requires forall l: Uuid {:trigger LoanLinked(s.(db := t), l)} :: l !in s.db.loans ==> LoanLinked(s.(db := t), l)
    requires forall x: Uuid {:trigger RowOnChain(s.(db := t), x)} :: !Untouched(s.db, t, x) ==>
      RowOnChain(s.(db := t), x)
    requires forall i: Uuid {:trigger IntentBacked(s.(db := t), i)} :: !SameSettlement(s.db, t, i) ==>
      IntentBacked(s.(db := t), i)
    requires forall x <- t.installments, l <- s.sawPaid :: x !in s.db.installments ==> t.installments[x].loanId != l
    requires forall l: Uuid, k: nat {:trigger Covered(s.(db := t), l, k)} :: !Scheduled(s.db.installments, l) ==>
      Covered(s.(db := t), l, k)
    ensures Inv(s.(db := t)) && Follows(s, s.(db := t))
  {
    var u := s.(db := t);
    forall l: Uuid, k: nat ensures Covered(u, l, k) { CoverGrows(s, t, l, k); }
    forall l: Uuid ensures LoanLinked(u, l) { assert LoanLinked(s, l) && LoanGrows(s.db, t, l); }
    forall x: Uuid ensures RowOnChain(u, x) { DbStepRow(s, t, x); }
    forall key: LoanKey, k: nat ensures Attributed(u, key, k) {
      assert Attributed(s, key, k);
      if x :| IsRow(s.db, x, key, k) { KeyGrows(s.db, t, x); assert IsRow(t, x, key, k); }
    }
    forall h: HskTx ensures TxAt(u, h) {
      assert TxAt(s, h);
      if h in s.txs {
        KeyGrows(s.db, t, s.txs[h].origin);
        AgreesGrows(s.db, t, s.txs[h].origin, s.txs[h].receipt, s.txs[h].digital, s.txs[h].external);
      }
    }
    forall i: Uuid ensures IntentBacked(u, i) { assert IntentBacked(s, i) && IntentGrows(s.db, t, i); }
    forall v: (Uuid, StellarHash, Instant) ensures VerifiedAt(u, v) {
      assert VerifiedAt(s, v) && IntentGrows(s.db, t, v.0);
    }
    forall r: Intent ensures SnapshotAt(u, r) { assert SnapshotAt(s, r) && IntentGrows(s.db, t, r.terms.id); }
    forall i: Uuid ensures SeenAt(u, i) { assert SeenAt(s, i); SeenGrows(s, u, i); }
    forall x: Uuid ensures ClaimedAt(u, x) { assert ClaimedAt(s, x); if x in s.claimed { KeyGrows(s.db, t, x); } }
    forall l: Uuid ensures SawPaidAt(u, l) { assert SawPaidAt(s, l); if l in s.sawPaid { AllPaidGrows(s.db, t, l); } }
    assert R.Extends(s.registry, s.registry) && R.Extends(s.previous, s.previous);
  }

  lemma CoverGrows(s: State, t: Database, l: Uuid, k: nat)
    requires Inv(s) && Grows(s.db, t)
    requires !Scheduled(s.db.installments, l) ==> Covered(s.(db := t), l, k)
    ensures Covered(s.(db := t), l, k)
  {
    assert Covered(s, l, k) && LoanGrows(s.db, t, l);
    if y :| y in s.db.installments && s.db.installments[y].loanId == l {
      assert RowInv(s.db, y);
      if x :| x in s.db.installments && s.db.installments[x].loanId == l && s.db.installments[x].number == k {
        assert RowGrows(s.db, t, x);
      }
    }
  }

  lemma ScheduleUnchanged(s: State, t: Database)
    requires s.db.installments.Keys == t.installments.Keys
    requires forall x <- s.db.installments :: t.installments[x].loanId == s.db.installments[x].loanId
    ensures forall l: Uuid, k: nat {:trigger Covered(s.(db := t), l, k)} :: !Scheduled(s.db.installments, l) ==>
      Covered(s.(db := t), l, k)
  {
    forall l: Uuid | Scheduled(t.installments, l) ensures Scheduled(s.db.installments, l) {
      var x :| x in t.installments && t.installments[x].loanId == l;
      assert x in s.db.installments.Keys;
    }
  }

  lemma DbStepRow(s: State, t: Database, x: Uuid)
    requires Inv(s) && Valid(t) && Grows(s.db, t)
    requires !Untouched(s.db, t, x) ==> RowOnChain(s.(db := t), x)
    ensures RowOnChain(s.(db := t), x)
  {
    if Untouched(s.db, t, x) {
      assert RowOnChain(s, x) && RowInv(s.db, x);
      KeyGrows(s.db, t, x);
      var i := t.installments[x];
      var proofs := R.ProofsAt(s.registry, KeyOf(t, x));
      if 1 <= i.number <= |proofs| {
        var p := proofs[i.number - 1];
        AgreesGrows(s.db, t, x, p.receiptHash, p.isDigital, p.externalTxHash);
      }
    }
  }

  /** The same, for a statement that rewrites one existing row. */
  lemma OneRowStep(s: State, t: Database, x: Uuid)
    requires Inv(s) && Valid(t) && Grows(s.db, t)
    requires t.loans.Keys == s.db.loans.Keys
    requires x in s.db.installments && x in t.installments
      && t.installments == s.db.installments[x := t.installments[x]]
    requires RowOnChain(s.(db := t), x)
    requires forall i: Uuid {:trigger IntentBacked(s.(db := t), i)} :: !SameSettlement(s.db, t, i) ==>
      IntentBacked(s.(db := t), i)
    ensures Inv(s.(db := t)) && Follows(s, s.(db := t))
  {
    forall y: Uuid | !Untouched(s.db, t, y) ensures RowOnChain(s.(db := t), y) {}
    assert RowGrows(s.db, t, x);
    ScheduleUnchanged(s, t);
    DbStep(s, t);
  }

  lemma UnpaidRowOnChain(s: State, t: Database, x: Uuid)
    requires Inv(s) && Valid(t) && Grows(s.db, t) && Known(s.db, x) && x in t.installments
      && t.installments[x].status != PAID
    ensures RowOnChain(s.(db := t), x)
  {
    KeyGrows(s.db, t, x);
    assert RowInv(t, x) && RowOnChain(s, x);
    var i := t.installments[x];
    var proofs := R.ProofsAt(s.registry, KeyOf(t, x));
    if 1 <= i.number <= |proofs| {
      var p := proofs[i.number - 1];
      AgreesGrows(s.db, t, x, p.receiptHash, p.isDigital, p.externalTxHash);
    }
  }

  // ---------- database events

  lemma CreateStep(
        s: State, id: Uuid, x: Uuid, actor: Uuid, sender: Address, issuer: Address, minLedger: int, at: Instant)
    requires Inv(s)
    ensures var t := Step(s, Create(id, x, actor, sender, issuer, minLedger, at)); Inv(t) && Follows(s, t)
  {
    var r := CreateIntent(s.db, id, x, actor, sender, issuer, minLedger, CONTRACT, at);
    if r.Success? {
      CreateIntentKeeps(s.db, id, x, actor, sender, issuer, minLedger, CONTRACT, at);
      if r.value == s.db { Stutter(s); return; }
      assert RowInv(s.db, x);
      UnpaidRowOnChain(s, r.value, x);
      OneRowStep(s, r.value, x);
    } else {
      Stutter(s);
    }
  }

  lemma Stutter(s: State)
    ensures Follows(s, s)
  {
    GrowsReflexive(s.db);
  }

  /** Statements that leave loans, rows and settlements as they were. */
  lemma QueueStep(s: State, t: Database)
    requires Inv(s) && Valid(t) && Grows(s.db, t)
    requires t.loans == s.db.loans && t.installments == s.db.installments
    requires t.intents.Keys == s.db.intents.Keys
      && forall i <- s.db.intents :: t.intents[i].txHash == s.db.intents[i].txHash
    ensures Inv(s.(db := t)) && Follows(s, s.(db := t))
  {
    forall x: Uuid | !Untouched(s.db, t, x) ensures RowOnChain(s.(db := t), x) {}
    forall i: Uuid | !SameSettlement(s.db, t, i) ensures IntentBacked(s.(db := t), i) {}
    ScheduleUnchanged(s, t);
    DbStep(s, t);
  }

  lemma ReportStep(s: State, id: Uuid, actor: Uuid, hash: StellarHash, at: Instant)
    requires Inv(s)
    ensures var t := Step(s, Report(id, actor, hash, at)); Inv(t) && Follows(s, t)
  {
    var r := Observe(s.db, id, actor, hash, at);
    if r.Success? {
      ObserveKeeps(s.db, id, actor, hash, at);
      QueueStep(s, r.value);
    } else {
      Stutter(s);
    }
  }

  lemma CandidateSteps(s: State, id: Uuid, hash: StellarHash, at: Instant)
    requires Inv(s)
    ensures Inv(Step(s, RejectCandidate(id, hash))) && Follows(s, Step(s, RejectCandidate(id, hash)))
    ensures Inv(Step(s, Postpone(id, hash, at))) && Follows(s, Step(s, Postpone(id, hash, at)))
  {
    RejectKeeps(s.db, id, hash);
    QueueStep(s, Reject(s.db, id, hash));
    DeferCandidateKeeps(s.db, id, hash, at);
    QueueStep(s, DeferCandidate(s.db, id, hash, at));
  }

  lemma PostponeAnchorStep(s: State, id: Uuid, at: Instant)
    requires Inv(s)
    ensures var t := Step(s, PostponeAnchor(id, at)); Inv(t) && Follows(s, t)
  {
    AnchorFailedKeeps(s.db, id, at);
    QueueStep(s, AnchorFailed(s.db, id, at));
  }

  lemma SetWalletStep(s: State, profile: Uuid, address: Address)
    requires Inv(s)
    ensures var t := Step(s, SetWallet(profile, address)); Inv(t) && Follows(s, t)
  {
    SetRouteKeeps(s.db, profile, address);
    QueueStep(s, SetRoute(s.db, profile, address));
  }

  lemma SettleStep(s: State, id: Uuid, hash: StellarHash, paidAt: Instant)
    requires Inv(s)
    ensures var t := Step(s, SettlePayment(id, hash, paidAt)); Inv(t) && Follows(s, t)
  {
    if (id, hash, paidAt) in s.verified && id in s.db.intents {
      var r := Settle(s.db, id, hash, ReceiptOf(s.db.intents[id].terms, hash), paidAt);
      if r.Success? && r.value != s.db {
        SettledRowStep(s, id, hash, ReceiptOf(s.db.intents[id].terms, hash), paidAt);
        assert Step(s, SettlePayment(id, hash, paidAt)) == s.(db := r.value);
        return;
      }
    }
    Stutter(s);
    assert Step(s, SettlePayment(id, hash, paidAt)) == s;
  }

  lemma SettledRowStep(s: State, id: Uuid, hash: StellarHash, receipt: Digest, paidAt: Instant)
    requires Inv(s) && (id, hash, paidAt) in s.verified && id in s.db.intents
    requires receipt == ReceiptOf(s.db.intents[id].terms, hash)
    requires var r := Settle(s.db, id, hash, receipt, paidAt); r.Success? && r.value != s.db
    ensures var t := s.(db := Settle(s.db, id, hash, receipt, paidAt).value); Inv(t) && Follows(s, t)
  {
    SettleKeeps(s.db, id, hash, receipt, paidAt);
    assert IntentInv(s.db, id) && RowInv(s.db, s.db.intents[id].terms.installmentId);
    SettledRowOnChain(s, id, hash, receipt, paidAt);
    SettledIntentBacked(s, id, hash, receipt, paidAt);
    OneRowStep(s, Settle(s.db, id, hash, receipt, paidAt).value, s.db.intents[id].terms.installmentId);
  }

  /** The installment being settled has no proof on chain yet, so any proof it will get must match. */
  lemma SettledRowOnChain(s: State, id: Uuid, hash: StellarHash, receipt: Digest, paidAt: Instant)
    requires Inv(s) && id in s.db.intents && Settle(s.db, id, hash, receipt, paidAt).Success?
    requires var t := Settle(s.db, id, hash, receipt, paidAt).value; t != s.db && Grows(s.db, t)
    ensures RowOnChain(s.(db := Settle(s.db, id, hash, receipt, paidAt).value), s.db.intents[id].terms.installmentId)
  {
    var t := Settle(s.db, id, hash, receipt, paidAt).value;
    assert IntentInv(s.db, id);
    var x := s.db.intents[id].terms.installmentId;
    assert RowInv(s.db, x) && RowOnChain(s, x);
    KeyGrows(s.db, t, x);
  }

  lemma SettledIntentBacked(s: State, id: Uuid, hash: StellarHash, receipt: Digest, paidAt: Instant)
    requires Inv(s) && (id, hash, paidAt) in s.verified && id in s.db.intents
      && receipt == ReceiptOf(s.db.intents[id].terms, hash)
    requires Settle(s.db, id, hash, receipt, paidAt).Success?
    ensures var t := Settle(s.db, id, hash, receipt, paidAt).value;
            && t.loans.Keys == s.db.loans.Keys
            && (forall i: Uuid {:trigger IntentBacked(s.(db := t), i)} :: !SameSettlement(s.db, t, i) ==>
              IntentBacked(s.(db := t), i))
  {
    assert VerifiedAt(s, (id, hash, paidAt));
  }

  lemma ClosedRowOnChain(s: State, id: Uuid, hskTx: Option<HskTx>)
    requires Inv(s) && id in s.seen && MarkAnchored(s.db, id, hskTx).Success?
    requires var t := MarkAnchored(s.db, id, hskTx).value; Valid(t) && Grows(s.db, t)
    ensures RowOnChain(s.(db := MarkAnchored(s.db, id, hskTx).value), s.db.intents[id].terms.installmentId)
  {
    SeenRow(s, id);
    ReceiptKept(s.db, id, hskTx);
    SyncedRowOnChain(s, MarkAnchored(s.db, id, hskTx).value, s.db.intents[id].terms.installmentId);
  }

  /** The chain shows, at its place, the very receipt that a row may be SYNCED with. */
  ghost predicate ReceiptShown(s: State, x: Uuid) {
    && Known(s.db, x)
    && var i, proofs := s.db.installments[x], R.ProofsAt(s.registry, KeyOf(s.db, x));
       i.rail.Some? && 1 <= i.number <= |proofs| && i.receiptHash == Some(proofs[i.number - 1].receiptHash)
  }

  lemma SeenRow(s: State, id: Uuid)
    requires Inv(s) && id in s.seen
    ensures id in s.db.intents && ReceiptShown(s, s.db.intents[id].terms.installmentId)
  {
    assert SeenAt(s, id) && IntentInv(s.db, id) && RowInv(s.db, s.db.intents[id].terms.installmentId);
  }

  lemma ReceiptKept(db: Database, id: Uuid, hskTx: Option<HskTx>)
    requires MarkAnchored(db, id, hskTx).Success? && db.intents[id].terms.installmentId in db.installments
    ensures var t, x := MarkAnchored(db, id, hskTx).value, db.intents[id].terms.installmentId;
            x in t.installments && t.installments[x].receiptHash == db.installments[x].receiptHash
  {
  }

  lemma SyncedRowOnChain(s: State, t: Database, x: Uuid)
    requires Inv(s) && Valid(t) && Grows(s.db, t) && ReceiptShown(s, x)
    requires x in t.installments && t.installments[x].receiptHash == s.db.installments[x].receiptHash
    ensures RowOnChain(s.(db := t), x)
  {
    KeyGrows(s.db, t, x);
    assert RowOnChain(s, x);
    var p := R.ProofsAt(s.registry, KeyOf(t, x))[t.installments[x].number - 1];
    AgreesGrows(s.db, t, x, p.receiptHash, p.isDigital, p.externalTxHash);
  }

  /** pollar_mark_anchored rewrites one installment and keeps every settlement. */
  lemma MarkTouchesOneRow(db: Database, id: Uuid, hskTx: Option<HskTx>)
    requires MarkAnchored(db, id, hskTx).Success? && db.intents[id].terms.installmentId in db.installments
    ensures var t, x := MarkAnchored(db, id, hskTx).value, db.intents[id].terms.installmentId;
            && t.loans == db.loans && x in t.installments && t.installments == db.installments[x := t.installments[x]]
            && forall i: Uuid {:trigger SameSettlement(db, t, i)} :: i in t.intents ==> SameSettlement(db, t, i)
  {
    var t, x := MarkAnchored(db, id, hskTx).value, db.intents[id].terms.installmentId;
    assert db.installments[x := db.installments[x]] == db.installments;
  }

  lemma CloseIntentStep(s: State, id: Uuid, hskTx: Option<HskTx>)
    requires Inv(s)
    ensures var t := Step(s, CloseIntent(id, hskTx)); Inv(t) && Follows(s, t)
  {
    var r := MarkAnchored(s.db, id, hskTx);
    if id in s.seen && r.Success? {
      MarkAnchoredKeeps(s.db, id, hskTx);
      ClosedRowOnChain(s, id, hskTx);
      assert IntentInv(s.db, id) && RowInv(s.db, s.db.intents[id].terms.installmentId);
      MarkTouchesOneRow(s.db, id, hskTx);
      OneRowStep(s, r.value, s.db.intents[id].terms.installmentId);
    } else {
      Stutter(s);
    }
  }

  lemma RelabelStep(s: State, x: Uuid, status: Status)
    requires Inv(s)
    ensures var t := Step(s, RelabelRow(x, status)); Inv(t) && Follows(s, t)
  {
    var r := Relabel(s.db, x, status);
    if r.Success? {
      RelabelKeeps(s.db, x, status);
      assert RowInv(s.db, x);
      UnpaidRowOnChain(s, r.value, x);
      OneRowStep(s, r.value, x);
    } else {
      Stutter(s);
    }
  }

  lemma ClaimStep(s: State, x: Uuid)
    requires Inv(s)
    ensures var t := Step(s, Claim(x)); Inv(t) && Follows(s, t)
  {
    var r := ClaimCash(s.db, x);
    if r.Success? {
      ClaimCashKeeps(s.db, x);
      assert RowInv(s.db, x);
      UnpaidRowOnChain(s, r.value, x);
      OneRowStep(s, r.value, x);
      TokenStep(s.(db := r.value), Step(s, Claim(x)));
    } else {
      Stutter(s);
    }
  }

  /** Steps that only remember one more true fact. */
  lemma TokenStep(s: State, t: State)
    requires Inv(s)
    requires t == s.(verified := t.verified, snapshots := t.snapshots, seen := t.seen, claimed := t.claimed,
      sawPaid := t.sawPaid)
    requires forall v: (Uuid, StellarHash, Instant) :: v !in s.verified ==> VerifiedAt(t, v)
    requires forall r: Intent :: r !in s.snapshots ==> SnapshotAt(t, r)
    requires forall i: Uuid :: i !in s.seen ==> SeenAt(t, i)
    requires forall x: Uuid :: x !in s.claimed ==> ClaimedAt(t, x)
    requires forall l: Uuid :: l !in s.sawPaid ==> SawPaidAt(t, l)
    ensures Inv(t)
  {
    forall l: Uuid, k: nat ensures Covered(t, l, k) { assert Covered(s, l, k); }
    forall l: Uuid ensures LoanLinked(t, l) { assert LoanLinked(s, l); }
    forall x: Uuid ensures RowOnChain(t, x) { assert RowOnChain(s, x); }
    forall key: LoanKey, k: nat ensures Attributed(t, key, k) { assert Attributed(s, key, k); }
    forall h: HskTx ensures TxAt(t, h) { assert TxAt(s, h); }
    forall i: Uuid ensures IntentBacked(t, i) { assert IntentBacked(s, i); }
    forall v: (Uuid, StellarHash, Instant) ensures VerifiedAt(t, v) { assert VerifiedAt(s, v); }
    forall r: Intent ensures SnapshotAt(t, r) { assert SnapshotAt(s, r); }
    forall i: Uuid ensures SeenAt(t, i) { assert SeenAt(s, i); }
    forall x: Uuid ensures ClaimedAt(t, x) { assert ClaimedAt(s, x); }
    forall l: Uuid ensures SawPaidAt(t, l) { assert SawPaidAt(s, l); }
  }

  /** A cash row is marked only after its own confirmation was mined, so its receipt is the one on chain. */
  lemma PaidRowOnChain(s: State, tx: HskTx, t: Database)
    requires Inv(s) && tx in s.txs && s.txs[tx].outcome == SUCCEEDED && !s.txs[tx].digital
    requires Valid(t) && Grows(s.db, t) && s.txs[tx].origin in t.installments
    requires t.installments[s.txs[tx].origin].receiptHash == Some(s.txs[tx].receipt)
    ensures RowOnChain(s.(db := t), s.txs[tx].origin)
  {
    var c := s.txs[tx];
    assert TxAt(s, tx);
    KeyGrows(s.db, t, c.origin);
    AgreesGrows(s.db, t, c.origin, c.receipt, c.digital, c.external);
  }

  lemma PayCashStep(s: State, tx: HskTx, at: Instant)
    requires Inv(s)
    ensures var t := Step(s, PayCash(tx, at)); Inv(t) && Follows(s, t)
  {
    if tx in s.txs && s.txs[tx].outcome == SUCCEEDED && !s.txs[tx].digital {
      if MarkCashPaid(s.db, s.txs[tx].origin, s.txs[tx].receipt, at).Success? {
        CashRowStep(s, tx, at);
        assert Step(s, PayCash(tx, at)) ==
          s.(db := MarkCashPaid(s.db, s.txs[tx].origin, s.txs[tx].receipt, at).value);
        return;
      }
    }
    Stutter(s);
  }

  lemma CashRowStep(s: State, tx: HskTx, at: Instant)
    requires Inv(s) && tx in s.txs && s.txs[tx].outcome == SUCCEEDED && !s.txs[tx].digital
    requires MarkCashPaid(s.db, s.txs[tx].origin, s.txs[tx].receipt, at).Success?
    ensures var t := s.(db := MarkCashPaid(s.db, s.txs[tx].origin, s.txs[tx].receipt, at).value);
            Inv(t) && Follows(s, t)
  {
    var x := s.txs[tx].origin;
    var t := MarkCashPaid(s.db, x, s.txs[tx].receipt, at).value;
    MarkCashPaidKeeps(s.db, x, s.txs[tx].receipt, at);
    assert TxAt(s, tx) && RowInv(s.db, x);
    PaidRowOnChain(s, tx, t);
    OneRowStep(s, t, x);
  }

  lemma CloseLoanStep(s: State, loanId: Uuid, at: Instant)
    requires Inv(s)
    ensures var t := Step(s, CloseLoan(loanId, at)); Inv(t) && Follows(s, t)
  {
    if loanId in s.sawPaid {
      assert SawPaidAt(s, loanId);
      CompleteLoanKeeps(s.db, loanId, at);
      ScheduleUnchanged(s, CompleteLoan(s.db, loanId, at).value);
      DbStep(s, CompleteLoan(s.db, loanId, at).value);
    } else {
      Stutter(s);
    }
  }

  lemma InsertLoanStep(s: State, id: Uuid, loan: Loan)
    requires Inv(s)
    ensures var t := Step(s, InsertLoanRow(id, loan)); Inv(t) && Follows(s, t)
  {
    var t := Step(s, InsertLoanRow(id, loan));
    if t != s {
      InsertLoanKeeps(s.db, id, loan);
      forall l: Uuid | l !in s.db.loans ensures LoanLinked(t, l) {}
      ScheduleUnchanged(s, t.db);
      DbStep(s, t.db);
    } else {
      Stutter(s);
    }
  }

  lemma InsertScheduleStep(s: State, loanId: Uuid, ids: seq<Uuid>, rows: seq<Installment>)
    requires Inv(s)
    ensures var t := Step(s, InsertScheduleRows(loanId, ids, rows)); Inv(t) && Follows(s, t)
  {
    var r := InsertSchedule(s.db, loanId, ids, rows);
    if r.Success? {
      InsertScheduleKeeps(s.db, loanId, ids, rows);
      SettlementDbProofs.InsertScheduleRows(s.db, loanId, ids, rows);
      NothingProvenBeforeSchedule(s, loanId);
      forall x: Uuid | !Untouched(s.db, r.value, x) ensures RowOnChain(s.(db := r.value), x) {}
      assert SawPaidAt(s, loanId);
      forall l: Uuid, k: nat | !Scheduled(s.db.installments, l) ensures Covered(s.(db := r.value), l, k) {
        InsertedCover(s, loanId, ids, rows, l, k);
      }
      DbStep(s, r.value);
    } else {
      Stutter(s);
    }
  }

  lemma InsertedCover(s: State, loanId: Uuid, ids: seq<Uuid>, rows: seq<Installment>, l: Uuid, k: nat)
    requires InsertSchedule(s.db, loanId, ids, rows).Success? && !Scheduled(s.db.installments, l)
    ensures Covered(s.(db := InsertSchedule(s.db, loanId, ids, rows).value), l, k)
  {
    var t := InsertSchedule(s.db, loanId, ids, rows).value;
    if y :| y in t.installments && t.installments[y].loanId == l && 1 <= k <= |rows| {
      InsertedRow(s.db, loanId, ids, rows, y);
      assert l == loanId;
      InsertedAt(s.db, loanId, ids, rows, k);
    }
  }

  lemma InsertedAt(db: Database, loanId: Uuid, ids: seq<Uuid>, rows: seq<Installment>, k: nat)
    requires InsertSchedule(db, loanId, ids, rows).Success? && 1 <= k <= |rows|
    ensures var t := InsertSchedule(db, loanId, ids, rows).value;
            exists x :: x in t.installments && t.installments[x].loanId == loanId && t.installments[x].number == k
  {
    var t := WithRows(db.installments, ids, rows);
    assert Fresh(rows[k - 1], loanId) && rows[k - 1].number == k;
    assert ids[k - 1] in ids && t[ids[k - 1]] == rows[k - 1];
  }

  /** A loan without rows has no proofs: every operator confirmation comes from a row. */
  lemma NothingProvenBeforeSchedule(s: State, loanId: Uuid)
    requires Inv(s) && loanId in s.db.loans && !Scheduled(s.db.installments, loanId)
    ensures R.ProofsAt(s.registry, s.db.loans[loanId].hskLoanId) == []
  {
    var key := s.db.loans[loanId].hskLoanId;
    assert LoanLinked(s, loanId) && Attributed(s, key, 1);
    forall x | Known(s.db, x) ensures !IsRow(s.db, x, key, 1) {
      assert LoanPair(s.db, s.db.installments[x].loanId, loanId);
    }
  }

  // ---------- ledger and chain events

  /** What neither a new ledger entry nor a new block can disturb. */
  lemma FrameKept(s: State, t: State)
    requires Inv(s) && t == s.(ledger := t.ledger, previous := t.previous, height := t.height)
    ensures forall l: Uuid {:trigger LoanLinked(t, l)} :: LoanLinked(t, l)
    ensures forall x: Uuid {:trigger RowOnChain(t, x)} :: RowOnChain(t, x)
    ensures forall key: LoanKey, k: nat {:trigger Attributed(t, key, k)} :: Attributed(t, key, k)
    ensures forall l: Uuid, k: nat {:trigger Covered(t, l, k)} :: Covered(t, l, k)
    ensures forall h: HskTx {:trigger TxAt(t, h)} :: TxAt(t, h)
  {
    forall l: Uuid ensures LoanLinked(t, l) { assert LoanLinked(s, l); }
    forall x: Uuid ensures RowOnChain(t, x) { assert RowOnChain(s, x); }
    forall key: LoanKey, k: nat ensures Attributed(t, key, k) { assert Attributed(s, key, k); }
    forall l: Uuid, k: nat ensures Covered(t, l, k) { assert Covered(s, l, k); }
    forall h: HskTx ensures TxAt(t, h) { assert TxAt(s, h); }
  }

  lemma KnowledgeKept(s: State, t: State)
    requires Inv(s) && t == s.(ledger := t.ledger, previous := t.previous, height := t.height)
    ensures forall r: Intent {:trigger SnapshotAt(t, r)} :: SnapshotAt(t, r)
    ensures forall i: Uuid {:trigger SeenAt(t, i)} :: SeenAt(t, i)
    ensures forall x: Uuid {:trigger ClaimedAt(t, x)} :: ClaimedAt(t, x)
    ensures forall l: Uuid {:trigger SawPaidAt(t, l)} :: SawPaidAt(t, l)
  {
    forall r: Intent ensures SnapshotAt(t, r) { assert SnapshotAt(s, r); }
    forall i: Uuid ensures SeenAt(t, i) { assert SeenAt(s, i); }
    forall x: Uuid ensures ClaimedAt(t, x) { assert ClaimedAt(s, x); }
    forall l: Uuid ensures SawPaidAt(t, l) { assert SawPaidAt(s, l); }
  }

  lemma LedgerStep(s: State, hash: StellarHash, entry: LedgerEntry)
    requires Inv(s)
    ensures var t := Step(s, LedgerClose(hash, entry)); Inv(t) && Follows(s, t)
  {
    var t := Step(s, LedgerClose(hash, entry));
    Stutter(s);
    FrameKept(s, t);
    KnowledgeKept(s, t);
    forall i: Uuid ensures IntentBacked(t, i) { assert IntentBacked(s, i); }
    forall v: (Uuid, StellarHash, Instant) ensures VerifiedAt(t, v) { assert VerifiedAt(s, v); }
  }

  /** A chain step is sound once every row agrees with the proofs it adds. */
  lemma ChainStep(s: State, t: State)
    requires Inv(s) && t == s.(registry := t.registry, txs := t.txs, minedAt := t.minedAt)
    requires R.Valid(t.registry) && R.Extends(s.registry, t.registry)
    requires forall x: Uuid {:trigger RowOnChain(t, x)} :: RowOnChain(t, x)
    requires forall key: LoanKey, k: nat {:trigger Attributed(t, key, k)} :: Attributed(t, key, k)
    requires forall h: HskTx {:trigger TxAt(t, h)} :: TxAt(t, h)
    ensures Inv(t)
  {
    R.ExtendsTransitive(s.previous, s.registry, t.registry);
    forall l: Uuid, k: nat ensures Covered(t, l, k) { assert Covered(s, l, k); }
    forall l: Uuid ensures LoanLinked(t, l) { assert LoanLinked(s, l); }
    forall i: Uuid ensures IntentBacked(t, i) { assert IntentBacked(s, i); }
    forall v: (Uuid, StellarHash, Instant) ensures VerifiedAt(t, v) { assert VerifiedAt(s, v); }
    forall r: Intent ensures SnapshotAt(t, r) { assert SnapshotAt(s, r); }
    GrowsReflexive(s.db);
    forall i: Uuid ensures SeenAt(t, i) { assert SeenAt(s, i); SeenGrows(s, t, i); }
    forall x: Uuid ensures ClaimedAt(t, x) { assert ClaimedAt(s, x); }
    forall l: Uuid ensures SawPaidAt(t, l) { assert SawPaidAt(s, l); }
  }

  lemma TxSurvives(s: State, t: State, h: HskTx)
    requires TxAt(s, h) && s.db == t.db && R.Extends(s.registry, t.registry)
    requires h in t.txs ==> h in s.txs && t.txs[h] == s.txs[h]
    ensures TxAt(t, h)
  {
    if h in t.txs && s.txs[h].outcome == SUCCEEDED {
      var c := s.txs[h];
      ProofGrows(s.registry, t.registry, c.key, c.number, c.receipt, c.digital, c.external);
    }
  }

  /** Other people's transactions never reach the proofs of an operator loan. */
  lemma ForeignCallKeepsProofs(s: State, call: R.Call, key: LoanKey)
    requires R.Valid(s.registry) && (call.ConfirmCall? ==> call.sender != OPERATOR)
    requires R.LoanAt(R.Execute(s.registry, call), key).lender == OPERATOR
    ensures R.ProofsAt(R.Execute(s.registry, call), key) == R.ProofsAt(s.registry, key)
    ensures R.ProofsAt(s.registry, key) != [] ==> R.LoanAt(s.registry, key).lender == OPERATOR
  {
  }

  lemma ForeignRowOnChain(s: State, call: R.Call, x: Uuid)
    requires Inv(s) && (call.ConfirmCall? ==> call.sender != OPERATOR)
    requires R.Extends(s.registry, R.Execute(s.registry, call))
    ensures RowOnChain(s.(registry := R.Execute(s.registry, call)), x)
  {
    assert RowOnChain(s, x);
    if Known(s.db, x) {
      assert LoanLinked(s, s.db.installments[x].loanId);
      ForeignCallKeepsProofs(s, call, KeyOf(s.db, x));
    }
  }

  lemma ForeignStep(s: State, t: State, call: R.Call)
    requires Inv(s) && call.now > 0 && (call.ConfirmCall? ==> call.sender != OPERATOR)
    requires t == s.(registry := R.Execute(s.registry, call))
    requires R.Valid(t.registry) && R.Extends(s.registry, t.registry)
    ensures Inv(t)
  {
    forall x: Uuid ensures RowOnChain(t, x) { ForeignRowOnChain(s, call, x); }
    forall key: LoanKey, k: nat ensures Attributed(t, key, k) {
      assert Attributed(s, key, k);
      if R.LoanAt(t.registry, key).lender == OPERATOR { ForeignCallKeepsProofs(s, call, key); }
    }
    forall h: HskTx ensures TxAt(t, h) { assert TxAt(s, h); TxSurvives(s, t, h); }
    ChainStep(s, t);
  }

  lemma ContractCallStep(s: State, call: R.Call)
    requires Inv(s)
    ensures var t := Step(s, ContractCall(call)); Inv(t) && Follows(s, t)
  {
    var t := Step(s, ContractCall(call));
    Stutter(s);
    if t != s {
      R.ExecuteKeepsValid(s.registry, call);
      ForeignStep(s, t, call);
    }
  }

  lemma NextBlockStep(s: State)
    requires Inv(s)
    ensures var t := Step(s, NextBlock); Inv(t) && Follows(s, t)
  {
    var t := Step(s, NextBlock);
    Stutter(s);
    assert R.Extends(t.previous, t.registry) && R.Extends(s.previous, t.previous);
    FrameKept(s, t);
    KnowledgeKept(s, t);
    forall i: Uuid ensures IntentBacked(t, i) { assert IntentBacked(s, i); }
    forall v: (Uuid, StellarHash, Instant) ensures VerifiedAt(t, v) { assert VerifiedAt(s, v); }
  }

  /** The chain gained exactly the proof that transaction tx carries. */
  ghost predicate Gained(s: State, t: State, tx: HskTx, now: nat) {
    && tx in s.txs && t.db == s.db
    && R.Appended(s.registry, t.registry, s.txs[tx].key,
                  R.Proof(s.txs[tx].receipt, s.txs[tx].number, now, s.txs[tx].digital, s.txs[tx].external))
  }

  ghost predicate Mined(s: State, t: State, tx: HskTx, now: nat) {
    && Gained(s, t, tx, now) && s.txs[tx].outcome == IN_POOL
    && t == s.(registry := t.registry, txs := s.txs[tx := s.txs[tx].(outcome := SUCCEEDED)],
            minedAt := s.minedAt[tx := s.height])
    && R.Valid(t.registry) && R.Extends(s.registry, t.registry)
  }

  /** A mined confirmation appends the proof of its own installment and touches no other. */
  lemma MinedRowOnChain(s: State, t: State, tx: HskTx, now: nat, x: Uuid)
    requires Inv(s) && Gained(s, t, tx, now)
    ensures RowOnChain(t, x)
  {
    assert RowOnChain(s, x);
    if Known(s.db, x) && KeyOf(s.db, x) == s.txs[tx].key {
      MinedNumber(s, tx, x);
    }
  }

  /** Among the rows of the mined loan, only the transaction's own has its number. */
  lemma MinedNumber(s: State, tx: HskTx, x: Uuid)
    requires Inv(s) && tx in s.txs && Known(s.db, x) && KeyOf(s.db, x) == s.txs[tx].key
    ensures var c := s.txs[tx];
            s.db.installments[x].number == c.number ==> Agrees(s.db, x, c.receipt, c.digital, c.external)
  {
    var c := s.txs[tx];
    assert TxAt(s, tx);
    assert LoanPair(s.db, s.db.installments[x].loanId, s.db.installments[c.origin].loanId);
    assert RowPair(s.db, x, c.origin);
  }

  lemma MinedAttributed(s: State, t: State, tx: HskTx, now: nat, key: LoanKey, k: nat)
    requires Inv(s) && Gained(s, t, tx, now)
    ensures Attributed(t, key, k)
  {
    assert TxAt(s, tx) && Attributed(s, key, k) && IsRow(s.db, s.txs[tx].origin, s.txs[tx].key, s.txs[tx].number);
  }

  lemma MinedStep(s: State, t: State, tx: HskTx, now: nat)
    requires Inv(s) && Mined(s, t, tx, now)
    ensures Inv(t) && Follows(s, t)
  {
    Stutter(s);
    assert TxAt(s, tx);
    forall x: Uuid ensures RowOnChain(t, x) { MinedRowOnChain(s, t, tx, now, x); }
    forall key: LoanKey, k: nat ensures Attributed(t, key, k) { MinedAttributed(s, t, tx, now, key, k); }
    forall h: HskTx ensures TxAt(t, h) {
      assert TxAt(s, h);
      if h != tx { TxSurvives(s, t, h); }
    }
    ChainStep(s, t);
  }

  lemma RevertedStep(s: State, tx: HskTx)
    requires Inv(s) && tx in s.txs && s.txs[tx].outcome == IN_POOL
    ensures var t := s.(txs := s.txs[tx := s.txs[tx].(outcome := REVERTED)]); Inv(t) && Follows(s, t)
  {
    var t := s.(txs := s.txs[tx := s.txs[tx].(outcome := REVERTED)]);
    Stutter(s);
    forall x: Uuid ensures RowOnChain(t, x) { assert RowOnChain(s, x); }
    forall key: LoanKey, k: nat ensures Attributed(t, key, k) { assert Attributed(s, key, k); }
    forall h: HskTx ensures TxAt(t, h) { assert TxAt(s, h); }
    ChainStep(s, t);
  }

  lemma MineStep(s: State, tx: HskTx, now: nat)
    requires Inv(s)
    ensures var t := Step(s, Mine(tx, now)); Inv(t) && Follows(s, t)
  {
    var t := MineTx(s, tx, now);
    if t == s {
      Stutter(s);
    } else {
      var c := s.txs[tx];
      if R.Confirm(s.registry, OPERATOR, now, c.key, c.number, c.receipt, c.digital, c.external).Success? {
        R.ConfirmKeepsValid(s.registry, OPERATOR, now, c.key, c.number, c.receipt, c.digital, c.external);
        R.ConfirmAppends(s.registry, OPERATOR, now, c.key, c.number, c.receipt, c.digital, c.external);
        MinedStep(s, t, tx, now);
      } else {
        RevertedStep(s, tx);
      }
    }
  }

  // ---------- submissions and reads

  lemma SubmissionStep(s: State, tx: HskTx, c: Submission)
    requires Inv(s) && tx !in s.txs && c.outcome == IN_POOL
    requires TxAt(s.(txs := s.txs[tx := c]), tx)
    ensures var t := s.(txs := s.txs[tx := c]); Inv(t) && Follows(s, t)
  {
    var t := s.(txs := s.txs[tx := c]);
    Stutter(s);
    forall x: Uuid ensures RowOnChain(t, x) { assert RowOnChain(s, x); }
    forall key: LoanKey, k: nat ensures Attributed(t, key, k) { assert Attributed(s, key, k); }
    forall h: HskTx ensures TxAt(t, h) { assert TxAt(s, h); }
    ChainStep(s, t);
  }

  lemma SubmitAnchorStep(s: State, tx: HskTx, r: Intent)
    requires Inv(s)
    ensures var t := Step(s, SubmitAnchor(tx, r)); Inv(t) && Follows(s, t)
  {
    var t := Submit(s, tx, r);
    if t != s {
      assert SnapshotAt(s, r) && IntentInv(s.db, r.terms.id);
      var x := r.terms.installmentId;
      assert RowInv(s.db, x);
      SubmissionStep(s, tx, t.txs[tx]);
    } else {
      Stutter(s);
    }
  }

  lemma CashSubmission(s: State, tx: HskTx, x: Uuid, receipt: Digest)
    requires ClaimedAt(s, x) && SubmitClaimed(s, tx, x, receipt) != s
    ensures var t := SubmitClaimed(s, tx, x, receipt);
            tx !in s.txs && tx in t.txs && t == s.(txs := s.txs[tx := t.txs[tx]]) && t.txs[tx].outcome == IN_POOL
              && TxAt(t, tx)
  {
  }

  lemma SubmitCashStep(s: State, tx: HskTx, x: Uuid, receipt: Digest)
    requires Inv(s)
    ensures var t := Step(s, SubmitCash(tx, x, receipt)); Inv(t) && Follows(s, t)
  {
    var t := SubmitClaimed(s, tx, x, receipt);
    if t != s {
      assert ClaimedAt(s, x);
      CashSubmission(s, tx, x, receipt);
      SubmissionStep(s, tx, t.txs[tx]);
    } else {
      Stutter(s);
    }
  }

  /** In a chain view, find-by-number is indexing, and what it finds stays on chain. */
  lemma FoundIsProven(s: State, key: LoanKey, number: nat)
    requires Inv(s) && R.FindProof(R.ProofsAt(s.previous, key), number).Some?
    ensures var p := R.FindProof(R.ProofsAt(s.previous, key), number).value;
            ProofIs(s.registry, key, number, p.receiptHash, p.isDigital, p.externalTxHash)
  {
    var old_, new_ := R.ProofsAt(s.previous, key), R.ProofsAt(s.registry, key);
    assert old_ <= new_;
    if key in s.registry.loans { assert R.LoanValid(s.registry.loans[key], new_); }
    R.FoundProof(old_, number, 0);
  }

  lemma VerifyStep(s: State, id: Uuid, hash: StellarHash)
    requires Inv(s)
    ensures var t := Step(s, VerifyPayment(id, hash)); Inv(t) && Follows(s, t)
  {
    if id in s.db.intents {
      assert IntentInv(s.db, id);
      VerdictIsBacked(s.ledger, s.db.intents[id].terms, hash);
      VerdictStep(s, id, hash, VerifyOn(s.ledger, s.db.intents[id].terms, hash));
    } else {
      Stutter(s);
    }
  }

  lemma VerdictStep(s: State, id: Uuid, hash: StellarHash, verdict: Stellar.Outcome)
    requires Inv(s) && id in s.db.intents
    requires verdict.CONFIRMED? ==>
      Backed(s.ledger, s.db.intents[id].terms, hash) && verdict.at == s.ledger[hash].tx.createdAt
    ensures var t := WithVerdict(s, id, hash, verdict); Inv(t) && Follows(s, t)
  {
    Stutter(s);
    TokenStep(s, WithVerdict(s, id, hash, verdict));
  }

  lemma SeeProofStep(s: State, r: Intent)
    requires Inv(s)
    ensures var t := Step(s, SeeProof(r)); Inv(t) && Follows(s, t)
  {
    Stutter(s);
    assert SnapshotAt(s, r);
    if R.FindProof(R.ProofsAt(s.previous, r.terms.hskLoanId), r.terms.number).Some? {
      FoundIsProven(s, r.terms.hskLoanId, r.terms.number);
    }
    TokenStep(s, Step(s, SeeProof(r)));
  }

  lemma SeeAllPaidStep(s: State, loanId: Uuid)
    requires Inv(s)
    ensures var t := Step(s, SeeAllPaid(loanId)); Inv(t) && Follows(s, t)
  {
    Stutter(s);
    if w :| w in s.db.installments && s.db.installments[w].loanId == loanId { assert RowInv(s.db, w); }
    TokenStep(s, Step(s, SeeAllPaid(loanId)));
  }

  lemma ReadQueueStep(s: State, id: Uuid)
    requires Inv(s)
    ensures var t := Step(s, ReadQueue(id)); Inv(t) && Follows(s, t)
  {
    Stutter(s);
    assert IntentInv(s.db, id);
    TokenStep(s, Step(s, ReadQueue(id)));
  }

  lemma ConfirmedIsBacked(ledger: map<StellarHash, LedgerEntry>, t: Terms, hash: StellarHash, amount: string)
    requires Decimal.Units(amount) == Some(t.amount * 100_000)
    requires hash in ledger && ledger[hash].tx.hash == hash
    requires Stellar.Verify(amount, hash, RouteOf(t), t.minLedger, Some(ledger[hash].tx),
      Some(ledger[hash].ops)).CONFIRMED?
    ensures Backed(ledger, t, hash)
    ensures Stellar.Verify(amount, hash, RouteOf(t), t.minLedger, Some(ledger[hash].tx), Some(ledger[hash].ops)).at ==
      ledger[hash].tx.createdAt
  {
    var entry := ledger[hash];
    Stellar.VerifyIsExact(amount, hash, RouteOf(t), t.minLedger, Some(entry.tx), Some(entry.ops));
    var k: nat :| k < |entry.ops| && entry.ops[k].kind == "payment" && entry.ops[k].from == t.sender
                  && entry.ops[k].to == t.recipient && entry.ops[k].assetIssuer == t.issuer
                  && Stellar.Pays(entry.ops[k], hash, RouteOf(t), t.amount * 100_000);
  }

  /** A confirmed verification is a real payment of exactly the intent's terms. */
  lemma VerifiedIsBacked(ledger: map<StellarHash, LedgerEntry>, t: Terms, hash: StellarHash)
    requires t.amount < INTENT_AMOUNT_LIMIT && VerifyOn(ledger, t, hash).CONFIRMED?
    ensures Backed(ledger, t, hash) && VerifyOn(ledger, t, hash).at == ledger[hash].tx.createdAt
  {
    Decimal.PrintedCentsParse(t.amount);
    ConfirmedIsBacked(ledger, t, hash, Decimal.PrintCents(t.amount));
  }

  lemma VerdictIsBacked(ledger: map<StellarHash, LedgerEntry>, t: Terms, hash: StellarHash)
    requires t.amount < INTENT_AMOUNT_LIMIT
    ensures VerifyOn(ledger, t, hash).CONFIRMED? ==>
      Backed(ledger, t, hash) && VerifyOn(ledger, t, hash).at == ledger[hash].tx.createdAt
  {
    if VerifyOn(ledger, t, hash).CONFIRMED? { VerifiedIsBacked(ledger, t, hash); }
  }

  // ---------- every step, every run

  lemma StepKeeps(s: State, e: Event)
    requires Inv(s)
    ensures Inv(Step(s, e)) && Follows(s, Step(s, e))
  {
    match e
    case ContractCall(call) => ContractCallStep(s, call);
    case Mine(tx, now) => MineStep(s, tx, now);
    case NextBlock => NextBlockStep(s);
    case LedgerClose(hash, entry) => LedgerStep(s, hash, entry);
    case InsertLoanRow(id, loan) => InsertLoanStep(s, id, loan);
    case InsertScheduleRows(loanId, ids, rows) => InsertScheduleStep(s, loanId, ids, rows);
    case SetWallet(profile, address) => SetWalletStep(s, profile, address);
    case RelabelRow(x, status) => RelabelStep(s, x, status);
    case Create(id, x, actor, sender, issuer, minLedger, at) =>
      CreateStep(s, id, x, actor, sender, issuer, minLedger, at);
    case Report(id, actor, hash, at) => ReportStep(s, id, actor, hash, at);
    case VerifyPayment(id, hash) => VerifyStep(s, id, hash);
    case SettlePayment(id, hash, paidAt) => SettleStep(s, id, hash, paidAt);
    case RejectCandidate(id, hash) => CandidateSteps(s, id, hash, 0);
    case Postpone(id, hash, at) => CandidateSteps(s, id, hash, at);
    case ReadQueue(id) => ReadQueueStep(s, id);
    case SubmitAnchor(tx, intent) => SubmitAnchorStep(s, tx, intent);
    case SeeProof(intent) => SeeProofStep(s, intent);
    case CloseIntent(id, hskTx) => CloseIntentStep(s, id, hskTx);
    case PostponeAnchor(id, at) => PostponeAnchorStep(s, id, at);
    case Claim(x) => ClaimStep(s, x);
    case SubmitCash(tx, x, receipt) => SubmitCashStep(s, tx, x, receipt);
    case PayCash(tx, at) => PayCashStep(s, tx, at);
    case SeeAllPaid(loanId) => SeeAllPaidStep(s, loanId);
    case CloseLoan(loanId, at) => CloseLoanStep(s, loanId, at);
  }

  lemma FollowsTransitive(a: State, b: State, c: State)
    requires Follows(a, b) && Follows(b, c)
    ensures Follows(a, c)
  {
    GrowsTransitive(a.db, b.db, c.db);
    R.ExtendsTransitive(a.registry, b.registry, c.registry);
    R.ExtendsTransitive(a.previous, b.previous, c.previous);
    forall h: StellarHash | h in a.ledger ensures h in c.ledger && c.ledger[h] == a.ledger[h] {
      assert h in b.ledger;
    }
    forall t: HskTx | t in a.txs
      ensures t in c.txs && c.txs[t] == a.txs[t].(outcome := c.txs[t].outcome)
        && (a.txs[t].outcome != IN_POOL ==> c.txs[t].outcome == a.txs[t].outcome)
    {
      assert t in b.txs;
    }
  }

  /**
   Under any interleaving of any number of workers, crashes and late transactions, the invariant holds and history is
   kept.
   */
  lemma {:induction false} RunKeeps(s: State, events: seq<Event>)
    requires Inv(s)
    ensures Inv(Run(s, events)) && Follows(s, Run(s, events))
    decreases |events|
  {
    if events == [] {
      Stutter(s);
    } else {
      StepKeeps(s, events[0]);
      RunKeeps(Step(s, events[0]), events[1..]);
      FollowsTransitive(s, Step(s, events[0]), Run(s, events));
    }
  }

  lemma {:induction false} RunConcat(s: State, a: seq<Event>, b: seq<Event>)
    ensures Run(s, a + b) == Run(Run(s, a), b)
    decreases |a|
  {
    if a == [] {
      assert a + b == b;
    } else {
      assert (a + b)[1..] == a[1..] + b;
      RunConcat(Step(s, a[0]), a[1..], b);
    }
  }

  lemma GenesisIsSound()
    ensures Inv(GENESIS)
  {
    forall i: Uuid ensures QueueInv(EMPTY, i) { assert PendingFor(EMPTY.candidates, i) == {}; }
    assert Valid(EMPTY);
  }
}
