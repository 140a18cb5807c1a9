/** Every statement keeps the settlement tables valid and undoes nothing that was recorded. */
module SettlementDbProofs {
  import opened Wrappers
  import opened Values
  import opened SettlementDb

  lemma SmallerSet<T>(a: set<T>, b: set<T>)
    requires a <= b
    ensures |a| <= |b|
  {
    assert b == a + (b - a);
  }

  lemma GrowsReflexive(a: Database)
    ensures Grows(a, a)
  {
  }

  /** Rows may only move forward, so what was settled before a number stays settled. */
  lemma EarlierStaysSynced(db: Database, t: Database, loanId: Uuid, number: nat)
    requires Valid(db) && EarlierSynced(db.installments, loanId, number)
    requires forall x: Uuid :: RowGrows(db, t, x)
    requires forall x <- t.installments :: x !in db.installments ==> t.installments[x].loanId != loanId
    ensures EarlierSynced(t.installments, loanId, number)
  {
    forall y | y in t.installments && t.installments[y].loanId == loanId && t.installments[y].number < number
      ensures t.installments[y].status == PAID && t.installments[y].sync == SYNCED
    {
      assert RowGrows(db, t, y) && RowInv(db, y);
    }
  }

  /** A loan row stays consistent when its rows only moved forward and it did not become fully paid by POLLAR. */
  lemma LoanStays(db: Database, t: Database, l: Uuid)
    requires LoanInv(db, l) && l in db.loans && l in t.loans && t.loans[l] == db.loans[l]
    requires t.installments.Keys == db.installments.Keys
    requires forall x: Uuid :: RowGrows(db, t, x)
    requires PaidByPollar(t.installments, l) ==> PaidByPollar(db.installments, l)
    ensures LoanInv(t, l)
  {
    if Scheduled(db.installments, l) {
      var w :| w in db.installments && db.installments[w].loanId == l;
      assert RowGrows(db, t, w) && w in t.installments && t.installments[w].loanId == l;
    }
    if Scheduled(t.installments, l) {
      var w :| w in t.installments && t.installments[w].loanId == l;
      assert w in db.installments.Keys && RowGrows(db, t, w);
    }
    if AllPaid(db.installments, l) {
      forall y | y in t.installments && t.installments[y].loanId == l ensures t.installments[y].status == PAID {
        assert y in db.installments.Keys && RowGrows(db, t, y);
      }
    }
  }

  /** When one row moved forward, and it is unpaid or of another loan, no other loan became paid by POLLAR. */
  lemma PaidByPollarReplaced(rows: map<Uuid, Installment>, x: Uuid, j: Installment, l: Uuid)
    requires x in rows && j.loanId == rows[x].loanId && PaidByPollar(rows[x := j], l)
    requires j.loanId != l || j.status != PAID || j.rail != Some(POLLAR)
      || (rows[x].status == PAID && rows[x].rail == Some(POLLAR))
    ensures PaidByPollar(rows, l)
  {
    var t := rows[x := j];
    assert t[x] == j;
    forall y | y in rows && rows[y].loanId == l ensures rows[y].status == PAID && rows[y].rail == Some(POLLAR) {
      assert t[y].loanId == l;
    }
  }

  // ---------- statements that rewrite one installment row

  /** What such a statement must respect: the row moves forward and its intent still mirrors it. */
  ghost predicate RowStep(db: Database, x: Uuid, j: Installment) {
    && x in db.installments
    && RowOk(j) && Later(db.installments[x], j)
    && (j.receiptHash == db.installments[x].receiptHash
        || (j.receiptHash.Some? && !ReceiptTaken(db.installments, x, j.receiptHash.value)))
    && (j.rail == Some(POLLAR) <==> x in db.intentOf)
    && (x in db.intentOf && db.intentOf[x] in db.intents ==> Mirrors(db.intents[db.intentOf[x]], j))
    && (j.status == PAID && j.rail == Some(POLLAR) ==> db.installments[x].status == PAID)
  }

  lemma RowStepKeeps(db: Database, x: Uuid, j: Installment)
    requires Valid(db) && RowStep(db, x, j)
    ensures Valid(db.(installments := db.installments[x := j]))
      && Grows(db, db.(installments := db.installments[x := j]))
  {
    var t := db.(installments := db.installments[x := j]);
    forall y: Uuid ensures RowGrows(db, t, y) {}
    forall l: Uuid ensures LoanInv(t, l) {
      assert LoanInv(db, l) && RowInv(db, x);
      if PaidByPollar(t.installments, l) { PaidByPollarReplaced(db.installments, x, j, l); }
      if l in db.loans { LoanStays(db, t, l); }
    }
    forall l: Uuid, m: Uuid ensures LoanPair(t, l, m) { assert LoanPair(db, l, m); }
    forall y: Uuid ensures RowInv(t, y) { assert RowInv(db, y); }
    forall y: Uuid, z: Uuid ensures RowPair(t, y, z) { assert RowPair(db, y, z) && RowPair(db, z, y); }
    forall i: Uuid ensures IntentInv(t, i) {
      assert IntentInv(db, i);
      if i in db.intents { EarlierStaysSynced(db, t, db.intents[i].terms.loanId, db.intents[i].terms.number); }
    }
    forall i: Uuid, k: Uuid ensures IntentPair(t, i, k) { assert IntentPair(db, i, k); }
    forall k: (Uuid, StellarHash) ensures CandidateInv(t, k) { assert CandidateInv(db, k); }
    forall i: Uuid ensures QueueInv(t, i) { assert QueueInv(db, i); }
    forall l: Uuid ensures LoanGrows(db, t, l) {}
    forall i: Uuid ensures IntentGrows(db, t, i) {}
  }

  lemma RelabelKeeps(db: Database, x: Uuid, status: Status)
    requires Valid(db) && Relabel(db, x, status).Success?
    ensures var t := Relabel(db, x, status).value; Valid(t) && Grows(db, t)
  {
    assert RowInv(db, x);
    RowStepKeeps(db, x, db.installments[x].(status := status));
  }

  lemma ClaimCashKeeps(db: Database, x: Uuid)
    requires Valid(db) && ClaimCash(db, x).Success?
    ensures var t := ClaimCash(db, x).value; Valid(t) && Grows(db, t)
  {
    assert RowInv(db, x);
    RowStepKeeps(db, x, db.installments[x].(rail := Some(CASH)));
  }

  lemma MarkCashPaidKeeps(db: Database, x: Uuid, receipt: Digest, paidAt: Instant)
    requires Valid(db) && MarkCashPaid(db, x, receipt, paidAt).Success?
    ensures var t := MarkCashPaid(db, x, receipt, paidAt).value; Valid(t) && Grows(db, t)
  {
    assert RowInv(db, x);
    RowStepKeeps(db, x, MarkCashPaid(db, x, receipt, paidAt).value.installments[x]);
  }

  // ---------- statements on the candidate queue

  /** A statement that touches nothing but candidates, and makes none of them pending. */
  lemma CandidatesKeep(db: Database, c: map<(Uuid, StellarHash), Candidate>)
    requires Valid(db)
    requires forall k: (Uuid, StellarHash) :: CandidateInv(db.(candidates := c), k)
    requires forall i: Uuid :: QueueInv(db.(candidates := c), i)
    requires db.candidates.Keys <= c.Keys
    ensures Valid(db.(candidates := c)) && Grows(db, db.(candidates := c))
  {
    var t := db.(candidates := c);
    forall l: Uuid ensures LoanInv(t, l) && LoanGrows(db, t, l) { assert LoanInv(db, l); }
    forall l: Uuid, m: Uuid ensures LoanPair(t, l, m) { assert LoanPair(db, l, m); }
    forall y: Uuid ensures RowInv(t, y) && RowGrows(db, t, y) { assert RowInv(db, y); }
    forall y: Uuid, z: Uuid ensures RowPair(t, y, z) { assert RowPair(db, y, z); }
    forall i: Uuid ensures IntentInv(t, i) && IntentGrows(db, t, i) { assert IntentInv(db, i); }
    forall i: Uuid, k: Uuid ensures IntentPair(t, i, k) { assert IntentPair(db, i, k); }
  }

  lemma PendingAfterInsert(c: map<(Uuid, StellarHash), Candidate>, k: (Uuid, StellarHash), now: Instant, i: Uuid)
    requires k !in c
    ensures PendingFor(c[k := Candidate(CANDIDATE_PENDING, now, now)], i) == PendingFor(c, i)
      + (if i == k.0 then {k} else {})
  {
  }

  lemma ObserveKeeps(db: Database, id: Uuid, actor: Uuid, hash: StellarHash, now: Instant)
    requires Valid(db) && Observe(db, id, actor, hash, now).Success?
    ensures var t := Observe(db, id, actor, hash, now).value; Valid(t) && Grows(db, t)
  {
    if Observe(db, id, actor, hash, now).value == db {
      GrowsReflexive(db);
    } else {
      var c := db.candidates[(id, hash) := Candidate(CANDIDATE_PENDING, now, now)];
      forall i: Uuid ensures QueueInv(db.(candidates := c), i) {
        assert QueueInv(db, i);
        PendingAfterInsert(db.candidates, (id, hash), now, i);
      }
      forall k: (Uuid, StellarHash) ensures CandidateInv(db.(candidates := c), k) {
        assert CandidateInv(db, k) && IntentInv(db, k.0);
      }
      CandidatesKeep(db, c);
    }
  }

  lemma DeferCandidateKeeps(db: Database, id: Uuid, hash: StellarHash, at: Instant)
    requires Valid(db)
    ensures var t := DeferCandidate(db, id, hash, at); Valid(t) && Grows(db, t)
  {
    var t := DeferCandidate(db, id, hash, at);
    forall k: (Uuid, StellarHash) ensures CandidateInv(t, k) { assert CandidateInv(db, k); }
    forall i: Uuid ensures QueueInv(t, i) {
      assert QueueInv(db, i);
      assert PendingFor(t.candidates, i) == PendingFor(db.candidates, i);
    }
    CandidatesKeep(db, t.candidates);
  }

  lemma RejectKeeps(db: Database, id: Uuid, hash: StellarHash)
    requires Valid(db)
    ensures var t := Reject(db, id, hash); Valid(t) && Grows(db, t)
  {
    var t := Reject(db, id, hash);
    forall k: (Uuid, StellarHash) ensures CandidateInv(t, k) { assert CandidateInv(db, k); }
    forall i: Uuid ensures QueueInv(t, i) {
      assert QueueInv(db, i);
      SmallerSet(PendingFor(t.candidates, i), PendingFor(db.candidates, i));
    }
    CandidatesKeep(db, t.candidates);
  }

  lemma SetRouteKeeps(db: Database, profile: Uuid, address: Address)
    requires Valid(db)
    ensures var t := SetRoute(db, profile, address); Valid(t) && Grows(db, t)
  {
    var t := SetRoute(db, profile, address);
    forall l: Uuid ensures LoanInv(t, l) && LoanGrows(db, t, l) { assert LoanInv(db, l); }
    forall l: Uuid, m: Uuid ensures LoanPair(t, l, m) { assert LoanPair(db, l, m); }
    forall y: Uuid ensures RowInv(t, y) && RowGrows(db, t, y) { assert RowInv(db, y); }
    forall y: Uuid, z: Uuid ensures RowPair(t, y, z) { assert RowPair(db, y, z); }
    forall i: Uuid ensures IntentInv(t, i) && IntentGrows(db, t, i) { assert IntentInv(db, i); }
    forall i: Uuid, k: Uuid ensures IntentPair(t, i, k) { assert IntentPair(db, i, k); }
    forall k: (Uuid, StellarHash) ensures CandidateInv(t, k) { assert CandidateInv(db, k); }
    forall i: Uuid ensures QueueInv(t, i) { assert QueueInv(db, i); }
  }

  // ---------- creating, settling and closing an intent

  lemma CreateIntentKeeps(
      db: Database, id: Uuid, x: Uuid, actor: Uuid, sender: Address, issuer: Address, ledger: int,
      hskContract: Address, now: Instant)
    requires Valid(db) && CreateIntent(db, id, x, actor, sender, issuer, ledger, hskContract, now).Success?
    ensures var t := CreateIntent(db, id, x, actor, sender, issuer, ledger, hskContract, now).value;
            Valid(t) && Grows(db, t)
  {
    var t := CreateIntent(db, id, x, actor, sender, issuer, ledger, hskContract, now).value;
    if t == db { GrowsReflexive(db); return; }
    CreateRows(db, id, x, actor, sender, issuer, ledger, hskContract, now);
    CreateIntents(db, id, x, actor, sender, issuer, ledger, hskContract, now);
    forall l: Uuid ensures LoanInv(t, l) && LoanGrows(db, t, l) {
      assert LoanInv(db, l) && RowInv(db, x);
      if PaidByPollar(t.installments, l) { PaidByPollarReplaced(db.installments, x, t.installments[x], l); }
      if l in db.loans { LoanStays(db, t, l); }
    }
    forall l: Uuid, m: Uuid ensures LoanPair(t, l, m) { assert LoanPair(db, l, m); }
  }

  lemma CreateRows(
      db: Database, id: Uuid, x: Uuid, actor: Uuid, sender: Address, issuer: Address, ledger: int,
      hskContract: Address, now: Instant)
    requires Valid(db) && CreateIntent(db, id, x, actor, sender, issuer, ledger, hskContract, now).Success?
    requires CreateIntent(db, id, x, actor, sender, issuer, ledger, hskContract, now).value != db
    ensures var t := CreateIntent(db, id, x, actor, sender, issuer, ledger, hskContract, now).value;
            && (forall y: Uuid :: RowGrows(db, t, y) && RowInv(t, y))
            && (forall y: Uuid, z: Uuid :: RowPair(t, y, z))
  {
    var t := CreateIntent(db, id, x, actor, sender, issuer, ledger, hskContract, now).value;
    assert RowInv(db, x);
    forall y: Uuid ensures RowGrows(db, t, y) && RowInv(t, y) {
      assert RowInv(db, y);
      if y in db.intentOf { assert IntentInv(db, db.intentOf[y]); }
    }
    forall y: Uuid, z: Uuid ensures RowPair(t, y, z) { assert RowPair(db, y, z); }
  }

  lemma CreateIntents(
      db: Database, id: Uuid, x: Uuid, actor: Uuid, sender: Address, issuer: Address, ledger: int,
      hskContract: Address, now: Instant)
    requires Valid(db) && CreateIntent(db, id, x, actor, sender, issuer, ledger, hskContract, now).Success?
    requires var t := CreateIntent(db, id, x, actor, sender, issuer, ledger, hskContract, now).value;
             t != db && forall y: Uuid :: RowGrows(db, t, y)
    ensures var t := CreateIntent(db, id, x, actor, sender, issuer, ledger, hskContract, now).value;
            && (forall i: Uuid :: IntentInv(t, i) && IntentGrows(db, t, i))
            && (forall i: Uuid, k: Uuid :: IntentPair(t, i, k))
            && (forall k: (Uuid, StellarHash) :: CandidateInv(t, k)) && (forall i: Uuid :: QueueInv(t, i))
  {
    var t := CreateIntent(db, id, x, actor, sender, issuer, ledger, hskContract, now).value;
    assert RowInv(db, x);
    forall i: Uuid ensures IntentInv(t, i) && IntentGrows(db, t, i) {
      assert IntentInv(db, i);
      if i in db.intents { EarlierStaysSynced(db, t, db.intents[i].terms.loanId, db.intents[i].terms.number); }
      EarlierStaysSynced(db, t, db.installments[x].loanId, db.installments[x].number);
    }
    forall i: Uuid, k: Uuid ensures IntentPair(t, i, k) { assert IntentPair(db, i, k); }
    forall k: (Uuid, StellarHash) ensures CandidateInv(t, k) { assert CandidateInv(db, k); }
    forall i: Uuid ensures QueueInv(t, i) { assert QueueInv(db, i); }
  }

  /** The completion check inside pollar_settle is exactly what keeps loan status in step with the rows. */
  lemma SettleLoans(db: Database, id: Uuid, hash: StellarHash, receipt: Digest, paidAt: Instant, l: Uuid)
    requires Valid(db) && Settle(db, id, hash, receipt, paidAt).Success?
    requires forall y: Uuid :: RowGrows(db, Settle(db, id, hash, receipt, paidAt).value, y)
    ensures LoanInv(Settle(db, id, hash, receipt, paidAt).value, l)
  {
    var t := Settle(db, id, hash, receipt, paidAt).value;
    assert IntentInv(db, id) && LoanInv(db, l);
    var x := db.intents[id].terms.installmentId;
    assert RowInv(db, x);
    if t != db && l in db.loans {
      var j := t.installments[x];
      assert t.installments == db.installments[x := j];
      if l == j.loanId {
        assert t.installments[x].loanId == l;
        if !AllPaid(t.installments, l) {
          assert !PaidByPollar(t.installments, l);
          LoanStays(db, t, l);
        }
      } else {
        if PaidByPollar(t.installments, l) { PaidByPollarReplaced(db.installments, x, j, l); }
        LoanStays(db, t, l);
      }
    }
  }

  lemma SettleRows(db: Database, id: Uuid, hash: StellarHash, receipt: Digest, paidAt: Instant)
    requires Valid(db) && Settle(db, id, hash, receipt, paidAt).Success?
    ensures var t := Settle(db, id, hash, receipt, paidAt).value;
            && (forall y: Uuid :: RowGrows(db, t, y) && RowInv(t, y))
            && (forall y: Uuid, z: Uuid :: RowPair(t, y, z))
  {
    var t := Settle(db, id, hash, receipt, paidAt).value;
    assert IntentInv(db, id);
    var x := db.intents[id].terms.installmentId;
    assert RowInv(db, x);
    forall y: Uuid ensures RowGrows(db, t, y) && RowInv(t, y) { assert RowInv(db, y); }
    forall y: Uuid, z: Uuid ensures RowPair(t, y, z) { assert RowPair(db, y, z); }
  }

  lemma SettleIntents(db: Database, id: Uuid, hash: StellarHash, receipt: Digest, paidAt: Instant)
    requires Valid(db) && Settle(db, id, hash, receipt, paidAt).Success?
    requires forall y: Uuid :: RowGrows(db, Settle(db, id, hash, receipt, paidAt).value, y)
    ensures var t := Settle(db, id, hash, receipt, paidAt).value;
            && (forall i: Uuid :: IntentInv(t, i) && IntentGrows(db, t, i))
            && (forall i: Uuid, k: Uuid :: IntentPair(t, i, k))
  {
    var t := Settle(db, id, hash, receipt, paidAt).value;
    assert IntentInv(db, id);
    forall i: Uuid ensures IntentInv(t, i) && IntentGrows(db, t, i) {
      assert IntentInv(db, i);
      if i in db.intents { EarlierStaysSynced(db, t, db.intents[i].terms.loanId, db.intents[i].terms.number); }
    }
    forall i: Uuid, k: Uuid ensures IntentPair(t, i, k) { assert IntentPair(db, i, k); }
  }

  lemma SettleQueues(db: Database, id: Uuid, hash: StellarHash, receipt: Digest, paidAt: Instant)
    requires Valid(db) && Settle(db, id, hash, receipt, paidAt).Success?
    ensures var t := Settle(db, id, hash, receipt, paidAt).value;
            (forall k: (Uuid, StellarHash) :: CandidateInv(t, k)) && (forall i: Uuid :: QueueInv(t, i))
  {
    var t := Settle(db, id, hash, receipt, paidAt).value;
    assert IntentInv(db, id);
    forall k: (Uuid, StellarHash) ensures CandidateInv(t, k) { assert CandidateInv(db, k); }
    forall i: Uuid ensures QueueInv(t, i) {
      assert QueueInv(db, i);
      SmallerSet(PendingFor(t.candidates, i), PendingFor(db.candidates, i));
    }
  }

  lemma SettleKeeps(db: Database, id: Uuid, hash: StellarHash, receipt: Digest, paidAt: Instant)
    requires Valid(db) && Settle(db, id, hash, receipt, paidAt).Success?
    ensures var t := Settle(db, id, hash, receipt, paidAt).value; Valid(t) && Grows(db, t)
  {
    var t := Settle(db, id, hash, receipt, paidAt).value;
    SettleRows(db, id, hash, receipt, paidAt);
    SettleIntents(db, id, hash, receipt, paidAt);
    SettleQueues(db, id, hash, receipt, paidAt);
    forall l: Uuid ensures LoanInv(t, l) { SettleLoans(db, id, hash, receipt, paidAt, l); }
    forall l: Uuid ensures LoanGrows(db, t, l) {}
    forall l: Uuid, m: Uuid ensures LoanPair(t, l, m) { assert LoanPair(db, l, m); }
  }

  lemma MarkRows(db: Database, id: Uuid, hskTx: Option<HskTx>)
    requires Valid(db) && MarkAnchored(db, id, hskTx).Success?
    ensures var t, x := MarkAnchored(db, id, hskTx).value, db.intents[id].terms.installmentId;
            && x in db.installments && x in t.installments && t.installments[x].sync == SYNCED
            && t.installments == db.installments[x := t.installments[x]]
            && db.installments[x].status == PAID && db.installments[x].rail == Some(POLLAR)
            && (forall y: Uuid :: RowGrows(db, t, y) && RowInv(t, y))
            && (forall y: Uuid, z: Uuid :: RowPair(t, y, z))
  {
    var t := MarkAnchored(db, id, hskTx).value;
    assert IntentInv(db, id) && RowInv(db, db.intents[id].terms.installmentId);
    forall y: Uuid ensures RowGrows(db, t, y) && RowInv(t, y) { assert RowInv(db, y); }
    forall y: Uuid, z: Uuid ensures RowPair(t, y, z) { assert RowPair(db, y, z); }
  }

  lemma MarkIntents(db: Database, id: Uuid, hskTx: Option<HskTx>)
    requires Valid(db) && MarkAnchored(db, id, hskTx).Success?
    requires forall y: Uuid :: RowGrows(db, MarkAnchored(db, id, hskTx).value, y)
    ensures var t := MarkAnchored(db, id, hskTx).value;
            && (forall i: Uuid :: IntentInv(t, i) && IntentGrows(db, t, i))
            && (forall i: Uuid, k: Uuid :: IntentPair(t, i, k))
            && (forall k: (Uuid, StellarHash) :: CandidateInv(t, k)) && (forall i: Uuid :: QueueInv(t, i))
  {
    var t := MarkAnchored(db, id, hskTx).value;
    forall i: Uuid ensures IntentInv(t, i) && IntentGrows(db, t, i) {
      assert IntentInv(db, i) && IntentInv(db, id);
      if i in db.intents { EarlierStaysSynced(db, t, db.intents[i].terms.loanId, db.intents[i].terms.number); }
    }
    forall i: Uuid, k: Uuid ensures IntentPair(t, i, k) { assert IntentPair(db, i, k); }
    forall k: (Uuid, StellarHash) ensures CandidateInv(t, k) { assert CandidateInv(db, k); }
    forall i: Uuid ensures QueueInv(t, i) { assert QueueInv(db, i); }
  }

  /** On a valid database the installment of a settled intent is always the one that becomes SYNCED. */
  lemma MarkAnchoredKeeps(db: Database, id: Uuid, hskTx: Option<HskTx>)
    requires Valid(db) && MarkAnchored(db, id, hskTx).Success?
    ensures var t := MarkAnchored(db, id, hskTx).value;
            && Valid(t) && Grows(db, t)
            && db.intents[id].terms.installmentId in t.installments
            && t.installments[db.intents[id].terms.installmentId].sync == SYNCED
  {
    var t := MarkAnchored(db, id, hskTx).value;
    var x := db.intents[id].terms.installmentId;
    MarkRows(db, id, hskTx);
    MarkIntents(db, id, hskTx);
    forall l: Uuid ensures LoanInv(t, l) && LoanGrows(db, t, l) {
      assert LoanInv(db, l) && RowGrows(db, t, x);
      if PaidByPollar(t.installments, l) { PaidByPollarReplaced(db.installments, x, t.installments[x], l); }
      if l in db.loans { LoanStays(db, t, l); }
    }
    forall l: Uuid, m: Uuid ensures LoanPair(t, l, m) { assert LoanPair(db, l, m); }
  }

  lemma AnchorFailedKeeps(db: Database, id: Uuid, at: Instant)
    requires Valid(db)
    ensures var t := AnchorFailed(db, id, at); Valid(t) && Grows(db, t)
  {
    var t := AnchorFailed(db, id, at);
    if t == db { GrowsReflexive(db); return; }
    forall l: Uuid ensures LoanInv(t, l) && LoanGrows(db, t, l) { assert LoanInv(db, l); }
    forall l: Uuid, m: Uuid ensures LoanPair(t, l, m) { assert LoanPair(db, l, m); }
    forall y: Uuid ensures RowInv(t, y) && RowGrows(db, t, y) { assert RowInv(db, y); }
    forall y: Uuid, z: Uuid ensures RowPair(t, y, z) { assert RowPair(db, y, z); }
    forall i: Uuid ensures IntentInv(t, i) && IntentGrows(db, t, i) { assert IntentInv(db, i); }
    forall i: Uuid, k: Uuid ensures IntentPair(t, i, k) { assert IntentPair(db, i, k); }
    forall k: (Uuid, StellarHash) ensures CandidateInv(t, k) { assert CandidateInv(db, k); }
    forall i: Uuid ensures QueueInv(t, i) { assert QueueInv(db, i); }
  }

  // ---------- loans and schedules

  lemma CompleteLoanKeeps(db: Database, loanId: Uuid, at: Instant)
    requires Valid(db) && Scheduled(db.installments, loanId) && AllPaid(db.installments, loanId)
    requires CompleteLoan(db, loanId, at).Success?
    ensures var t := CompleteLoan(db, loanId, at).value; Valid(t) && Grows(db, t)
  {
    var t := CompleteLoan(db, loanId, at).value;
    forall l: Uuid ensures LoanInv(t, l) && LoanGrows(db, t, l) { assert LoanInv(db, l); }
    forall l: Uuid, m: Uuid ensures LoanPair(t, l, m) { assert LoanPair(db, l, m); }
    forall y: Uuid ensures RowInv(t, y) && RowGrows(db, t, y) { assert RowInv(db, y); }
    forall y: Uuid, z: Uuid ensures RowPair(t, y, z) { assert RowPair(db, y, z); }
    forall i: Uuid ensures IntentInv(t, i) && IntentGrows(db, t, i) { assert IntentInv(db, i); }
    forall i: Uuid, k: Uuid ensures IntentPair(t, i, k) { assert IntentPair(db, i, k); }
    forall k: (Uuid, StellarHash) ensures CandidateInv(t, k) { assert CandidateInv(db, k); }
    forall i: Uuid ensures QueueInv(t, i) { assert QueueInv(db, i); }
  }

  lemma InsertLoanKeeps(db: Database, id: Uuid, loan: Loan)
    requires Valid(db) && InsertLoan(db, id, loan).Success?
    ensures var t := InsertLoan(db, id, loan).value; Valid(t) && Grows(db, t)
  {
    var t := InsertLoan(db, id, loan).value;
    forall l: Uuid ensures LoanInv(t, l) && LoanGrows(db, t, l) {
      assert LoanInv(db, l);
      forall y | y in db.installments ensures db.installments[y].loanId != id { assert RowInv(db, y); }
    }
    forall l: Uuid, m: Uuid ensures LoanPair(t, l, m) { assert LoanPair(db, l, m); }
    forall y: Uuid ensures RowInv(t, y) && RowGrows(db, t, y) { assert RowInv(db, y); }
    forall y: Uuid, z: Uuid ensures RowPair(t, y, z) { assert RowPair(db, y, z); }
    forall i: Uuid ensures IntentInv(t, i) && IntentGrows(db, t, i) { assert IntentInv(db, i); }
    forall i: Uuid, k: Uuid ensures IntentPair(t, i, k) { assert IntentPair(db, i, k); }
    forall k: (Uuid, StellarHash) ensures CandidateInv(t, k) { assert CandidateInv(db, k); }
    forall i: Uuid ensures QueueInv(t, i) { assert QueueInv(db, i); }
  }

  lemma InsertScheduleRows(db: Database, loanId: Uuid, ids: seq<Uuid>, rows: seq<Installment>)
    requires Valid(db) && InsertSchedule(db, loanId, ids, rows).Success?
    ensures var t := InsertSchedule(db, loanId, ids, rows).value;
            forall y <- t.installments :: y !in db.installments ==>
              y in ids && Fresh(t.installments[y], loanId)
                && 1 <= t.installments[y].number <= db.loans[loanId].totalInstallments
    ensures var t := InsertSchedule(db, loanId, ids, rows).value;
            forall y <- t.installments, z <- t.installments ::
              y !in db.installments && z !in db.installments && y != z ==>
                t.installments[y].number != t.installments[z].number
    ensures var t := InsertSchedule(db, loanId, ids, rows).value;
            forall y <- db.installments :: y in t.installments && t.installments[y] == db.installments[y]
  {
    var t := InsertSchedule(db, loanId, ids, rows).value;
    forall y | y in t.installments && y !in db.installments
      ensures exists k ::
                && 0 <= k < |ids| && ids[k] == y && t.installments[y] == rows[k]
                && Fresh(rows[k], loanId) && rows[k].number == k + 1
    {
      InsertedRow(db, loanId, ids, rows, y);
    }
  }

  /** A new row is the one given for its id. */
  lemma InsertedRow(db: Database, loanId: Uuid, ids: seq<Uuid>, rows: seq<Installment>, y: Uuid)
    requires InsertSchedule(db, loanId, ids, rows).Success? && y !in db.installments
    requires y in InsertSchedule(db, loanId, ids, rows).value.installments
    ensures exists k ::
              && 0 <= k < |ids| && ids[k] == y
              && InsertSchedule(db, loanId, ids, rows).value.installments[y] == rows[k]
              && Fresh(rows[k], loanId) && rows[k].number == k + 1
  {
    var k :| 0 <= k < |ids| && ids[k] == y;
    assert WithRows(db.installments, ids, rows)[ids[k]] == rows[k];
    assert Fresh(rows[k], loanId) && rows[k].number == k + 1;
  }

  lemma InsertScheduleKeeps(db: Database, loanId: Uuid, ids: seq<Uuid>, rows: seq<Installment>)
    requires Valid(db) && InsertSchedule(db, loanId, ids, rows).Success?
    ensures var t := InsertSchedule(db, loanId, ids, rows).value; Valid(t) && Grows(db, t)
  {
    var t := InsertSchedule(db, loanId, ids, rows).value;
    InsertScheduleRows(db, loanId, ids, rows);
    InsertScheduleLinks(db, t, loanId);
    forall l: Uuid ensures LoanInv(t, l) && LoanGrows(db, t, l) { InsertScheduleLoans(db, loanId, ids, rows, l); }
    forall l: Uuid, m: Uuid ensures LoanPair(t, l, m) { assert LoanPair(db, l, m); }
    forall i: Uuid, k: Uuid ensures IntentPair(t, i, k) { assert IntentPair(db, i, k); }
    forall k: (Uuid, StellarHash) ensures CandidateInv(t, k) { assert CandidateInv(db, k); }
    forall i: Uuid ensures QueueInv(t, i) { assert QueueInv(db, i); }
  }

  /** New rows of a loan that had none leave every existing row and intent valid. */
  lemma InsertScheduleLinks(db: Database, t: Database, loanId: Uuid)
    requires Valid(db) && loanId in db.loans && !Scheduled(db.installments, loanId)
    requires t == db.(installments := t.installments)
    requires forall y <- t.installments :: y !in db.installments ==>
               Fresh(t.installments[y], loanId) && 1 <= t.installments[y].number <= db.loans[loanId].totalInstallments
    requires forall y <- t.installments, z <- t.installments ::
               y !in db.installments && z !in db.installments && y != z ==>
                 t.installments[y].number != t.installments[z].number
    requires forall y <- db.installments :: y in t.installments && t.installments[y] == db.installments[y]
    ensures forall y: Uuid :: RowInv(t, y) && RowGrows(db, t, y)
    ensures forall y: Uuid, z: Uuid :: RowPair(t, y, z)
    ensures forall i: Uuid :: IntentInv(t, i) && IntentGrows(db, t, i)
  {
    forall y: Uuid ensures RowInv(t, y) && RowGrows(db, t, y) { assert RowInv(db, y); }
    forall y: Uuid, z: Uuid ensures RowPair(t, y, z) { assert RowPair(db, y, z); }
    forall i: Uuid ensures IntentInv(t, i) && IntentGrows(db, t, i) {
      assert IntentInv(db, i);
      if i in db.intents {
        var x := db.intents[i].terms.installmentId;
        assert RowInv(db, x) && db.installments[x].loanId == db.intents[i].terms.loanId != loanId;
        EarlierStaysSynced(db, t, db.intents[i].terms.loanId, db.intents[i].terms.number);
      }
    }
  }

  lemma InsertScheduleLoans(db: Database, loanId: Uuid, ids: seq<Uuid>, rows: seq<Installment>, l: Uuid)
    requires Valid(db) && InsertSchedule(db, loanId, ids, rows).Success?
    ensures LoanInv(InsertSchedule(db, loanId, ids, rows).value, l)
  {
    var t := InsertSchedule(db, loanId, ids, rows).value;
    assert LoanInv(db, l) && LoanInv(db, loanId);
    if l == loanId {
      FirstRowIsUnpaid(db, loanId, ids, rows);
    } else {
      InsertScheduleRows(db, loanId, ids, rows);
      OtherLoanUntouched(db, t, l);
    }
  }

  lemma FirstRowIsUnpaid(db: Database, loanId: Uuid, ids: seq<Uuid>, rows: seq<Installment>)
    requires InsertSchedule(db, loanId, ids, rows).Success? && LoanInv(db, loanId)
    ensures !PaidByPollar(InsertSchedule(db, loanId, ids, rows).value.installments, loanId)
    ensures db.loans[loanId].status != LOAN_COMPLETED
  {
    var t := WithRows(db.installments, ids, rows);
    assert ids[0] in ids && t[ids[0]] == rows[0] && Fresh(rows[0], loanId);
  }

  lemma OtherLoanUntouched(db: Database, t: Database, l: Uuid)
    requires LoanInv(db, l) && t.loans == db.loans
    requires forall y <- db.installments :: y in t.installments && t.installments[y] == db.installments[y]
    requires forall y <- t.installments :: y !in db.installments ==> t.installments[y].loanId != l
    ensures LoanInv(t, l)
  {
    assert Scheduled(t.installments, l) ==> Scheduled(db.installments, l);
    assert AllPaid(db.installments, l) ==> AllPaid(t.installments, l);
    assert PaidByPollar(t.installments, l) ==> PaidByPollar(db.installments, l);
  }

  lemma GrowsTransitive(a: Database, b: Database, c: Database)
    requires Grows(a, b) && Grows(b, c)
    ensures Grows(a, c)
  {
    forall l: Uuid ensures LoanGrows(a, c, l) { assert LoanGrows(a, b, l) && LoanGrows(b, c, l); }
    forall x: Uuid ensures RowGrows(a, c, x) { assert RowGrows(a, b, x) && RowGrows(b, c, x); }
    forall i: Uuid ensures IntentGrows(a, c, i) { assert IntentGrows(a, b, i) && IntentGrows(b, c, i); }
  }
}
