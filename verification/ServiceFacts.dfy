/** Facts a running service may rely on between two of its awaits: what it saw earlier still holds later. */
module ServiceFacts {
  import opened Wrappers
  import opened Values
  import R = Registry
  import opened SettlementDb
  import opened SettlementEffects
  import Decimal
  import Stellar
  import opened Protocol
  import opened ProtocolProofs
  import opened ProtocolTheorems
  import opened RailTheorems
  import opened Otp

  /** Whether each request of a call, counted from 0, is answered. */
  type Network = nat -> bool

  predicate Up(net: Network, from: nat, to: nat) {
    forall k :: from <= k < to ==> net(k)
  }

  // ---------- what a call knows about the world it left and came back to

  function At(h: seq<Event>): State {
    Run(GENESIS, h)
  }

  lemma {:induction false} WorldFollows(h: seq<Event>, k: seq<Event>)
    requires h <= k
    ensures Reachable(At(h)) && Inv(At(h)) && Inv(At(k)) && Follows(At(h), At(k))
  {
    GenesisIsSound();
    RunKeeps(GENESIS, h);
    assert k == h + k[|h|..];
    RunConcat(GENESIS, h, k[|h|..]);
    RunKeeps(At(h), k[|h|..]);
  }

  /** What is read for a queued intent is its own proof, and then that proof is there. */
  lemma {:induction false} FoundIsOwn(h: seq<Event>, r: Intent)
    requires r in At(h).snapshots
    requires R.FindProof(R.ProofsAt(At(h).previous, r.terms.hskLoanId), r.terms.number).Some?
    ensures Matches(R.FindProof(R.ProofsAt(At(h).previous, r.terms.hskLoanId), r.terms.number).value, r)
    ensures ProvenOn(At(h).previous, r)
  {
    WorldFollows(h, h);
    FoundMatches(At(h), r);
    FoundIsThere(At(h), r);
  }

  lemma FoundIsThere(s: State, r: Intent)
    requires R.Valid(s.registry) && R.Extends(s.previous, s.registry)
    requires var found := R.FindProof(R.ProofsAt(s.previous, r.terms.hskLoanId), r.terms.number);
             found.Some? && Matches(found.value, r)
    ensures ProvenOn(s.previous, r)
  {
    var key := r.terms.hskLoanId;
    assert R.ProofsAt(s.previous, key) <= R.ProofsAt(s.registry, key);
    if key in s.registry.loans { assert R.LoanValid(s.registry.loans[key], R.ProofsAt(s.registry, key)); }
    R.FoundProof(R.ProofsAt(s.previous, key), r.terms.number, 0);
  }

  /** A proof a block deep stays so, and reading by number finds it. */
  lemma {:induction false} DeepProofIsFound(h: seq<Event>, k: seq<Event>, r: Intent)
    requires h <= k && ProvenOn(At(h).previous, r)
    ensures ProvenOn(At(k).previous, r)
    ensures R.FindProof(R.ProofsAt(At(k).previous, r.terms.hskLoanId), r.terms.number).Some?
  {
    WorldFollows(h, k);
    ProofGrows(At(h).previous, At(k).previous, r.terms.hskLoanId, r.terms.number, r.receiptHash.value, true,
      ExternalHash(r.txHash.value));
    OwnProofIsFound(At(k), r);
  }

  lemma {:induction false} ViewLasts(h: seq<Event>, k: seq<Event>)
    requires h <= k
    ensures R.Extends(At(h).previous, At(k).previous)
  {
    WorldFollows(h, k);
  }

  /** What was found in an older view is the intent's own proof, and is still found. */
  lemma {:induction false} FoundLater(h: seq<Event>, k: seq<Event>, r: Intent)
    requires h <= k && r in At(h).snapshots
    requires R.FindProof(R.ProofsAt(At(h).previous, r.terms.hskLoanId), r.terms.number).Some?
    ensures Matches(R.FindProof(R.ProofsAt(At(h).previous, r.terms.hskLoanId), r.terms.number).value, r)
    ensures ProvenOn(At(k).previous, r) && r in At(k).snapshots
    ensures var found := R.FindProof(R.ProofsAt(At(k).previous, r.terms.hskLoanId), r.terms.number);
            found.Some? && Matches(found.value, r)
  {
    FoundIsOwn(h, r);
    DeepProofIsFound(h, k, r);
    LearntLasts(h, k);
    FoundIsOwn(k, r);
  }

  /** The sequence check fails only for an intent whose own proof is already at the head of the chain. */
  lemma {:induction false} OutOfSequenceIsProven(h: seq<Event>, r: Intent)
    requires r in At(h).snapshots
    requires var loan := R.LoanAt(At(h).registry, r.terms.hskLoanId);
             loan.lender != OPERATOR || loan.paidInstallments + 1 != r.terms.number
    ensures ProvenOn(At(h).registry, r)
  {
    WorldFollows(h, h);
    assert SnapshotAt(At(h), r);
    ProvenOrNext(At(h), r.terms.id);
  }

  lemma {:induction false} SettledLasts(h: seq<Event>, k: seq<Event>, i: Uuid)
    requires h <= k && i in At(h).db.intents
    ensures i in At(k).db.intents && At(k).db.intents[i].terms == At(h).db.intents[i].terms
    ensures Rank(At(h).db.intents[i].status) <= Rank(At(k).db.intents[i].status)
    ensures At(h).db.intents[i].txHash.Some? ==> At(k).db.intents[i].txHash == At(h).db.intents[i].txHash
  {
    WorldFollows(h, k);
    assert IntentGrows(At(h).db, At(k).db, i);
  }

  /** What decides a verdict never changes once the ledger shows the transaction, so a refusal is final. */
  lemma {:induction false} EvidenceIsFinal(h: seq<Event>, k: seq<Event>, i: Uuid, hash: StellarHash)
    requires h <= k && i in At(h).db.intents && hash in At(h).ledger
    ensures i in At(k).db.intents && At(k).db.intents[i].terms == At(h).db.intents[i].terms
    ensures EntryAt(At(k).ledger, hash) == EntryAt(At(h).ledger, hash)
  {
    LedgerLasts(h, k, hash);
    SettledLasts(h, k, i);
  }

  lemma {:induction false} KnownLasts(h: seq<Event>, k: seq<Event>, x: Uuid)
    requires h <= k && x in At(h).db.installments
    ensures Known(At(h).db, x) && Known(At(k).db, x) && KeyOf(At(k).db, x) == KeyOf(At(h).db, x)
    ensures Later(At(h).db.installments[x], At(k).db.installments[x])
  {
    WorldFollows(h, k);
    assert RowInv(At(h).db, x);
    KeyGrows(At(h).db, At(k).db, x);
  }

  /** Lender and borrower of a row's loan never change. */
  lemma {:induction false} OwnerLasts(h: seq<Event>, k: seq<Event>, x: Uuid, profile: Uuid)
    requires h <= k && x in At(h).db.installments
    ensures Known(At(h).db, x) && Known(At(k).db, x)
    ensures var a := At(h).db.loans[At(h).db.installments[x].loanId];
            var b := At(k).db.loans[At(k).db.installments[x].loanId];
            a.lenderId == b.lenderId && a.borrowerId == b.borrowerId
    ensures OwnRow(At(h).db, x, profile) <==> OwnRow(At(k).db, x, profile)
  {
    KnownLasts(h, k, x);
    WorldFollows(h, k);
    assert LoanGrows(At(h).db, At(k).db, At(h).db.installments[x].loanId);
  }

  lemma {:induction false} PaidLasts(h: seq<Event>, k: seq<Event>, l: Uuid)
    requires h <= k && PaidUp(At(h).db, l)
    ensures PaidUp(At(k).db, l)
  {
    WorldFollows(h, k);
    PaidUpLasts(At(h), At(k), l);
  }

  lemma {:induction false} TxLasts(h: seq<Event>, k: seq<Event>, t: HskTx)
    requires h <= k && t in At(h).txs
    ensures t in At(k).txs && At(k).txs[t] == At(h).txs[t].(outcome := At(k).txs[t].outcome)
    ensures At(h).txs[t].outcome != IN_POOL ==> At(k).txs[t].outcome == At(h).txs[t].outcome
  {
    WorldFollows(h, k);
  }

  lemma {:induction false} LearntLasts(h: seq<Event>, k: seq<Event>)
    requires h <= k
    ensures At(h).verified <= At(k).verified && At(h).snapshots <= At(k).snapshots && At(h).seen <= At(k).seen
    ensures At(h).claimed <= At(k).claimed && At(h).sawPaid <= At(k).sawPaid && At(h).txs.Keys <= At(k).txs.Keys
  {
    WorldFollows(h, k);
  }

  lemma MarkOutcome(db: Database, i: Uuid, hskTx: Option<HskTx>)
    requires i in db.intents && db.intents[i].status != CREATED
    ensures var t := MarkAnchored(db, i, hskTx);
            && t.Success? && i in t.value.intents && t.value.intents[i].status == ANCHORED
            && t.value.intents[i].terms == db.intents[i].terms
            && t.value.intents[i].txHash == db.intents[i].txHash
            && t.value.intents[i].receiptHash == db.intents[i].receiptHash
  {
  }

  /** Closing an intent whose proof was seen always succeeds. */
  lemma {:induction false} ClosedIsAnchored(h: seq<Event>, i: Uuid, hskTx: Option<HskTx>)
    requires i in At(h).seen
    ensures var t := Step(At(h), CloseIntent(i, hskTx));
            i in t.db.intents && t.db.intents[i].status == ANCHORED && ProvenOn(t.registry, t.db.intents[i])
  {
    LearntIsTrue(h, i);
    MarkOutcome(At(h).db, i, hskTx);
  }

  lemma VerifyOutcome(s: State, id: Uuid, hash: StellarHash)
    requires id in s.db.intents && VerifyOn(s.ledger, s.db.intents[id].terms, hash).CONFIRMED?
    ensures var t := Step(s, VerifyPayment(id, hash));
            t.db == s.db && (id, hash, VerifyOn(s.ledger, s.db.intents[id].terms, hash).at) in t.verified
  {
  }

  lemma SeeOutcome(s: State, r: Intent)
    requires r in s.snapshots
    requires var found := R.FindProof(R.ProofsAt(s.previous, r.terms.hskLoanId), r.terms.number);
             found.Some? && Matches(found.value, r)
    ensures var t := Step(s, SeeProof(r));
            r.terms.id in t.seen && t.previous == s.previous && t.snapshots == s.snapshots
  {
  }

  lemma ReadOutcome(s: State, id: Uuid)
    requires id in s.db.intents && s.db.intents[id].status == VERIFIED
    ensures s.db.intents[id] in Step(s, ReadQueue(id)).snapshots
  {
  }

  lemma ClaimOutcome(s: State, x: Uuid)
    ensures var t := Step(s, Event.Claim(x));
            if ClaimCash(s.db, x).Success?
            then x in t.claimed && s.db.installments[x].rail in {None, Some(CASH)}
            else t == s && (x in s.db.installments ==>
                              s.db.installments[x].status == PAID || s.db.installments[x].rail == Some(POLLAR))
  {
    ClaimCashEffect(s.db, x);
  }

  lemma SubmitOutcome(s: State, tx: HskTx, x: Uuid, receipt: Digest)
    requires Known(s.db, x) && tx !in s.txs && x in s.claimed && s.db.installments[x].number < 0x1_0000
    requires OwnReceipt(receipt, KeyOf(s.db, x), s.db.installments[x].number)
    ensures var t := Step(s, SubmitCash(tx, x, receipt));
            && t.db == s.db && tx in t.txs
            && t.txs[tx] == Submission(x, KeyOf(s.db, x), s.db.installments[x].number, receipt, false, ZeroHash,
                 IN_POOL)
  {
  }

  lemma SawOutcome(s: State, loanId: Uuid)
    ensures PaidUp(s.db, loanId) ==> loanId in Step(s, SeeAllPaid(loanId)).sawPaid
  {
  }

  lemma PayOutcome(s: State, tx: HskTx, at: Instant)
    requires tx in s.txs && s.txs[tx].outcome == SUCCEEDED && !s.txs[tx].digital
    requires MarkCashPaid(s.db, s.txs[tx].origin, s.txs[tx].receipt, at).Success?
    ensures var t := Step(s, PayCash(tx, at));
            t.txs == s.txs && PaidInCash(s.db, t.db, s.txs[tx].origin, s.txs[tx].receipt, at)
  {
    MarkCashPaidEffect(s.db, s.txs[tx].origin, s.txs[tx].receipt, at);
  }

  /** The UPDATE behind a mined confirmation passes trigger and index, the first time and again. */
  lemma {:induction false} CashUpdatePasses(h: seq<Event>, tx: HskTx, at: Instant)
    requires tx in At(h).txs && At(h).txs[tx].outcome == SUCCEEDED && !At(h).txs[tx].digital
    ensures MarkCashPaid(At(h).db, At(h).txs[tx].origin, At(h).txs[tx].receipt, at).Success?
  {
    WorldFollows(h, h);
    CashReceiptIsFree(At(h), tx);
    PaidByOwnReceipt(At(h), tx);
  }

  /** A PAID row behind a mined cash confirmation was paid by it. */
  lemma PaidByOwnReceipt(s: State, tx: HskTx)
    requires Reachable(s) && Inv(s) && tx in s.txs && s.txs[tx].outcome == SUCCEEDED && !s.txs[tx].digital
    ensures var x := s.txs[tx].origin;
            && x in s.db.installments && s.db.installments[x].rail == Some(CASH)
            && (s.db.installments[x].status == PAID ==>
                  && s.db.installments[x].receiptHash == Some(s.txs[tx].receipt)
                  && s.db.installments[x].paymentMethod == Some(BY_CASH) && s.db.installments[x].pollarTxHash.None?)
  {
    var x := s.txs[tx].origin;
    assert TxAt(s, tx) && RowInv(s.db, x) && RowOnChain(s, x);
    if s.db.installments[x].status == PAID {
      PaidCashIsOnChain(s, x);
      PaidCashMethod(s.db.installments[x]);
    }
  }

  lemma PaidCashMethod(i: Installment)
    requires RowOk(i) && i.status == PAID && i.rail == Some(CASH)
    ensures i.paymentMethod == Some(BY_CASH) && i.pollarTxHash.None?
  {
    var m := i.paymentMethod.value;
    assert i.paymentMethod == Some(m) && (m == BY_CASH || m == BY_POLLAR_USDC);
  }

  /** The numbers of rows fit the contract's uint16. */
  lemma {:induction false} NumberFits(h: seq<Event>, x: Uuid)
    requires x in At(h).db.installments
    ensures Known(At(h).db, x) && 1 <= At(h).db.installments[x].number < 0x1_0000
  {
    WorldFollows(h, h);
    assert RowInv(At(h).db, x) && LoanInv(At(h).db, At(h).db.installments[x].loanId);
  }

  lemma {:induction false} IntentLasts(h: seq<Event>, k: seq<Event>, x: Uuid)
    requires h <= k
    ensures x in At(h).db.intentOf ==> x in At(k).db.intentOf && At(k).db.intentOf[x] == At(h).db.intentOf[x]
  {
    WorldFollows(h, k);
    assert RowGrows(At(h).db, At(k).db, x);
  }

  lemma {:induction false} IntentIsRow(h: seq<Event>, x: Uuid)
    requires x in At(h).db.intentOf
    ensures var db := At(h).db;
            && x in db.installments && db.intentOf[x] in db.intents
            && var t, i := db.intents[db.intentOf[x]].terms, db.installments[x];
               && t.installmentId == x && t.amount == i.amount && t.number == i.number && i.rail == Some(POLLAR)
               && i.loanId in db.loans && t.borrowerId == db.loans[i.loanId].borrowerId
  {
    WorldFollows(h, h);
    assert RowInv(At(h).db, x) && IntentInv(At(h).db, At(h).db.intentOf[x]);
  }

  /** What the row and its loan say when pollar_create_intent runs; the answer is the one intent of the row. */
  predicate HandedOut(before: Database, after: Database, id: Uuid, freshId: Uuid, x: Uuid, actor: Uuid,
      sender: Address, issuer: Address, ledger: int, now: Instant)
  {
    && x in after.intentOf && after.intentOf[x] == id
    && if x in before.intentOf
       then
         after == before && OwnRow(before, x, actor) && id in before.intents
           && before.intents[id].terms.sender == sender
       else id == freshId && OpenedIntent(before, after, id, x, actor, sender, issuer, ledger, CONTRACT, now)
  }

  lemma CreateOutcome(
        db: Database, id: Uuid, x: Uuid, actor: Uuid, sender: Address, issuer: Address, ledger: int, now: Instant)
    requires x in db.intentOf ==> db.intentOf[x] in db.intents
    ensures var r := CreateIntent(db, id, x, actor, sender, issuer, ledger, CONTRACT, now);
            if r.Success?
            then x in r.value.intentOf
                 && HandedOut(db, r.value, r.value.intentOf[x], id, x, actor, sender, issuer, ledger, now)
            else CreateRefused(db, id, x, actor, sender, ledger, r.error)
  {
    CreateIntentEffect(db, id, x, actor, sender, issuer, ledger, CONTRACT, now);
  }

  lemma ChallengeTaken(desk: seq<DeskOp>, from: nat, k: nat, x: Uuid, code: nat, now: Instant)
    requires from <= k && |desk| == k + 1 && desk[k] == Take(x, code, now)
      && Accepted(RunDesk(map[], desk[..k]), x, code, now)
    ensures TookChallenge(desk, from, x, code, now)
  {
  }

  lemma ChallengeLacked(desk: seq<DeskOp>, from: nat, k: nat, x: Uuid, code: nat, now: Instant)
    requires from <= k && |desk| == k + 1 && desk[k] == Take(x, code, now)
    requires !Accepted(RunDesk(map[], desk[..k]), x, code, now)
    ensures LackedChallenge(desk, from, x, code, now, x in RunDesk(map[], desk[..k]))
  {
  }

  lemma TookLasts(a: seq<DeskOp>, b: seq<DeskOp>, from: nat, x: Uuid, code: nat, now: Instant)
    requires a <= b && TookChallenge(a, from, x, code, now)
    ensures TookChallenge(b, from, x, code, now)
  {
    var k :| from <= k < |a| && a[k] == Take(x, code, now) && Accepted(RunDesk(map[], a[..k]), x, code, now);
    assert b[..k] == a[..k] && b[k] == a[k];
  }

  lemma SettleOutcome(s: State, id: Uuid, hash: StellarHash, paidAt: Instant)
    requires (id, hash, paidAt) in s.verified && id in s.db.intents
    ensures var t := Step(s, SettlePayment(id, hash, paidAt));
            if Settle(s.db, id, hash, ReceiptOf(s.db.intents[id].terms, hash), paidAt).Success?
            then id in t.db.intents && t.db.intents[id].terms == s.db.intents[id].terms
              && t.db.intents[id].txHash == Some(hash)
            else t == s
  {
  }

  lemma RejectOutcome(s: State, id: Uuid, hash: StellarHash)
    ensures var t := Step(s, RejectCandidate(id, hash));
            && t.ledger == s.ledger && t.db.intents == s.db.intents
            && ((id, hash) in t.db.candidates ==> t.db.candidates[(id, hash)].status != CANDIDATE_PENDING)
  {
  }

  /** A submitted confirmation says exactly what the intent says. */
  predicate Carries(c: Submission, r: Intent) {
    && c.origin == r.terms.installmentId && c.key == r.terms.hskLoanId && c.number == r.terms.number && c.digital
    && r.receiptHash == Some(c.receipt) && r.txHash.Some? && c.external == ExternalHash(r.txHash.value)
  }

  /** After wait(2) the intent's own proof is a block deep. */
  lemma {:induction false} WaitedIsProven(h: seq<Event>, r: Intent, tx: HskTx)
    requires TwiceConfirmed(At(h), tx) && Carries(At(h).txs[tx], r)
    ensures ProvenOn(At(h).previous, r)
  {
    assert Reachable(At(h));
    TwiceConfirmedIsDeep(At(h), tx);
  }

  predicate CarriesCash(c: Submission, x: Uuid, receipt: Digest) {
    c.origin == x && !c.digital && c.receipt == receipt && c.external == ZeroHash
  }

  predicate IsCashReceipt(d: Digest, key: LoanKey, number: nat, amount: nat, code: nat, now: Instant) {
    d == Digest.CashReceipt(key, number, amount, code, now)
  }

  lemma AnchorOutcome(s: State, tx: HskTx, r: Intent)
    requires tx !in s.txs && r in s.snapshots && r.terms.number < 0x1_0000 && r.receiptHash.Some? && r.txHash.Some?
    ensures var t := Step(s, SubmitAnchor(tx, r)); tx in t.txs && Carries(t.txs[tx], r)
  {
  }

  /** A queued intent can be sent: its number fits, and it has a receipt and a hash. */
  lemma {:induction false} QueuedCanBeSent(h: seq<Event>, r: Intent)
    requires r in At(h).snapshots
    ensures r.terms.number < 0x1_0000 && r.receiptHash.Some? && r.txHash.Some?
  {
    WorldFollows(h, h);
    assert SnapshotAt(At(h), r) && IntentInv(At(h).db, r.terms.id) && RowInv(At(h).db, r.terms.installmentId);
    NumberFits(h, r.terms.installmentId);
  }

  predicate Below(xs: set<nat>, n: nat) {
    forall x <- xs :: x < n
  }

  lemma {:induction false} SomeBound(xs: set<nat>) returns (n: nat)
    ensures Below(xs, n)
    decreases |xs|
  {
    if xs == {} {
      n := 0;
    } else {
      var a :| a in xs;
      var m := SomeBound(xs - {a});
      n := if a < m then m else a + 1;
      forall x | x in xs ensures x < n {
        assert x == a || x in xs - {a};
      }
    }
  }

  /** There is always a transaction hash that was not used yet. */
  lemma SomeFreshHash(txs: map<HskTx, Submission>)
    ensures exists tx: HskTx :: tx !in txs
  {
    var n := SomeBound(txs.Keys);
    assert n !in txs.Keys;
    assert n !in txs;
  }

  lemma {:induction false} DeepIsMined(h: seq<Event>, r: Intent)
    requires ProvenOn(At(h).previous, r)
    ensures ProvenOn(At(h).registry, r)
  {
    WorldFollows(h, h);
    ProofGrows(At(h).previous, At(h).registry, r.terms.hskLoanId, r.terms.number, r.receiptHash.value, true,
      ExternalHash(r.txHash.value));
  }

  /** anchor's sequence check: the operator's loan is exactly one short of the intent. */
  predicate OneShort(reg: R.Storage, r: Intent) {
    R.LoanAt(reg, r.terms.hskLoanId).lender == OPERATOR
      && R.LoanAt(reg, r.terms.hskLoanId).paidInstallments + 1 == r.terms.number
  }

  /** It passes exactly for a queued intent whose proof is not mined yet. */
  lemma {:induction false} OneShortExactly(h: seq<Event>, r: Intent)
    requires r in At(h).snapshots
    ensures OneShort(At(h).registry, r) <==> !ProvenOn(At(h).registry, r)
  {
    WorldFollows(h, h);
    assert SnapshotAt(At(h), r);
    ProvenOrNext(At(h), r.terms.id);
    CountIsProofs(At(h).registry, r.terms.hskLoanId);
  }

  /** The chain's count of a loan never goes back. */
  lemma {:induction false} CountGrows(h: seq<Event>, k: seq<Event>, key: LoanKey)
    requires h <= k
    ensures R.LoanAt(At(h).registry, key).paidInstallments <= R.LoanAt(At(k).registry, key).paidInstallments
  {
    WorldFollows(h, k);
    CountIsProofs(At(h).registry, key);
    CountIsProofs(At(k).registry, key);
    assert R.ProofsAt(At(h).registry, key) <= R.ProofsAt(At(k).registry, key);
  }

  lemma CountIsProofs(reg: R.Storage, key: LoanKey)
    requires R.Valid(reg)
    ensures R.LoanAt(reg, key).paidInstallments == |R.ProofsAt(reg, key)|
  {
    if key in reg.loans { assert R.LoanValid(reg.loans[key], R.ProofsAt(reg, key)); }
  }

  /** assertReady refuses a row only for its place: the loan is the operator's, and ACTIVE if the row is next. */
  lemma {:induction false} NextIsReady(h: seq<Event>, x: Uuid)
    requires Known(At(h).db, x)
    ensures var loan := R.LoanAt(At(h).registry, KeyOf(At(h).db, x));
            && loan.createdAt != 0 && loan.lender == OPERATOR
            && (loan.paidInstallments + 1 == At(h).db.installments[x].number ==> loan.status == R.ACTIVE)
  {
    WorldFollows(h, h);
    var db, key := At(h).db, KeyOf(At(h).db, x);
    assert LoanLinked(At(h), db.installments[x].loanId) && RowInv(db, x);
    assert R.LoanValid(R.LoanAt(At(h).registry, key), R.ProofsAt(At(h).registry, key));
  }

  /** A closing call for a seen proof closes the intent, with the hash it was given or the stored one. */
  lemma {:induction false} CloseOutcome(h: seq<Event>, id: Uuid, hskTx: Option<HskTx>)
    requires id in At(h).seen
    ensures AnchorMarked(At(h).db, Step(At(h), CloseIntent(id, hskTx)).db, id, hskTx)
  {
    LearntIsTrue(h, id);
    MarkAnchoredEffect(At(h).db, id, hskTx);
  }

  // ---------- verdicts

  ghost predicate SettledFor(s: State, id: Uuid, hash: StellarHash) {
    && id in s.db.intents && s.db.intents[id].txHash == Some(hash)
    && s.db.intents[id].receiptHash == Some(ReceiptOf(s.db.intents[id].terms, hash))
    && Backed(s.ledger, s.db.intents[id].terms, hash)
  }

  ghost predicate RefusedFor(s: State, id: Uuid, hash: StellarHash) {
    id in s.db.intents && hash in s.ledger && VerifyOn(s.ledger, s.db.intents[id].terms, hash).REFUSED?
  }

  /** A payment once settled is settled with the same backing for ever, one once refused would be refused again. */
  lemma {:induction false} VerdictsLast(h: seq<Event>, k: seq<Event>, id: Uuid, hash: StellarHash)
    requires h <= k
    ensures SettledFor(At(h), id, hash) ==> SettledFor(At(k), id, hash)
    ensures RefusedFor(At(h), id, hash) ==> RefusedFor(At(k), id, hash)
  {
    if id in At(h).db.intents {
      SettledLasts(h, k, id);
      if SettledFor(At(h), id, hash) { SettledIsPaid(k, id); }
      if hash in At(h).ledger { LedgerLasts(h, k, hash); }
    }
  }

  /** The ledger confirms the payment of an intent. */
  predicate ConfirmedBy(s: State, id: Uuid, hash: StellarHash) {
    id in s.db.intents && VerifyOn(s.ledger, s.db.intents[id].terms, hash).CONFIRMED?
  }

  lemma {:induction false} ConfirmedLasts(h: seq<Event>, k: seq<Event>, id: Uuid, hash: StellarHash)
    requires h <= k && ConfirmedBy(At(h), id, hash)
    ensures hash in At(h).ledger && ConfirmedBy(At(k), id, hash)
  {
    ConfirmedIsShown(At(h).ledger, At(h).db.intents[id].terms, hash);
    EvidenceIsFinal(h, k, id, hash);
  }

  lemma ConfirmedIsShown(ledger: map<StellarHash, LedgerEntry>, t: Terms, hash: StellarHash)
    requires VerifyOn(ledger, t, hash).CONFIRMED?
    ensures hash in ledger
  {
  }

  /** A verified hash carries the ledger's time. */
  lemma {:induction false} VerifiedTime(h: seq<Event>, id: Uuid, hash: StellarHash, at: Instant)
    requires (id, hash, at) in At(h).verified
    ensures hash in At(h).ledger && At(h).ledger[hash].tx.createdAt == at
  {
    WorldFollows(h, h);
    assert VerifiedAt(At(h), (id, hash, at));
  }

  lemma {:induction false} LedgerLasts(h: seq<Event>, k: seq<Event>, hash: StellarHash)
    requires h <= k && hash in At(h).ledger
    ensures hash in At(k).ledger && At(k).ledger[hash] == At(h).ledger[hash]
  {
    WorldFollows(h, k);
  }

  /**
   Why pollar_settle refuses a verified hash: the intent was settled with another one, its report is not pending any
   more, or another intent was settled with this one.
   */
  ghost predicate SettleRefused(s: State, id: Uuid, hash: StellarHash) {
    && id in s.db.intents
    && ((s.db.intents[id].status != CREATED && s.db.intents[id].txHash != Some(hash))
        || (s.db.intents[id].status == CREATED
            && ((id, hash) !in s.db.candidates || s.db.candidates[(id, hash)].status != CANDIDATE_PENDING))
        || (exists j: Uuid :: j in s.db.intents && j != id && s.db.intents[j].txHash == Some(hash)))
  }

  lemma {:induction false} RefusalHasReason(h: seq<Event>, id: Uuid, hash: StellarHash, at: Instant)
    requires id in At(h).db.intents
    requires Settle(At(h).db, id, hash, ReceiptOf(At(h).db.intents[id].terms, hash), at).Failure?
    ensures SettleRefused(At(h), id, hash)
  {
    WorldFollows(h, h);
    var db, receipt := At(h).db, ReceiptOf(At(h).db.intents[id].terms, hash);
    var x := db.intents[id].terms.installmentId;
    assert IntentInv(db, id) && IntentBacked(At(h), id) && RowInv(db, x);
    if y :| y in db.installments && y != x && db.installments[y].receiptHash == Some(receipt) {
      NoOtherReceipt(h, id, y, receipt);
    }
    RefusalOfOpen(At(h), id, hash, receipt, at);
  }

  lemma RefusalOfOpen(s: State, id: Uuid, hash: StellarHash, receipt: Digest, at: Instant)
    requires id in s.db.intents && Settle(s.db, id, hash, receipt, at).Failure?
    requires var r := s.db.intents[id];
             && (r.status != CREATED && r.txHash == Some(hash) ==> r.receiptHash == Some(receipt))
             && r.terms.installmentId in s.db.installments && Mirrors(r, s.db.installments[r.terms.installmentId])
             && !ReceiptTaken(s.db.installments, r.terms.installmentId, receipt)
    ensures SettleRefused(s, id, hash)
  {
    SettleEffect(s.db, id, hash, receipt, at);
  }

  /** A receipt of the POLLAR rail names its intent, so no other row carries it. */
  lemma {:induction false} NoOtherReceipt(h: seq<Event>, id: Uuid, y: Uuid, receipt: Digest)
    requires id in At(h).db.intents && y in At(h).db.installments && y != At(h).db.intents[id].terms.installmentId
    requires receipt.PollarReceipt? && receipt.intentId == id
    ensures At(h).db.installments[y].receiptHash != Some(receipt)
  {
    WorldFollows(h, h);
    assert RowInv(At(h).db, y) && IntentInv(At(h).db, id);
    if At(h).db.installments[y].status == PAID { ReceiptsAreOwn(At(h), y); }
  }

  /** A confirmation names the installment it was signed for, and one that succeeded left its proof. */
  lemma {:induction false} SubmissionFacts(h: seq<Event>, t: HskTx)
    requires t in At(h).txs
    ensures var c := At(h).txs[t];
            && Known(At(h).db, c.origin) && c.key == KeyOf(At(h).db, c.origin)
            && c.number == At(h).db.installments[c.origin].number
            && (c.outcome == SUCCEEDED ==>
              ProofIs(At(h).registry, KeyOf(At(h).db, c.origin), c.number, c.receipt, c.digital, c.external))
  {
    WorldFollows(h, h);
    assert TxAt(At(h), t);
  }

  lemma {:induction false} SettledIsPaid(h: seq<Event>, i: Uuid)
    requires i in At(h).db.intents
    ensures var r := At(h).db.intents[i];
            (r.txHash.Some? ==>
              Backed(At(h).ledger, r.terms, r.txHash.value)
              && r.receiptHash == Some(ReceiptOf(r.terms, r.txHash.value)))
  {
    WorldFollows(h, h);
    assert IntentBacked(At(h), i);
  }

  lemma {:induction false} SettledIsNotCreated(h: seq<Event>, i: Uuid)
    requires i in At(h).db.intents && At(h).db.intents[i].txHash.Some?
    ensures At(h).db.intents[i].status != CREATED
  {
    WorldFollows(h, h);
    assert IntentInv(At(h).db, i);
  }

  /**
   What workers have learnt is so: a seen proof is there, a claimed row is cash, a loan seen paid exists, an intent is
   its own.
   */
  lemma {:induction false} LearntIsTrue(h: seq<Event>, i: Uuid)
    ensures i in At(h).seen ==>
      i in At(h).db.intents && At(h).db.intents[i].status != CREATED && ProvenOn(At(h).registry, At(h).db.intents[i])
    ensures i in At(h).claimed ==> Known(At(h).db, i) && At(h).db.installments[i].rail == Some(CASH)
    ensures i in At(h).sawPaid ==> i in At(h).db.loans
    ensures i in At(h).db.intents ==>
      At(h).db.intents[i].terms.id == i && 0 < At(h).db.intents[i].terms.amount < INTENT_AMOUNT_LIMIT
  {
    WorldFollows(h, h);
    assert SeenAt(At(h), i) && IntentInv(At(h).db, i) && ClaimedAt(At(h), i) && SawPaidAt(At(h), i);
  }

  lemma {:induction false} OnChainLasts(h: seq<Event>, k: seq<Event>, x: Uuid)
    requires h <= k && OnChain(At(h), x)
    ensures OnChain(At(k), x)
  {
    WorldFollows(h, k);
    KeyGrows(At(h).db, At(k).db, x);
    assert R.ProofsAt(At(h).registry, KeyOf(At(h).db, x)) <= R.ProofsAt(At(k).registry, KeyOf(At(h).db, x));
  }

  /** A confirmation sent for an installment that has its proof already is never mined with success. */
  lemma {:induction false} SentTooLate(h: seq<Event>, k: seq<Event>, x: Uuid, tx: HskTx)
    requires h <= k && OnChain(At(h), x) && !Succeeded(At(h), tx, x)
    ensures !Succeeded(At(k), tx, x)
  {
    WorldFollows(h, h);
    assert k == h + k[|h|..];
    RunConcat(GENESIS, h, k[|h|..]);
    LaterConfirmationsFail(At(h), k[|h|..], x, tx);
  }

  /** Own attempt k at the challenge was refused: none was stored, or it was late or the code another one. */
  predicate LackedChallenge(desk: seq<DeskOp>, from: nat, x: Uuid, code: nat, now: Instant, stored: bool) {
    exists k | from <= k < |desk| ::
      && desk[k] == Take(x, code, now)
      && var m := RunDesk(map[], desk[..k]);
         if stored then x in m && (now > m[x].expiresAt || code != m[x].otpCode) else x !in m
  }

  predicate TookChallenge(desk: seq<DeskOp>, from: nat, x: Uuid, code: nat, now: Instant) {
    exists k | from <= k < |desk| :: desk[k] == Take(x, code, now) && Accepted(RunDesk(map[], desk[..k]), x, code, now)
  }

  /** Verification asks for patience only about a transaction the ledger does not show. */
  lemma OnlyUnknownIsPending(ledger: map<StellarHash, LedgerEntry>, t: Terms, hash: StellarHash)
    requires VerifyOn(ledger, t, hash).NOT_INDEXED?
    ensures hash !in ledger
  {
    match EntryAt(ledger, hash)
    case None =>
    case Some(e) =>
      Stellar.OnlyUnknownIsPending(Decimal.PrintCents(t.amount), hash, RouteOf(t), t.minLedger, Some(e.tx),
        Some(e.ops));
  }

  // ---------- the queue of anchor()

  predicate DueAnchor(db: Database, i: Uuid, now: Instant) {
    i in db.intents && db.intents[i].status == VERIFIED && db.intents[i].nextAttemptAt <= now
  }

  function DueAnchors(db: Database, now: Instant): set<Uuid> {
    set i <- db.intents | DueAnchor(db, i, now)
  }

  function DueCandidates(db: Database, now: Instant): set<(Uuid, StellarHash)> {
    set c <- db.candidates | db.candidates[c].status == CANDIDATE_PENDING && db.candidates[c].nextAttemptAt <= now
  }

  /** ORDER BY created_at: some due candidate is the oldest. */
  lemma {:induction false} OldestInQueue(db: Database, due: set<(Uuid, StellarHash)>)
    requires due != {} && forall c <- due :: c in db.candidates
    ensures exists c :: c in due && forall d <- due :: db.candidates[c].createdAt <= db.candidates[d].createdAt
    decreases |due|
  {
    var a :| a in due;
    var rest := due - {a};
    if rest == {} {
      assert due == {a};
    } else {
      OldestInQueue(db, rest);
      var b :| b in rest && forall d <- rest :: db.candidates[b].createdAt <= db.candidates[d].createdAt;
      var m := if db.candidates[a].createdAt <= db.candidates[b].createdAt then a else b;
      assert m in due && forall d <- due :: db.candidates[m].createdAt <= db.candidates[d].createdAt;
    }
  }

  /** ORDER BY installment_number: some due intent has the least number. */
  lemma {:induction false} FirstInQueue(db: Database, ids: set<Uuid>)
    requires ids != {} && forall i <- ids :: i in db.intents
    ensures exists i :: i in ids && forall j <- ids :: db.intents[i].terms.number <= db.intents[j].terms.number
    decreases |ids|
  {
    var a :| a in ids;
    var rest := ids - {a};
    if rest == {} {
      assert ids == {a};
    } else {
      FirstInQueue(db, rest);
      var b :| b in rest && forall j <- rest :: db.intents[b].terms.number <= db.intents[j].terms.number;
      var m := if db.intents[a].terms.number <= db.intents[b].terms.number then a else b;
      assert m in ids && forall j <- ids :: db.intents[m].terms.number <= db.intents[j].terms.number;
    }
  }
}
