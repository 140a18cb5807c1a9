/** What the settlement protocol guarantees in every reachable state and over every run. */
module ProtocolTheorems {
  import opened Wrappers
  import opened Values
  import R = Registry
  import opened SettlementDb
  import opened Protocol
  import opened ProtocolProofs

  ghost predicate Reachable(s: State) {
    exists events: seq<Event> :: s == Run(GENESIS, events)
  }

  lemma ReachableIsSound(s: State)
    requires Reachable(s)
    ensures Inv(s)
  {
    GenesisIsSound();
    var events: seq<Event> :| s == Run(GENESIS, events);
    RunKeeps(GENESIS, events);
  }

  // ---------- cross-store agreement

  /** Every proof of an operator loan belongs to exactly one installment, whose rail is reserved and fits the proof. */
  lemma EveryProofIsReserved(s: State, l: Uuid, k: nat)
    requires Reachable(s) && l in s.db.loans
    requires 1 <= k <= |R.ProofsAt(s.registry, s.db.loans[l].hskLoanId)|
    ensures exists x ::
      && IsRow(s.db, x, s.db.loans[l].hskLoanId, k)
      && var p := R.ProofsAt(s.registry, s.db.loans[l].hskLoanId)[k - 1];
         && s.db.installments[x].rail.Some?
         && (p.isDigital <==> s.db.installments[x].rail == Some(POLLAR))
         && Agrees(s.db, x, p.receiptHash, p.isDigital, p.externalTxHash)
  {
    ReachableIsSound(s);
    var key := s.db.loans[l].hskLoanId;
    assert LoanLinked(s, l) && Attributed(s, key, k);
    var x :| IsRow(s.db, x, key, k);
    assert RowOnChain(s, x);
  }

  /** So does every confirmation ever submitted, whether pending, mined or reverted. */
  lemma EverySubmissionIsReserved(s: State, h: HskTx)
    requires Reachable(s) && h in s.txs
    ensures var c := s.txs[h];
            && IsRow(s.db, c.origin, c.key, c.number)
            && s.db.installments[c.origin].rail.Some?
            && (c.digital <==> s.db.installments[c.origin].rail == Some(POLLAR))
            && Agrees(s.db, c.origin, c.receipt, c.digital, c.external)
  {
    ReachableIsSound(s);
    assert TxAt(s, h);
  }

  // ---------- anchoring

  /** The chain has reached the installment of every intent: all earlier ones are proven. */
  lemma ChainReachesIntent(s: State, i: Uuid)
    requires Inv(s) && i in s.db.intents
    ensures |R.ProofsAt(s.registry, s.db.intents[i].terms.hskLoanId)| >= s.db.intents[i].terms.number - 1
  {
    var t := s.db.intents[i].terms;
    assert IntentInv(s.db, i) && RowInv(s.db, t.installmentId);
    if t.number > 1 {
      assert Covered(s, t.loanId, t.number - 1);
      var y :| y in s.db.installments && s.db.installments[y].loanId == t.loanId
        && s.db.installments[y].number == t.number - 1;
      assert RowOnChain(s, y);
    }
  }

  /** The chain is never past an intent without its exact proof, and never short of it. */
  lemma ProvenOrNext(s: State, i: Uuid)
    requires Inv(s) && i in s.db.intents
    ensures var r := s.db.intents[i];
            var chain := R.LoanAt(s.registry, r.terms.hskLoanId);
            || ProvenOn(s.registry, r)
            || (chain.status == R.ACTIVE && chain.lender == OPERATOR && chain.paidInstallments == r.terms.number - 1)
  {
    var r := s.db.intents[i];
    var t := r.terms;
    ChainReachesIntent(s, i);
    assert IntentInv(s.db, i) && RowInv(s.db, t.installmentId) && LoanLinked(s, t.loanId)
      && RowOnChain(s, t.installmentId);
    assert R.LoanValid(R.LoanAt(s.registry, t.hskLoanId), R.ProofsAt(s.registry, t.hskLoanId));
  }

  /**
   Anchoring never wedges. A settled intent already has its exact proof on chain, or the contract would accept
   its confirmation in this very state.
   */
  lemma AnchoringNeverWedges(s: State, i: Uuid, now: nat)
    requires Reachable(s) && i in s.db.intents && s.db.intents[i].status != CREATED
    ensures var r := s.db.intents[i];
            || ProvenOn(s.registry, r)
            || (r.terms.number < 0x1_0000 && r.receiptHash.Some? && r.txHash.Some?
                && R.Confirm(s.registry, OPERATOR, now, r.terms.hskLoanId, r.terms.number, r.receiptHash.value, true,
                  ExternalHash(r.txHash.value)).Success?)
  {
    ReachableIsSound(s);
    ProvenOrNext(s, i);
    var t := s.db.intents[i].terms;
    assert IntentInv(s.db, i) && RowInv(s.db, t.installmentId) && LoanLinked(s, t.loanId);
    assert R.LoanValid(R.LoanAt(s.registry, t.hskLoanId), R.ProofsAt(s.registry, t.hskLoanId));
  }

  /** What anchor reads for its installment is its own proof: the "another receipt" conflict cannot be reached. */
  lemma NoForeignReceipt(s: State, r: Intent)
    requires Reachable(s) && r in s.snapshots
    requires R.FindProof(R.ProofsAt(s.previous, r.terms.hskLoanId), r.terms.number).Some?
    ensures Matches(R.FindProof(R.ProofsAt(s.previous, r.terms.hskLoanId), r.terms.number).value, r)
  {
    ReachableIsSound(s);
    FoundMatches(s, r);
  }

  lemma FoundMatches(s: State, r: Intent)
    requires Inv(s) && r in s.snapshots
    requires R.FindProof(R.ProofsAt(s.previous, r.terms.hskLoanId), r.terms.number).Some?
    ensures Matches(R.FindProof(R.ProofsAt(s.previous, r.terms.hskLoanId), r.terms.number).value, r)
  {
    FoundIsProven(s, r.terms.hskLoanId, r.terms.number);
    assert SnapshotAt(s, r) && IntentInv(s.db, r.terms.id) && RowInv(s.db, r.terms.installmentId)
      && RowOnChain(s, r.terms.installmentId);
  }

  /** ANCHORED is never claimed without the exact proof, now and ever after. */
  lemma {:induction false} AnchoredIsProven(s: State, i: Uuid, later: seq<Event>)
    requires Reachable(s) && i in s.db.intents && s.db.intents[i].status == ANCHORED
    ensures ProvenOn(s.registry, s.db.intents[i])
    ensures i in Run(s, later).db.intents && Run(s, later).db.intents[i].status == ANCHORED
    ensures ProvenOn(Run(s, later).registry, s.db.intents[i])
  {
    ReachableIsSound(s);
    AnchoredProven(s, i);
    RunKeeps(s, later);
    var t := Run(s, later);
    var r := s.db.intents[i];
    assert IntentGrows(s.db, t.db, i);
    ProofGrows(s.registry, t.registry, r.terms.hskLoanId, r.terms.number, r.receiptHash.value, true,
      ExternalHash(r.txHash.value));
  }

  lemma AnchoredProven(s: State, i: Uuid)
    requires Inv(s) && i in s.db.intents && s.db.intents[i].status == ANCHORED
    ensures ProvenOn(s.registry, s.db.intents[i])
  {
    var x := s.db.intents[i].terms.installmentId;
    assert IntentInv(s.db, i) && RowInv(s.db, x) && RowOnChain(s, x);
  }

  /** Once an installment is proven, every further confirmation of it reverts and changes no storage. */
  lemma LateConfirmationsRevert(s: State, h: HskTx, now: nat)
    requires Reachable(s) && h in s.txs && s.txs[h].outcome == IN_POOL && now > 0
    requires |R.ProofsAt(s.registry, s.txs[h].key)| >= s.txs[h].number
    ensures Step(s, Mine(h, now)).registry == s.registry
    ensures Step(s, Mine(h, now)).txs[h].outcome == REVERTED
  {
    ReachableIsSound(s);
    assert TxAt(s, h) && RowInv(s.db, s.txs[h].origin);
    var c := s.txs[h];
    TakenPlaceReverts(s.registry, now, c.key, c.number, c.receipt, c.digital, c.external);
  }

  lemma TakenPlaceReverts(
      reg: R.Storage, now: nat, key: LoanKey, number: uint16, receipt: Digest, digital: bool, external: Digest)
    requires R.Valid(reg) && 1 <= number <= |R.ProofsAt(reg, key)|
    ensures R.Confirm(reg, OPERATOR, now, key, number, receipt, digital, external).Failure?
  {
    assert key in reg.loanProofs && R.LoanValid(reg.loans[key], R.ProofsAt(reg, key));
  }

  /** A confirmation that succeeded is in its block; once another block has followed, its proof is a block deep. */
  ghost predicate MinedInv(s: State, h: HskTx) {
    h in s.minedAt ==>
      && h in s.txs && s.txs[h].outcome == SUCCEEDED && s.minedAt[h] <= s.height
      && var c := s.txs[h];
         s.minedAt[h] < s.height ==> ProofIs(s.previous, c.key, c.number, c.receipt, c.digital, c.external)
  }

  lemma MinedKept(s: State, e: Event, h: HskTx)
    requires TxAt(s, h) && MinedInv(s, h)
    ensures MinedInv(Step(s, e), h)
  {
    match e
    case Mine(tx, now) => MineKeepsBlocks(s, tx, now, h);
    case NextBlock =>
    case _ =>
      OthersKeepBlocks(s, e);
      if h in s.txs { OthersKeepSent(s, e, h); }
  }

  lemma MineKeepsBlocks(s: State, tx: HskTx, now: nat, h: HskTx)
    requires MinedInv(s, h)
    ensures MinedInv(Step(s, Mine(tx, now)), h)
  {
  }

  lemma OthersKeepBlocks(s: State, e: Event)
    requires !e.Mine? && !e.NextBlock?
    ensures var t := Step(s, e); t.minedAt == s.minedAt && t.height == s.height && t.previous == s.previous
  {
  }

  lemma OthersKeepSent(s: State, e: Event, h: HskTx)
    requires !e.Mine? && h in s.txs
    ensures h in Step(s, e).txs && Step(s, e).txs[h] == s.txs[h]
  {
  }

  lemma {:induction false} MinedOverRun(s: State, events: seq<Event>, h: HskTx)
    requires Inv(s) && MinedInv(s, h)
    ensures MinedInv(Run(s, events), h)
    decreases |events|
  {
    if events != [] {
      StepKeeps(s, events[0]);
      assert TxAt(s, h);
      MinedKept(s, events[0], h);
      MinedOverRun(Step(s, events[0]), events[1..], h);
    }
  }

  /** After wait(2) the proof a transaction carries can be read one block below the head. */
  lemma TwiceConfirmedIsDeep(s: State, h: HskTx)
    requires Reachable(s) && TwiceConfirmed(s, h)
    ensures var c := s.txs[h]; ProofIs(s.previous, c.key, c.number, c.receipt, c.digital, c.external)
  {
    var events: seq<Event> :| s == Run(GENESIS, events);
    GenesisIsSound();
    MinedOverRun(GENESIS, events, h);
  }

  /** A proven installment keeps its one proof for ever, whatever is retried. */
  lemma {:induction false} OneProofPerInstallment(s: State, x: Uuid, later: seq<Event>)
    requires Reachable(s) && Known(s.db, x)
    requires s.db.installments[x].number <= |R.ProofsAt(s.registry, KeyOf(s.db, x))|
    ensures var k, key := s.db.installments[x].number, KeyOf(s.db, x);
            var after := R.ProofsAt(Run(s, later).registry, key);
            && 1 <= k <= |after| && after[k - 1] == R.ProofsAt(s.registry, key)[k - 1]
            && (forall j :: 0 <= j < |after| && after[j].installmentNumber == k ==> j == k - 1)
  {
    ReachableIsSound(s);
    RunKeeps(s, later);
    assert RowInv(s.db, x);
    ProofStays(s.registry, Run(s, later).registry, KeyOf(s.db, x), s.db.installments[x].number);
  }

  lemma ProofStays(a: R.Storage, b: R.Storage, key: LoanKey, k: nat)
    requires R.Extends(a, b) && R.Valid(b) && 1 <= k <= |R.ProofsAt(a, key)|
    ensures var after := R.ProofsAt(b, key);
            && k <= |after| && after[k - 1] == R.ProofsAt(a, key)[k - 1]
            && (forall j :: 0 <= j < |after| && after[j].installmentNumber == k ==> j == k - 1)
  {
    assert R.ProofsAt(a, key) <= R.ProofsAt(b, key);
    assert key in b.loanProofs && R.LoanValid(b.loans[key], R.ProofsAt(b, key));
  }

  /** A crash between chain success and the database update is repaired by reading: no new submission, no new proof. */
  lemma RepairWithoutSubmission(s: State, i: Uuid)
    requires Reachable(s) && i in s.db.intents && s.db.intents[i].status == VERIFIED
    requires ProvenOn(s.previous, s.db.intents[i])
    ensures var t := Run(s, [ReadQueue(i), SeeProof(s.db.intents[i]), CloseIntent(i, s.db.intents[i].hskTxHash)]);
            && t.txs == s.txs && t.registry == s.registry
            && i in t.db.intents && t.db.intents[i] == s.db.intents[i].(status := ANCHORED, anchorFailed := false)
  {
    var r := s.db.intents[i];
    DeepProofIsOwn(s, i);
    ReadThenSee(s, i);
    CloseSeen(s.(snapshots := s.snapshots + {r}, seen := s.seen + {i}), i);
    ThreeSteps(s, ReadQueue(i), SeeProof(r), CloseIntent(i, r.hskTxHash));
  }

  lemma ReadThenSee(s: State, i: Uuid)
    requires i in s.db.intents && s.db.intents[i].status == VERIFIED && s.db.intents[i].terms.id == i
    requires var r := s.db.intents[i];
             var found := R.FindProof(R.ProofsAt(s.previous, r.terms.hskLoanId), r.terms.number);
             found.Some? && Matches(found.value, r)
    ensures var r := s.db.intents[i];
            Step(Step(s, ReadQueue(i)), SeeProof(r)) == s.(snapshots := s.snapshots + {r}, seen := s.seen + {i})
  {
  }

  lemma CloseSeen(s: State, i: Uuid)
    requires i in s.seen && i in s.db.intents && s.db.intents[i].status == VERIFIED
    ensures var t := Step(s, CloseIntent(i, s.db.intents[i].hskTxHash));
            && t.txs == s.txs && t.registry == s.registry
            && i in t.db.intents && t.db.intents[i] == s.db.intents[i].(status := ANCHORED, anchorFailed := false)
  {
  }

  lemma DeepProofIsOwn(s: State, i: Uuid)
    requires Reachable(s) && i in s.db.intents && ProvenOn(s.previous, s.db.intents[i])
    ensures var r := s.db.intents[i];
            var found := R.FindProof(R.ProofsAt(s.previous, r.terms.hskLoanId), r.terms.number);
            r.terms.id == i && found.Some? && Matches(found.value, r)
  {
    ReachableIsSound(s);
    assert IntentInv(s.db, i);
    OwnProofIsFound(s, s.db.intents[i]);
  }

  lemma OneStep(s: State, a: Event)
    ensures Run(s, [a]) == Step(s, a)
  {
    assert [a][1..] == [];
  }

  lemma TwoSteps(s: State, a: Event, b: Event)
    ensures Run(s, [a, b]) == Step(Step(s, a), b)
  {
    assert [a, b][1..] == [b];
    assert Run(Step(s, a), [b]) == Step(Step(s, a), b);
  }

  lemma ThreeSteps(s: State, a: Event, b: Event, c: Event)
    ensures Run(s, [a, b, c]) == Step(Step(Step(s, a), b), c)
  {
    assert [a, b, c][1..] == [b, c] && [b, c][1..] == [c] && [c][1..] == [];
    assert Run(Step(Step(s, a), b), [c]) == Step(Step(Step(s, a), b), c);
  }

  /** Once the proof is a block deep, reading by number finds exactly it. */
  lemma OwnProofIsFound(s: State, r: Intent)
    requires Inv(s) && ProvenOn(s.previous, r)
    ensures R.FindProof(R.ProofsAt(s.previous, r.terms.hskLoanId), r.terms.number).Some?
    ensures Matches(R.FindProof(R.ProofsAt(s.previous, r.terms.hskLoanId), r.terms.number).value, r)
  {
    var key := r.terms.hskLoanId;
    assert R.ProofsAt(s.previous, key) <= R.ProofsAt(s.registry, key);
    assert key in s.registry.loanProofs && R.LoanValid(s.registry.loans[key], R.ProofsAt(s.registry, key));
    R.FoundProof(R.ProofsAt(s.previous, key), r.terms.number, 0);
  }

  // ---------- bounded lag

  /** A loan never has two intents that are not anchored yet. */
  lemma OneOpenIntentPerLoan(s: State, i: Uuid, j: Uuid)
    requires Reachable(s) && i in s.db.intents && j in s.db.intents && i != j
    requires s.db.intents[i].terms.loanId == s.db.intents[j].terms.loanId
    ensures s.db.intents[i].status == ANCHORED || s.db.intents[j].status == ANCHORED
  {
    ReachableIsSound(s);
    var x, y := s.db.intents[i].terms.installmentId, s.db.intents[j].terms.installmentId;
    assert IntentInv(s.db, i) && IntentInv(s.db, j) && RowInv(s.db, x) && RowInv(s.db, y) && RowPair(s.db, x, y);
  }

  ghost predicate NoCash(db: Database, l: Uuid) {
    forall x <- db.installments :: db.installments[x].loanId == l ==> db.installments[x].rail != Some(CASH)
  }

  ghost predicate PaidPrefix(db: Database, l: Uuid, m: nat) {
    forall x <- db.installments :: db.installments[x].loanId == l ==>
        (db.installments[x].status == PAID <==> db.installments[x].number <= m)
  }

  lemma PollarRowLag(s: State, x: Uuid)
    requires Inv(s) && Known(s.db, x) && s.db.installments[x].rail != Some(CASH)
    ensures var i, n := s.db.installments[x], |R.ProofsAt(s.registry, KeyOf(s.db, x))|;
            (i.number <= n ==> i.status == PAID) && (i.status == PAID ==> i.number <= n + 1)
  {
    assert RowInv(s.db, x) && RowOnChain(s, x);
    if x in s.db.intentOf {
      var i := s.db.intentOf[x];
      assert IntentInv(s.db, i);
      ChainReachesIntent(s, i);
      assert s.db.intents[i].terms.hskLoanId == KeyOf(s.db, x);
    } else {
      OnlyPollarIsLeft(s.db.installments[x]);
    }
  }

  lemma OnlyPollarIsLeft(i: Installment)
    requires i.rail != Some(CASH)
    ensures i.rail == None || i.rail == Some(POLLAR)
  {
    match i.rail
    case None =>
    case Some(rail) => assert rail == POLLAR || rail == CASH;
  }
}
