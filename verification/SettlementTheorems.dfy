/** Money, settlement, rails and loan completion over every run of the protocol. */
module SettlementTheorems {
  import opened Wrappers
  import opened Values
  import R = Registry
  import opened SettlementDb
  import Decimal
  import Stellar
  import EvidenceCache
  import opened Protocol
  import opened ProtocolProofs
  import opened ProtocolTheorems

  // ---------- money

  /** A ledger operation is a USDC payment of exactly the intent's terms. */
  predicate PaysTerms(op: Stellar.Payment, t: Terms, hash: StellarHash) {
    && op.kind == "payment" && op.successful && op.txHash == hash
    && op.from == t.sender && op.to == t.recipient
    && op.assetType == "credit_alphanum4" && op.assetCode == "USDC" && op.assetIssuer == t.issuer
    && Decimal.Units(op.amount) == Some(t.amount * 100_000)
  }

  lemma BackedMeans(ledger: map<StellarHash, LedgerEntry>, t: Terms, hash: StellarHash)
    ensures Backed(ledger, t, hash) <==>
      && hash in ledger && ledger[hash].tx.hash == hash && ledger[hash].tx.successful
      && ledger[hash].tx.ledger > t.minLedger
      && exists k: nat :: k < |ledger[hash].ops| && PaysTerms(ledger[hash].ops[k], t, hash)
  {
    if hash in ledger {
      forall k: nat | k < |ledger[hash].ops|
        ensures PaysTerms(ledger[hash].ops[k], t, hash) <==>
          Stellar.Pays(ledger[hash].ops[k], hash, RouteOf(t), t.amount * 100_000) {}
    }
  }

  /**
   A settled intent is backed by one exact ledger payment, now and in every later state: a successful transaction after
   the intent's ledger with a USDC payment of its issuer, from its sender to its recipient, over its amount. Its receipt
   is a digest of its own terms and this hash, and its time is the ledger's.
   */
  lemma {:induction false} SettledIsBacked(s: State, i: Uuid, later: seq<Event>)
    requires Reachable(s) && i in s.db.intents && s.db.intents[i].status != CREATED
    ensures var r := s.db.intents[i];
            && r.txHash.Some?
            && var t, hash, ledger := r.terms, r.txHash.value, Run(s, later).ledger;
               && hash in ledger && ledger[hash].tx.hash == hash && ledger[hash].tx.successful
               && ledger[hash].tx.ledger > t.minLedger
               && (exists k: nat :: k < |ledger[hash].ops| && PaysTerms(ledger[hash].ops[k], t, hash))
               && r.receiptHash ==
                    Some(PollarReceipt(i, t.hskLoanId, t.number, t.sender, t.recipient, t.amount, t.issuer, hash))
               && r.paidAt == Some(ledger[hash].tx.createdAt)
  {
    ReachableIsSound(s);
    assert IntentInv(s.db, i) && IntentBacked(s, i);
    RunKeeps(s, later);
    var r := s.db.intents[i];
    BackedGrows(s.ledger, Run(s, later).ledger, r.terms, r.txHash.value);
    BackedMeans(Run(s, later).ledger, r.terms, r.txHash.value);
  }

  /** When a reported hash is confirmed for an intent, over the ledger's own fields: both directions. */
  lemma ConfirmedExactly(ledger: map<StellarHash, LedgerEntry>, t: Terms, hash: StellarHash)
    requires 0 < t.amount < 100_000_000_000
    ensures VerifyOn(ledger, t, hash).CONFIRMED? <==>
      && hash in ledger && ledger[hash].tx.hash == hash && ledger[hash].tx.successful
      && t.minLedger < ledger[hash].tx.ledger <= 0x1F_FFFF_FFFF_FFFF && -0x1F_FFFF_FFFF_FFFF <= ledger[hash].tx.ledger
      && exists k: nat ::
           && k < |ledger[hash].ops| && PaysTerms(ledger[hash].ops[k], t, hash)
           && Stellar.ReadableBefore(ledger[hash].ops, hash, RouteOf(t), k)
    ensures VerifyOn(ledger, t, hash).CONFIRMED? ==> VerifyOn(ledger, t, hash).at == ledger[hash].tx.createdAt
  {
    Decimal.PrintedCentsParse(t.amount);
    var amount := Decimal.PrintCents(t.amount);
    if hash in ledger {
      Stellar.VerifyIsExact(amount, hash, RouteOf(t), t.minLedger, Some(ledger[hash].tx), Some(ledger[hash].ops));
    } else {
      Stellar.VerifyIsExact(amount, hash, RouteOf(t), t.minLedger, None, None);
    }
  }

  lemma NoSharedPayment(s: State, i: Uuid, j: Uuid)
    requires Reachable(s) && i in s.db.intents && j in s.db.intents && i != j
    requires s.db.intents[i].status != CREATED && s.db.intents[j].status != CREATED
    ensures s.db.intents[i].txHash != s.db.intents[j].txHash
    ensures s.db.intents[i].receiptHash != s.db.intents[j].receiptHash
  {
    ReachableIsSound(s);
    assert IntentInv(s.db, i) && IntentInv(s.db, j) && IntentPair(s.db, i, j) && IntentBacked(s, i)
      && IntentBacked(s, j);
  }

  ghost predicate Distinct<T(!new)>(xs: seq<T>) {
    forall j, k :: 0 <= j < k < |xs| ==> xs[j] != xs[k]
  }

  ghost predicate AllSettled(db: Database, ids: seq<Uuid>) {
    forall k :: 0 <= k < |ids| ==> ids[k] in db.intents && db.intents[ids[k]].txHash.Some?
  }

  /** The installments' amounts, in ten-millionths of a USDC. */
  ghost function Credited(db: Database, ids: seq<Uuid>): nat
    requires AllSettled(db, ids)
  {
    if ids == [] then 0 else db.intents[ids[0]].terms.amount * 100_000 + Credited(db, ids[1..])
  }

  ghost function PaymentsOf(db: Database, ids: seq<Uuid>): (hashes: seq<StellarHash>)
    requires AllSettled(db, ids)
    ensures |hashes| == |ids|
    ensures forall k :: 0 <= k < |ids| ==> hashes[k] == db.intents[ids[k]].txHash.value
  {
    if ids == [] then [] else [db.intents[ids[0]].txHash.value] + PaymentsOf(db, ids[1..])
  }

  /**
   What the installments' transactions moved on the installments' own routes: sender, recipient and issuer all fixed.
   */
  ghost function Transferred(db: Database, ledger: map<StellarHash, LedgerEntry>, ids: seq<Uuid>): nat
    requires AllSettled(db, ids)
  {
    if ids == [] then 0
    else
      var r := db.intents[ids[0]];
      (if r.txHash.value in ledger then Stellar.TotalMoved(ledger[r.txHash.value].ops, r.txHash.value, RouteOf(r.terms))
        else 0)
      + Transferred(db, ledger, ids[1..])
  }

  /**
   Conservation: what any set of installments was credited never exceeds what their transactions, all distinct, moved
   from the intents' senders to the intents' recipients in USDC of the intents' issuers.
   */
  lemma CreditNeverExceedsTransfers(s: State, ids: seq<Uuid>)
    requires Reachable(s) && Distinct(ids) && AllSettled(s.db, ids)
    ensures Distinct(PaymentsOf(s.db, ids))
    ensures Credited(s.db, ids) <= Transferred(s.db, s.ledger, ids)
  {
    ReachableIsSound(s);
    PaymentsDiffer(s.db, ids);
    CreditIsCovered(s, ids);
  }

  lemma PaymentsDiffer(db: Database, ids: seq<Uuid>)
    requires Valid(db) && Distinct(ids) && AllSettled(db, ids)
    ensures Distinct(PaymentsOf(db, ids))
  {
    forall j, k | 0 <= j < k < |ids| ensures PaymentsOf(db, ids)[j] != PaymentsOf(db, ids)[k] {
      assert IntentPair(db, ids[j], ids[k]);
    }
  }

  lemma {:induction false} CreditIsCovered(s: State, ids: seq<Uuid>)
    requires Inv(s) && AllSettled(s.db, ids)
    ensures Credited(s.db, ids) <= Transferred(s.db, s.ledger, ids)
  {
    if ids != [] {
      CreditIsCovered(s, ids[1..]);
      assert IntentBacked(s, ids[0]);
      var r := s.db.intents[ids[0]];
      PaymentCovers(s.ledger, r.terms, r.txHash.value);
    }
  }

  lemma PaymentCovers(ledger: map<StellarHash, LedgerEntry>, t: Terms, hash: StellarHash)
    requires Backed(ledger, t, hash)
    ensures t.amount * 100_000 <= Stellar.TotalMoved(ledger[hash].ops, hash, RouteOf(t))
  {
    var ops := ledger[hash].ops;
    var k: nat :| k < |ops| && Stellar.Pays(ops[k], hash, RouteOf(t), t.amount * 100_000);
    Stellar.MatchIsCovered(ops, hash, RouteOf(t), k);
  }

  // ---------- settlement

  /** The first settlement fixes hash, receipt and paid time; the status only advances; the terms never change. */
  lemma {:induction false} SettlementIsFinal(s: State, i: Uuid, later: seq<Event>)
    requires Reachable(s) && i in s.db.intents
    ensures var r := s.db.intents[i];
            var t := Run(s, later).db;
            && i in t.intents && t.intents[i].terms == r.terms
            && Rank(r.status) <= Rank(t.intents[i].status)
            && (r.status != CREATED ==>
                  t.intents[i].txHash == r.txHash && t.intents[i].receiptHash == r.receiptHash
                    && t.intents[i].paidAt == r.paidAt)
  {
    ReachableIsSound(s);
    RunKeeps(s, later);
    assert IntentInv(s.db, i) && IntentGrows(s.db, Run(s, later).db, i);
  }

  datatype Claim = Claim(hash: StellarHash, receipt: Digest, paidAt: Instant)

  /** Replaying the settled payment changes nothing; anything else is refused. */
  lemma ReplayIsNoOp(db: Database, id: Uuid, c: Claim, d: Claim)
    requires Settle(db, id, c.hash, c.receipt, c.paidAt).Success?
    ensures var t := Settle(db, id, c.hash, c.receipt, c.paidAt).value;
            Settle(t, id, d.hash, d.receipt, d.paidAt) ==
            if d.hash == c.hash && d.receipt == c.receipt then Success(t) else Failure(CUOTA_YA_PAGADA)
  {
  }

  /** A run without any of the settlement calls for intent i. */
  function WithoutClaims(events: seq<Event>, i: Uuid): seq<Event> {
    if events == [] then []
    else if events[0].SettlePayment? && events[0].id == i then WithoutClaims(events[1..], i)
    else [events[0]] + WithoutClaims(events[1..], i)
  }

  lemma SettledRefuses(s: State, i: Uuid, hash: StellarHash, paidAt: Instant)
    requires i in s.db.intents && s.db.intents[i].status != CREATED
    ensures Step(s, SettlePayment(i, hash, paidAt)) == s
  {
  }

  /** The same over whole runs: once an intent is settled, its later settlement calls may be struck from any run. */
  lemma {:induction false} LaterClaimsDoNothing(s: State, i: Uuid, later: seq<Event>)
    requires Reachable(s) && i in s.db.intents && s.db.intents[i].status != CREATED
    ensures Run(s, later) == Run(s, WithoutClaims(later, i))
    ensures forall hash, paidAt :: Step(Run(s, later), SettlePayment(i, hash, paidAt)) == Run(s, later)
  {
    ReachableIsSound(s);
    ClaimsStruck(s, i, later);
  }

  lemma {:induction false} ClaimsStruck(s: State, i: Uuid, later: seq<Event>)
    requires Inv(s) && i in s.db.intents && s.db.intents[i].status != CREATED
    ensures Run(s, later) == Run(s, WithoutClaims(later, i))
    ensures forall hash, paidAt :: Step(Run(s, later), SettlePayment(i, hash, paidAt)) == Run(s, later)
    decreases |later|
  {
    if later == [] {
      forall hash, paidAt ensures Step(s, SettlePayment(i, hash, paidAt)) == s { SettledRefuses(s, i, hash, paidAt); }
    } else {
      var e, t := later[0], Step(s, later[0]);
      StepKeeps(s, e);
      assert IntentGrows(s.db, t.db, i);
      ClaimsStruck(t, i, later[1..]);
      if e.SettlePayment? && e.id == i {
        SettledRefuses(s, i, e.hash, e.paidAt);
      } else {
        assert WithoutClaims(later, i)[1..] == WithoutClaims(later[1..], i);
      }
    }
  }

  /** As long as an intent is not settled, its settlement calls so far were refused and may be struck as well. */
  lemma {:induction false} RefusedClaimsStruck(s: State, i: Uuid, before: seq<Event>)
    requires Inv(s) && (i in Run(s, before).db.intents ==> Run(s, before).db.intents[i].status == CREATED)
    ensures Run(s, before) == Run(s, WithoutClaims(before, i))
    decreases |before|
  {
    if before != [] {
      var e, t := before[0], Step(s, before[0]);
      StepKeeps(s, e);
      RefusedClaimsStruck(t, i, before[1..]);
      if e.SettlePayment? && e.id == i {
        RunKeeps(t, before[1..]);
        assert IntentGrows(t.db, Run(t, before[1..]).db, i);
        AcceptedClaimSettles(s, i, e.hash, e.paidAt);
      } else {
        assert WithoutClaims(before, i)[1..] == WithoutClaims(before[1..], i);
      }
    }
  }

  /** A settlement call either changes nothing or settles its intent with its hash. */
  lemma AcceptedClaimSettles(s: State, i: Uuid, hash: StellarHash, paidAt: Instant)
    ensures var t := Step(s, SettlePayment(i, hash, paidAt));
            t != s ==> i in t.db.intents && t.db.intents[i].status == VERIFIED && t.db.intents[i].txHash == Some(hash)
  {
  }

  /**
   Confluence over whole runs, whatever else happens in between: of all settlement calls for an intent only the first
   accepted one matters. The same run without any of the others ends in the same state, with that call's hash.
   */
  lemma {:induction false} FirstAcceptedClaimDecides(
      s: State, i: Uuid, before: seq<Event>, hash: StellarHash, paidAt: Instant, after: seq<Event>)
    requires Reachable(s)
    requires i in Run(s, before).db.intents ==> Run(s, before).db.intents[i].status == CREATED
    requires Step(Run(s, before), SettlePayment(i, hash, paidAt)) != Run(s, before)
    ensures var claim := SettlePayment(i, hash, paidAt);
            var t := Run(Step(Run(s, before), claim), after);
            && t == Run(Step(Run(s, WithoutClaims(before, i)), claim), WithoutClaims(after, i))
            && i in t.db.intents && t.db.intents[i].txHash == Some(hash)
  {
    ReachableIsSound(s);
    RefusedClaimsStruck(s, i, before);
    RunKeeps(s, before);
    var m := Run(s, before);
    var t := Step(m, SettlePayment(i, hash, paidAt));
    StepKeeps(m, SettlePayment(i, hash, paidAt));
    AcceptedClaimSettles(m, i, hash, paidAt);
    ClaimsStruck(t, i, after);
    RunKeeps(t, after);
    assert IntentGrows(t.db, Run(t, after).db, i);
  }

  /** A settled intent has exactly one verified candidate, its own hash; no queue ever exceeds five. */
  lemma CandidatesAgree(s: State, i: Uuid, hash: StellarHash)
    requires Reachable(s) && i in s.db.intents
    ensures (i, hash) in s.db.candidates && s.db.candidates[(i, hash)].status == CANDIDATE_VERIFIED <==>
      s.db.intents[i].txHash == Some(hash)
    ensures |PendingFor(s.db.candidates, i)| <= 5
  {
    ReachableIsSound(s);
    assert IntentInv(s.db, i) && CandidateInv(s.db, (i, hash)) && QueueInv(s.db, i);
  }

  // ---------- rails

  /** The rail of an installment, its payment state, its intent and its proof always tell one story. */
  lemma RailsExclude(s: State, x: Uuid)
    requires Reachable(s) && x in s.db.installments
    ensures var i := s.db.installments[x];
            && (i.rail == Some(POLLAR) <==> x in s.db.intentOf)
            && (x in s.db.intentOf ==>
                  && s.db.intentOf[x] in s.db.intents
                  && var r := s.db.intents[s.db.intentOf[x]];
                     && r.terms.installmentId == x && r.terms.amount == i.amount && r.terms.number == i.number
                     && (i.status == PAID <==> r.status != CREATED)
                     && (i.status == PAID ==>
                       i.receiptHash == r.receiptHash && i.pollarTxHash == r.txHash && i.paidDate == r.paidAt)
                     && (i.sync == SYNCED <==> r.status == ANCHORED))
            && (i.sync == SYNCED ==>
                  && Known(s.db, x) && 1 <= i.number <= |R.ProofsAt(s.registry, KeyOf(s.db, x))|
                  && i.receiptHash == Some(R.ProofsAt(s.registry, KeyOf(s.db, x))[i.number - 1].receiptHash)
                  && (R.ProofsAt(s.registry, KeyOf(s.db, x))[i.number - 1].isDigital <==> i.rail == Some(POLLAR)))
  {
    ReachableIsSound(s);
    assert RowInv(s.db, x) && RowOnChain(s, x);
  }

  lemma {:induction false} ReservedRailIsForEver(s: State, x: Uuid, later: seq<Event>)
    requires Reachable(s) && x in s.db.installments
    ensures var i := s.db.installments[x];
            x in Run(s, later).db.installments && var j := Run(s, later).db.installments[x];
            && j.loanId == i.loanId && j.number == i.number && j.amount == i.amount
            && (i.rail.Some? ==> j.rail == i.rail)
            && (i.status == PAID ==>
              j.status == PAID && j.receiptHash == i.receiptHash && j.paymentMethod == i.paymentMethod)
  {
    ReachableIsSound(s);
    RunKeeps(s, later);
    assert RowGrows(s.db, Run(s, later).db, x);
  }

  /** An installment shown as hsk_verified is PAID, and the chain holds its own receipt in its own place and kind. */
  lemma VerifiedFlagIsSettled(s: State, x: Uuid, evidence: EvidenceCache.Evidence)
    requires Reachable(s) && Known(s.db, x)
    requires EvidenceCache.Sound(s.registry, KeyOf(s.db, x), evidence)
    requires EvidenceCache.HskVerified(evidence, s.db.installments[x].number, s.db.installments[x].receiptHash)
    ensures var i, proofs := s.db.installments[x], R.ProofsAt(s.registry, KeyOf(s.db, x));
            && i.status == PAID && i.rail.Some?
            && 1 <= i.number <= |proofs| && i.receiptHash == Some(proofs[i.number - 1].receiptHash)
            && (proofs[i.number - 1].isDigital <==> i.rail == Some(POLLAR))
  {
    ReachableIsSound(s);
    var i := s.db.installments[x];
    EvidenceCache.VerifiedFlagIsProven(s.registry, KeyOf(s.db, x), evidence, i.number, i.receiptHash);
    assert RowInv(s.db, x) && RowOnChain(s, x);
  }

  // ---------- completion

  /** COMPLETED means that every installment is paid, and stays so. */
  lemma {:induction false} CompletedIsPaid(s: State, l: Uuid, later: seq<Event>)
    requires Reachable(s) && l in s.db.loans && s.db.loans[l].status == LOAN_COMPLETED
    ensures Scheduled(Run(s, later).db.installments, l) && AllPaid(Run(s, later).db.installments, l)
    ensures l in Run(s, later).db.loans && Run(s, later).db.loans[l].status == LOAN_COMPLETED
  {
    ReachableIsSound(s);
    RunKeeps(s, later);
    assert LoanGrows(s.db, Run(s, later).db, l) && LoanInv(Run(s, later).db, l);
  }

  /** For a scheduled loan without cash the two are equivalent in every reachable state. */
  lemma PollarLoanCompletes(s: State, l: Uuid)
    requires Reachable(s) && l in s.db.loans && Scheduled(s.db.installments, l) && NoCash(s.db, l)
    ensures s.db.loans[l].status == LOAN_COMPLETED <==> AllPaid(s.db.installments, l)
  {
    ReachableIsSound(s);
    assert LoanInv(s.db, l);
    if AllPaid(s.db.installments, l) {
      forall x | x in s.db.installments
          && s.db.installments[x].loanId == l ensures s.db.installments[x].rail == Some(POLLAR) {
        assert RowOnChain(s, x) && RowInv(s.db, x);
        assert s.db.installments[x].rail.value == CASH || s.db.installments[x].rail.value == POLLAR;
      }
    }
  }

  /** collectCash's own completion check closes any fully paid loan, whatever happens between its read and its write. */
  lemma {:induction false} CompletionCheckCloses(s: State, l: Uuid, between: seq<Event>, at: Instant)
    requires Reachable(s) && Scheduled(s.db.installments, l) && AllPaid(s.db.installments, l)
    ensures var t := Step(Run(Step(s, SeeAllPaid(l)), between), CloseLoan(l, at));
            l in t.db.loans && t.db.loans[l].status == LOAN_COMPLETED
  {
    SeenPaid(s, l);
    SawPaidStays(Step(s, SeeAllPaid(l)), between, l);
    SawPaidCloses(Run(Step(s, SeeAllPaid(l)), between), l, at);
  }

  lemma SeenPaid(s: State, l: Uuid)
    requires Reachable(s) && Scheduled(s.db.installments, l) && AllPaid(s.db.installments, l)
    ensures Inv(Step(s, SeeAllPaid(l))) && l in Step(s, SeeAllPaid(l)).sawPaid
  {
    ReachableIsSound(s);
    StepKeeps(s, SeeAllPaid(l));
  }

  lemma SawPaidCloses(s: State, l: Uuid, at: Instant)
    requires l in s.sawPaid && l in s.db.loans
    ensures var t := Step(s, CloseLoan(l, at)); l in t.db.loans && t.db.loans[l].status == LOAN_COMPLETED
  {
  }

  lemma {:induction false} SawPaidStays(s: State, events: seq<Event>, l: Uuid)
    requires Inv(s) && l in s.sawPaid
    ensures l in Run(s, events).sawPaid && l in Run(s, events).db.loans
  {
    RunKeeps(s, events);
    assert SawPaidAt(Run(s, events), l);
  }

  // A run of one cash loan of one installment, state by state.

  const CASH_LOAN: Loan := Loan(7, 20, 21, BOB, false, 1, LOAN_ACTIVE, None)
  const FIRST_ROW: Installment := Installment(10, 1, 500, PENDING, None, None, None, None, None, SYNC_PENDING)
  const CLAIMED_ROW: Installment := FIRST_ROW.(rail := Some(CASH))
  const RECEIPT: Digest := CashReceipt(7, 1, 500, 123456, 3)
  const REGISTERED: R.Storage :=
    R.Storage(map[7 := R.Loan(ZeroHash, OPERATOR, 3, 1, 0, 1, 0, R.ACTIVE)], map[], map[3 := [7]])
  const PROVEN: R.Storage :=
    R.Storage(map[7 := R.Loan(ZeroHash, OPERATOR, 3, 1, 1, 1, 2, R.COMPLETED)],
      map[7 := [R.Proof(RECEIPT, 1, 2, false, ZeroHash)]], map[3 := [7]])

  ghost function CashState(row: Installment, reg: R.Storage, txs: map<HskTx, Submission>, claimed: set<Uuid>): State {
    State(Database(map[10 := CASH_LOAN], map[11 := row], map[], map[], map[], map[]), map[], reg, R.EMPTY, 0, txs,
          map t | t in txs && txs[t].outcome == SUCCEEDED :: 0, {}, {}, {}, claimed, {})
  }

  /** A new loan as createLoan leaves it: registered on chain, its row and its one installment stored. */
  function Opened(loan: Loan): State {
    GENESIS.(registry := REGISTERED, db := EMPTY.(loans := map[10 := loan], installments := map[11 := FIRST_ROW]))
  }

  predicate IsFirstLoan(loan: Loan) {
    && loan.hskLoanId == 7 && loan.totalInstallments == 1 && loan.lenderId != loan.borrowerId
    && loan.status == LOAN_ACTIVE && loan.completedAt == None
  }

  lemma LoanOpens(loan: Loan)
    requires IsFirstLoan(loan)
    ensures Run(GENESIS, [ContractCall(R.RegisterCall(OPERATOR, 1, 7, ZeroHash, 3, 1)), InsertLoanRow(10, loan),
                          InsertScheduleRows(10, [11], [FIRST_ROW])]) == Opened(loan)
  {
    var a := Step(GENESIS, ContractCall(R.RegisterCall(OPERATOR, 1, 7, ZeroHash, 3, 1)));
    var r := R.Register(R.EMPTY, OPERATOR, 1, 7, ZeroHash, 3, 1).value;
    assert R.Listing(R.EMPTY, 3) + [7] == [7];
    assert r.loans == REGISTERED.loans && r.borrowerLoans == REGISTERED.borrowerLoans;
    assert a == GENESIS.(registry := REGISTERED);
    var b := Step(a, InsertLoanRow(10, loan));
    assert b == a.(db := EMPTY.(loans := map[10 := loan]));
    OneRowSchedule(b.db, loan);
    ThreeSteps(GENESIS, ContractCall(R.RegisterCall(OPERATOR, 1, 7, ZeroHash, 3, 1)), InsertLoanRow(10, loan),
      InsertScheduleRows(10, [11], [FIRST_ROW]));
  }

  lemma OneRowSchedule(db: Database, loan: Loan)
    requires db == EMPTY.(loans := map[10 := loan]) && loan.totalInstallments == 1
    ensures InsertSchedule(db, 10, [11], [FIRST_ROW]) == Success(db.(installments := map[11 := FIRST_ROW]))
  {
    assert [11][0] == 11 && [FIRST_ROW][0] == FIRST_ROW && 11 in [11];
    assert InsertSchedule(db, 10, [11], [FIRST_ROW]).Success?;
    var t := InsertSchedule(db, 10, [11], [FIRST_ROW]).value;
    assert t.installments == map[11 := FIRST_ROW] by {
      forall x ensures x in t.installments <==> x == 11 {}
      assert t.installments[[11][0]] == [FIRST_ROW][0];
    }
  }

  lemma LastProof()
    ensures R.Confirm(REGISTERED, OPERATOR, 2, 7, 1, RECEIPT, false, ZeroHash) == Success(PROVEN)
  {
    var r := R.Confirm(REGISTERED, OPERATOR, 2, 7, 1, RECEIPT, false, ZeroHash);
    assert R.ProofsAt(REGISTERED, 7) + [R.Proof(RECEIPT, 1, 2, false, ZeroHash)] ==
      [R.Proof(RECEIPT, 1, 2, false, ZeroHash)];
    assert r.Success? && r.value.loans == PROVEN.loans && r.value.loanProofs == PROVEN.loanProofs;
  }

  lemma ProvenCashRow()
    ensures Run(CashState(FIRST_ROW, REGISTERED, map[], {}),
      [Event.Claim(11), SubmitCash(50, 11, RECEIPT), Mine(50, 2)])
            == CashState(CLAIMED_ROW, PROVEN, map[50 := Submission(11, 7, 1, RECEIPT, false, ZeroHash, SUCCEEDED)],
              {11})
  {
    ClaimedCashRow();
    MinedCashRow();
    ThreeSteps(CashState(FIRST_ROW, REGISTERED, map[], {}), Event.Claim(11), SubmitCash(50, 11, RECEIPT), Mine(50, 2));
  }

  lemma MinedCashLoan()
    ensures var tx := Submission(11, 7, 1, RECEIPT, false, ZeroHash, SUCCEEDED);
            Reachable(CashState(CLAIMED_ROW, PROVEN, map[50 := tx], {11}))
  {
    var start := [ContractCall(R.RegisterCall(OPERATOR, 1, 7, ZeroHash, 3, 1)), InsertLoanRow(10, CASH_LOAN),
      InsertScheduleRows(10, [11], [FIRST_ROW])];
    var middle := [Event.Claim(11), SubmitCash(50, 11, RECEIPT), Mine(50, 2)];
    LoanOpens(CASH_LOAN);
    assert Opened(CASH_LOAN) == CashState(FIRST_ROW, REGISTERED, map[], {});
    ProvenCashRow();
    RunConcat(GENESIS, start, middle);
  }

  lemma ClaimedCashRow()
    ensures Step(CashState(FIRST_ROW, REGISTERED, map[], {}), Event.Claim(11)) ==
      CashState(CLAIMED_ROW, REGISTERED, map[], {11})
  {
    assert ClaimCash(CashState(FIRST_ROW, REGISTERED, map[], {}).db, 11).Success?;
  }

  lemma MinedCashRow()
    ensures Step(Step(CashState(CLAIMED_ROW, REGISTERED, map[], {11}), SubmitCash(50, 11, RECEIPT)), Mine(50, 2))
            == CashState(CLAIMED_ROW, PROVEN, map[50 := Submission(11, 7, 1, RECEIPT, false, ZeroHash, SUCCEEDED)],
              {11})
  {
    SubmittedCashRow();
    LastProof();
    var sent := map[50 := Submission(11, 7, 1, RECEIPT, false, ZeroHash, IN_POOL)];
    var t := Step(CashState(CLAIMED_ROW, REGISTERED, sent, {11}), Mine(50, 2));
    assert t.txs == map[50 := Submission(11, 7, 1, RECEIPT, false, ZeroHash, SUCCEEDED)];
    assert t.minedAt == map[50 := 0];
  }

  lemma SubmittedCashRow()
    ensures Step(CashState(CLAIMED_ROW, REGISTERED, map[], {11}), SubmitCash(50, 11, RECEIPT)) ==
      CashState(CLAIMED_ROW, REGISTERED, map[50 := Submission(11, 7, 1, RECEIPT, false, ZeroHash, IN_POOL)], {11})
  {
    var a := CashState(CLAIMED_ROW, REGISTERED, map[], {11});
    assert Step(a, SubmitCash(50, 11, RECEIPT)).txs ==
      map[50 := Submission(11, 7, 1, RECEIPT, false, ZeroHash, IN_POOL)];
  }

  /**
   For a loan with a cash installment the check is a separate step: a process that stops right after marking the
   last installment leaves a fully paid loan ACTIVE.
   */
  lemma CashCrashLeavesLoanOpen()
    ensures exists s: State, l: Uuid ::
      Reachable(s) && l in s.db.loans && Scheduled(s.db.installments, l) && AllPaid(s.db.installments, l)
        && s.db.loans[l].status == LOAN_ACTIVE
  {
    var s := CashState(CLAIMED_ROW, PROVEN, map[50 := Submission(11, 7, 1, RECEIPT, false, ZeroHash, SUCCEEDED)], {11});
    MinedCashLoan();
    var events: seq<Event> :| s == Run(GENESIS, events);
    RunConcat(GENESIS, events, [PayCash(50, 3)]);
    assert Run(s, [PayCash(50, 3)]) == Step(s, PayCash(50, 3));
    LastCashPayment(s);
    assert Reachable(Step(s, PayCash(50, 3)));
  }

  lemma LastCashPayment(s: State)
    requires s == CashState(CLAIMED_ROW, PROVEN, map[50 := Submission(11, 7, 1, RECEIPT, false, ZeroHash, SUCCEEDED)],
      {11})
    ensures var t := Step(s, PayCash(50, 3));
            && 10 in t.db.loans && t.db.loans[10].status == LOAN_ACTIVE
            && Scheduled(t.db.installments, 10) && AllPaid(t.db.installments, 10)
  {
    var t := Step(s, PayCash(50, 3));
    assert 11 in t.db.installments && t.db.installments[11].loanId == 10;
  }
}
