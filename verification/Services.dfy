/**
 The services as they run: `anchor`, `reconcile`, `tick` and `collectCash`, one call at a time, while at
 every await any number of other calls, other processes, miners and ledger closes may act.
 */
module Services {
  import opened Wrappers
  import opened Values
  import R = Registry
  import opened SettlementDb
  import Decimal
  import Stellar
  import opened Protocol
  import opened ProtocolProofs
  import opened SettlementTheorems
  import opened RailTheorems
  import opened Otp
  import opened ServiceFacts
  import opened SettlementEffects

  datatype AnchorError = OTHER_RECEIPT | NOT_NEXT | PENDING_OR_REVERTED | PROOF_MISSING | UNAVAILABLE

  datatype Reconciled = NOTHING_TO_DO | NOT_YET | SETTLED | REJECTED | CONFLICT | NO_ANSWER

  datatype Anchored = IDLE | CLOSED(id: Uuid) | POSTPONED(id: Uuid) | UNRECORDED

  datatype CashError = NOT_FOUND | ALREADY_PAID | FORBIDDEN | WRONG_AMOUNT | NO_OTP | BAD_OTP | NO_LOAN | RESERVED
      | NOT_CONFIRMED
      | NOT_RECORDED | OFFLINE

  datatype ReportError = NOT_ACCEPTED(error: SqlError) | BAD_PAYMENT | NOT_SETTLED | UNREACHABLE

  datatype CreateError = NO_SUCH_ROW | OTHER_WALLET | NOT_READY | NO_LEDGER | NOT_STORED(error: SqlError) | NO_REPLY

  const RETRY_MS: int := 60_000

  /** The intent repeats the row's terms, and the row is reserved for it. */
  predicate IntentFor(db: Database, id: Uuid, x: Uuid, actor: Uuid, sender: Address) {
    && id in db.intents && x in db.installments
    && var t := db.intents[id].terms;
       && t.installmentId == x && t.sender == sender && t.borrowerId == actor
       && t.amount == db.installments[x].amount && t.number == db.installments[x].number
       && db.installments[x].rail == Some(POLLAR)
  }

  /** What an anchoring round reports is so. */
  ghost predicate AnchorDone(s: State, done: Anchored, now: Instant) {
    match done
    case IDLE => true
    case UNRECORDED => true
    case CLOSED(id) =>
      id in s.db.intents && s.db.intents[id].status == ANCHORED && ProvenOn(s.registry, s.db.intents[id])
    case POSTPONED(id) =>
      id in s.db.intents
        && (s.db.intents[id].status == VERIFIED ==>
        s.db.intents[id].nextAttemptAt == now + 60_000 && s.db.intents[id].anchorFailed)
  }

  /** What a reconciliation of a candidate reports is so. */
  ghost predicate ReconcileDone(s: State, c: (Uuid, StellarHash), verdict: Reconciled) {
    match verdict
    case SETTLED => SettledFor(s, c.0, c.1)
    case REJECTED =>
      RefusedFor(s, c.0, c.1) && (c in s.db.candidates ==> s.db.candidates[c].status != CANDIDATE_PENDING)
    case NOTHING_TO_DO => c.0 !in s.db.intents || s.db.intents[c.0].status != CREATED
    case NOT_YET => c.1 !in s.ledger
    case CONFLICT => SettleRefused(s, c.0, c.1)
    case NO_ANSWER => true  // only behind a request that was not answered: see Reconcile
  }

  /** The one statement a reconciliation sends: the settlement with the ledger's own time, or the rejection. */
  ghost predicate SentForVerdict(s: State, c: (Uuid, StellarHash), verdict: Reconciled, statements: seq<Event>) {
    match verdict
    case SETTLED => c.1 in s.ledger && statements == [SettlePayment(c.0, c.1, s.ledger[c.1].tx.createdAt)]
    case CONFLICT => c.1 in s.ledger && statements == [SettlePayment(c.0, c.1, s.ledger[c.1].tx.createdAt)]
    case REJECTED => statements == [RejectCandidate(c.0, c.1)]
    case _ => statements == []
  }

  /** What a successful collection leaves: the row is paid and closed, and its own receipt is on chain in its place. */
  ghost predicate Collected(s: State, x: Uuid, receipt: Digest) {
    && Known(s.db, x)
    && var i := s.db.installments[x];
       && i.status == PAID && i.paymentMethod == Some(BY_CASH) && i.sync == SYNCED && i.receiptHash == Some(receipt)
       && ProofIs(s.registry, KeyOf(s.db, x), i.number, receipt, false, ZeroHash)
  }

  /** What a collection has sent: a first part of its four statements, in their order. */
  predicate CashTrace(
      sent: seq<Event>, x: Uuid, loanId: Uuid, submitted: Option<HskTx>, receipt: Digest, now: Instant)
  {
    || sent == [] || sent == [Event.Claim(x)]
    || (submitted.Some? && sent[0] == Event.Claim(x) && SendTrace(sent[1..], x, loanId, submitted.value, receipt, now))
  }

  predicate SendTrace(sent: seq<Event>, x: Uuid, loanId: Uuid, tx: HskTx, receipt: Digest, now: Instant) {
    sent != [] && sent[0] == SubmitCash(tx, x, receipt) && PayTrace(sent[1..], loanId, tx, now)
  }

  predicate PayTrace(sent: seq<Event>, loanId: Uuid, tx: HskTx, now: Instant) {
    sent == [] || sent == [PayCash(tx, now)] || sent == [PayCash(tx, now), CloseLoan(loanId, now)]
  }

  /** The oldest candidate that is due. */
  predicate OldestOf(db: Database, c: (Uuid, StellarHash), now: Instant) {
    && c in db.candidates && db.candidates[c].status == CANDIDATE_PENDING && db.candidates[c].nextAttemptAt <= now
    && forall d <- DueCandidates(db, now) :: db.candidates[c].createdAt <= db.candidates[d].createdAt
  }

  /** A verified intent that is due, with the least installment number of all of them. */
  predicate FirstOf(db: Database, id: Uuid, now: Instant) {
    && id in db.intents && db.intents[id].status == VERIFIED && db.intents[id].nextAttemptAt <= now
    && forall j <- DueAnchors(db, now) :: db.intents[id].terms.number <= db.intents[j].terms.number
  }

  function SubmissionOf(submitted: Option<HskTx>, r: Intent): seq<Event> {
    if submitted.Some? then [SubmitAnchor(submitted.value, r)] else []
  }

  /** The statement that records what anchor() answered. */
  function RecordStatements(
      id: Uuid, res: Result<Option<HskTx>, AnchorError>, done: Anchored, now: Instant): seq<Event>
  {
    match done
    case CLOSED(_) => if res.Success? then [CloseIntent(id, res.value)] else []
    case POSTPONED(_) => [PostponeAnchor(id, now + 60_000)]
    case _ => []
  }

  /** The last thing that happened closed the intent, and stored the hash if there is one. */
  predicate Recorded(history: seq<Event>, id: Uuid, hskTx: Option<HskTx>) {
    && history != [] && history[|history| - 1] == CloseIntent(id, hskTx)
    && AnchorMarked(At(history[..|history| - 1]).db, At(history).db, id, hskTx)
  }

  /** Why a lookup of the cash desk refuses, as far as the rows say. */
  predicate CashRefusal(before: State, after: State, x: Uuid, error: CashError) {
    error == ALREADY_PAID ==> x in after.db.installments && after.db.installments[x].status == PAID
  }

  /** Why claimCash or what follows it fails. */
  predicate LateRefusal(after: State, x: Uuid, error: CashError, submitted: Option<HskTx>, net: Network) {
    match error
    case RESERVED =>
      !net(3) || (x in after.db.installments
                   && (after.db.installments[x].status == PAID || after.db.installments[x].rail == Some(POLLAR)))
    case NOT_CONFIRMED =>
      !net(4) || !net(5)
        || (submitted.Some? && submitted.value in after.txs && after.txs[submitted.value].outcome != SUCCEEDED)
    case OFFLINE => !net(6) || !net(8)
    case _ => false
  }

  /** Why create fails: which request did, or what the rows, the chain or the ledger number say. */
  predicate CreateFailed(before: State, after: State, x: Uuid, actor: Uuid, sender: Address, ledger: int, freshId: Uuid,
      error: CreateError, net: Network)
  {
    match error
    case NO_REPLY => !Up(net, 0, 5)
    case NO_SUCH_ROW => !OwnRow(before.db, x, actor)
    case OTHER_WALLET =>
      x in after.db.intentOf && after.db.intentOf[x] in after.db.intents
        && after.db.intents[after.db.intentOf[x]].terms.sender != sender
    case NOT_READY => NotNext(before, after, x)
    case NO_LEDGER => ledger == 0 || ledger < -0x1F_FFFF_FFFF_FFFF || ledger > 0x1F_FFFF_FFFF_FFFF
    case NOT_STORED(raised) => CreateRefused(after.db, freshId, x, actor, sender, ledger, raised)
  }

  /** Between the two states the row was the next one on chain, and the ledger's number is a usable one. */
  predicate WasReady(before: State, after: State, x: Uuid, ledger: int) {
    && Known(after.db, x)
    && var key, number := KeyOf(after.db, x), after.db.installments[x].number;
       && R.LoanAt(before.registry, key).paidInstallments + 1 <= number
       && number <= R.LoanAt(after.registry, key).paidInstallments + 1
       && ledger != 0 && -0x1F_FFFF_FFFF_FFFF <= ledger <= 0x1F_FFFF_FFFF_FFFF
  }

  /** The row was not the next one on chain all the time. */
  predicate NotNext(before: State, after: State, x: Uuid) {
    && Known(after.db, x)
    && var key, number := KeyOf(after.db, x), after.db.installments[x].number;
       R.LoanAt(before.registry, key).paidInstallments + 1 != number
       || R.LoanAt(after.registry, key).paidInstallments + 1 != number
  }

  /** The row's number, amount and loan, and the loan's key and parties, are the same. */
  predicate SamePlace(before: Database, after: Database, x: Uuid) {
    && Known(before, x) && Known(after, x)
    && var i, j := before.installments[x], after.installments[x];
       && j.loanId == i.loanId && j.number == i.number && j.amount == i.amount
       && KeyOf(after, x) == KeyOf(before, x)
       && after.loans[j.loanId].lenderId == before.loans[i.loanId].lenderId
  }

  predicate BeforeChallenge(error: CashError) {
    error.NOT_FOUND? || error.ALREADY_PAID? || error.FORBIDDEN? || error.WRONG_AMOUNT?
  }

  predicate BeforeClaim(error: CashError) {
    BeforeChallenge(error) || error.NO_OTP? || error.BAD_OTP? || error.NO_LOAN?
  }

  /** Right after its row was paid, the world was `recorded`; a loan fully paid then is closed, if it could be read. */
  predicate CompletedIfPaid(after: State, recorded: seq<Event>, x: Uuid, loanId: Uuid, read: bool) {
    && x in At(recorded).db.installments && At(recorded).db.installments[x].status == PAID
    && (read && PaidUp(At(recorded).db, loanId) ==> Closed(after.db, loanId))
  }

  /** Why collectCash refuses at its checks: which request failed, or what the rows say. */
  predicate CheckRefusal(
      before: State, after: State, x: Uuid, lender: Uuid, amount: nat, error: CashError, net: Network)
  {
    match error
    case NOT_FOUND => !net(0) || x !in before.db.installments
    case ALREADY_PAID => x in after.db.installments && after.db.installments[x].status == PAID
    case FORBIDDEN =>
      !net(1) || (Known(after.db, x) && after.db.loans[after.db.installments[x].loanId].lenderId != lender)
    case WRONG_AMOUNT => x in after.db.installments && after.db.installments[x].amount != amount
    case _ => false
  }

  /**
   Why collectCash refuses before it claims the row: the checks, the challenge, or the loan that could not be read.
   */
  predicate EarlyRefusal(before: State, after: State, desk: seq<DeskOp>, from: nat, x: Uuid, lender: Uuid, amount: nat,
      code: nat, now: Instant, error: CashError, net: Network)
  {
    match error
    case NO_OTP => LackedChallenge(desk, from, x, code, now, false)
    case BAD_OTP => LackedChallenge(desk, from, x, code, now, true)
    case NO_LOAN => !net(2)
    case _ => CheckRefusal(before, after, x, lender, amount, error, net)
  }

  lemma {:induction false} ReadyLasts(
      start: seq<Event>, read: seq<Event>, checked: seq<Event>, end: seq<Event>, x: Uuid, ledger: int)
    requires start <= read <= checked <= end && WasReady(At(read), At(checked), x, ledger)
    ensures WasReady(At(start), At(end), x, ledger)
  {
    KnownLasts(checked, end, x);
    CountGrows(start, read, KeyOf(At(checked).db, x));
    CountGrows(checked, end, KeyOf(At(checked).db, x));
  }

  lemma Appended(a: seq<Event>, b: seq<Event>, c: seq<Event>)
    ensures a + b + c == a + (b + c)
  {
  }

  lemma PostponeOutcome(s: State, id: Uuid, at: Instant)
    requires id in s.db.intents
    ensures var t := Step(s, PostponeAnchor(id, at));
            id in t.db.intents
              && (t.db.intents[id].status == VERIFIED ==>
              t.db.intents[id].nextAttemptAt == at && t.db.intents[id].anchorFailed)
  {
  }

  /**
   One backend process. `sent` and `asked` are its own statements and its own accesses to the challenges; `history` and
   `desk` are everybody's. A method's requests are numbered from `at`, and `net` says which of them are answered: a
   request that is not has no effect of its own, and one that takes effect although its reply is lost is an event of
   `Elsewhere()` like any other.
   */
  class Backend {
    var state: State
    var running: bool
    var otpChallenges: map<Uuid, Challenge>
    ghost var history: seq<Event>
    ghost var desk: seq<DeskOp>
    ghost var sent: seq<Event>
    ghost var asked: seq<DeskOp>

    /** The world is what its whole history made it, and so is this process's map of challenges. */
    ghost predicate Valid()
      reads this
    {
      state == At(history) && otpChallenges == RunDesk(map[], desk)
    }

    constructor ()
      ensures Valid() && !running && history == [] && desk == [] && sent == [] && asked == []
    {
      state, running, otpChallenges, history, desk, sent, asked := GENESIS, false, map[], [], [], [], [];
    }

    /** One statement or transaction of this process. */
    method Do(e: Event)
      requires Valid()
      modifies this`state, this`history, this`sent
      ensures Valid() && state == Step(old(state), e) && history == old(history) + [e] && sent == old(sent) + [e]
    {
      RunConcat(GENESIS, history, [e]);
      assert Run(state, [e]) == Step(state, e);
      state, history, sent := Step(state, e), history + [e], sent + [e];
    }

    /** What this process has concluded from a read; no store changes. */
    method Learn(e: Event)
      requires Valid() && (e.VerifyPayment? || e.SeeProof? || e.ReadQueue? || e.SeeAllPaid?)
      modifies this`state, this`history
      ensures Valid() && state == Step(old(state), e) && history == old(history) + [e]
      ensures state.db == old(state).db && state.ledger == old(state).ledger && state.registry == old(state).registry
        && state.previous == old(state).previous
    {
      RunConcat(GENESIS, history, [e]);
      assert Run(state, [e]) == Step(state, e);
      state, history := Step(state, e), history + [e];
    }

    /** An await: everyone else does whatever they do. */
    method Elsewhere()
      requires Valid()
      modifies this`state, this`history, this`otpChallenges, this`desk
      ensures Valid() && old(history) <= history && old(desk) <= desk
    {
      var others: seq<Event> := *;
      var calls: seq<DeskOp> := *;
      RunConcat(GENESIS, history, others);
      RunDeskConcat(map[], desk, calls);
      state, history := Run(state, others), history + others;
      otpChallenges, desk := RunDesk(otpChallenges, calls), desk + calls;
    }

    // ---------- SettlementAnchorService.anchor

    /**
     readExisting(): first the height, then, an await later, the proofs at the block before it. It fails exactly when
     one of the two requests does. `view` is the chain at that block; what is found there is the intent's own proof,
     and a proof that was a block deep at the start is found.
     */
    method ReadExisting(r: Intent, net: Network, at: nat)
      returns (found: Result<Option<R.Proof>, AnchorError>, ghost view: R.Storage)
      requires Valid() && r in state.snapshots
      modifies this`state, this`history, this`otpChallenges, this`desk
      ensures Valid() && old(history) <= history && old(desk) <= desk && r in state.snapshots
      ensures found.Success? <==> net(at) && net(at + 1)
      ensures found.Failure? ==> found.error == UNAVAILABLE
      ensures found.Success? ==>
        && R.Extends(old(state).previous, view) && R.Extends(view, state.previous)
        && found.value == R.FindProof(R.ProofsAt(view, r.terms.hskLoanId), r.terms.number)
      ensures found.Success? && found.value.Some? ==>
        Matches(found.value.value, r) && r.terms.id in state.seen && ProvenOn(state.previous, r)
      ensures ProvenOn(old(state).previous, r) && found.Success? ==> found.value.Some?
    {
      ghost var start := history;
      Elsewhere();
      LearntLasts(start, history);
      view := state.previous;
      if !net(at) { return Failure(UNAVAILABLE), view; }
      var deep := R.ProofsAt(state.previous, r.terms.hskLoanId);  // settled once the height is known
      ViewLasts(start, history);
      if ProvenOn(old(state).previous, r) { DeepProofIsFound(start, history, r); }
      ghost var looked := history;
      Elsewhere();
      LearntLasts(looked, history);
      ViewLasts(looked, history);
      if !net(at + 1) { return Failure(UNAVAILABLE), view; }
      found := Success(R.FindProof(deep, r.terms.number));
      if found.value.Some? {
        FoundLater(looked, history, r);
        SeeOutcome(state, r);
      }
      Learn(SeeProof(r));
    }

    /** confirmPayment: request `at` reaches the pool, `at + 1` is its reply, which may be lost. */
    method Send(r: Intent, net: Network, at: nat) returns (submitted: Option<HskTx>, answered: bool)
      requires Valid() && r in state.snapshots
      modifies this`state, this`history, this`sent, this`otpChallenges, this`desk
      ensures Valid() && old(history) <= history && old(desk) <= desk && r in state.snapshots
      ensures submitted.Some? <==> net(at)
      ensures answered <==> net(at) && net(at + 1)
      ensures submitted.Some? ==>
        submitted.value !in old(state).txs && submitted.value in state.txs && Carries(state.txs[submitted.value], r)
      ensures sent == old(sent) + SubmissionOf(submitted, r)
    {
      ghost var start := history;
      Elsewhere();
      LearntLasts(start, history);
      if !net(at) { return None, false; }
      SomeFreshHash(state.txs);
      var tx: HskTx :| tx !in state.txs;
      QueuedCanBeSent(history, r);
      AnchorOutcome(state, tx, r);
      ghost var waited := history;
      Do(SubmitAnchor(tx, r));
      LearntLasts(waited, history);
      return Some(tx), net(at + 1);
    }

    /**
     The inner try block: submit, wait for two confirmations or thirty seconds, read again. `waited` is the world when
     the wait ended; the answer depends on nothing but the requests and on what it shows.
     */
    method SubmitAndWait(r: Intent, net: Network, at: nat)
      returns (res: Result<HskTx, AnchorError>, submitted: Option<HskTx>, ghost waited: seq<Event>)
      requires Valid() && r in state.snapshots
      modifies this`state, this`history, this`sent, this`otpChallenges, this`desk
      ensures Valid() && old(history) <= waited <= history && old(desk) <= desk && r in state.snapshots
      ensures submitted.Some? <==> net(at)
      ensures sent == old(sent) + SubmissionOf(submitted, r)
      ensures submitted.Some? ==>
        submitted.value !in old(state).txs && submitted.value in state.txs && Carries(state.txs[submitted.value], r)
      ensures res ==
        if !net(at) || !net(at + 1) then Failure(UNAVAILABLE)
        else if !net(at + 2) || !TwiceConfirmed(At(waited), submitted.value) then Failure(PENDING_OR_REVERTED)
        else if !net(at + 3) || !net(at + 4) then Failure(UNAVAILABLE)
        else Success(submitted.value)
      ensures res.Success? ==>
        state.txs[submitted.value].outcome == SUCCEEDED && r.terms.id in state.seen && ProvenOn(state.previous, r)
    {
      var answered;
      submitted, answered := Send(r, net, at);
      waited := history;
      if !answered { return Failure(UNAVAILABLE), submitted, waited; }
      var tx := submitted.value;
      ghost var taken := history;
      Elsewhere();
      LearntLasts(taken, history);
      TxLasts(taken, history, tx);
      waited := history;
      if !net(at + 2) || !TwiceConfirmed(state, tx) { return Failure(PENDING_OR_REVERTED), submitted, waited; }
      WaitedIsProven(history, r, tx);
      var proof, _ := ReadExisting(r, net, at + 3);
      TxLasts(waited, history, tx);
      if proof.Failure? { return Failure(proof.error), submitted, waited; }
      res := if proof.value.None? then Failure(PROOF_MISSING) else Success(tx);
    }

    /**
     anchor() never reports success without the exact proof one block deep, never meets another receipt nor misses
     its own after two confirmations, and is refused as out of sequence only when its own proof is already mined. With
     the proof a block deep it submits nothing and hands back the stored hash. UNAVAILABLE needs a request that failed;
     `shown` is the world at the sequence check, which an unproven intent always passes to the submission, and `tried`
     the world before the look after a failure, which a deep proof always turns into success.
     */
    method Anchor(r: Intent, net: Network, at: nat)
      returns (res: Result<Option<HskTx>, AnchorError>, submitted: Option<HskTx>, ghost shown: seq<Event>,
        ghost tried: seq<Event>)
      requires Valid() && r in state.snapshots
      modifies this`state, this`history, this`sent, this`otpChallenges, this`desk
      ensures Valid() && old(history) <= shown <= tried <= history && old(desk) <= desk && r in state.snapshots
      ensures res.Success? ==> r.terms.id in state.seen && ProvenOn(state.previous, r)
      ensures res != Failure(OTHER_RECEIPT) && res != Failure(PROOF_MISSING)
      ensures res == Failure(NOT_NEXT) ==> ProvenOn(state.registry, r) && submitted.None?
      ensures res == Failure(PENDING_OR_REVERTED) ==> submitted.Some?
      ensures res == Failure(UNAVAILABLE) ==> !Up(net, at, at + 10)
      ensures ProvenOn(old(state).previous, r) ==>
        submitted.None? && res == if net(at) && net(at + 1) then Success(r.hskTxHash) else Failure(UNAVAILABLE)
      ensures Up(net, at, at + 4) && !ProvenOn(At(shown).registry, r) ==> submitted.Some?
      ensures submitted.Some? && net(at + 8) && net(at + 9) && ProvenOn(At(tried).previous, r) ==> res.Success?
      ensures submitted.Some? ==>
        submitted.value !in old(state).txs && submitted.value in state.txs && Carries(state.txs[submitted.value], r)
      ensures sent == old(sent) + SubmissionOf(submitted, r)
      ensures res.Success? && res.value != r.hskTxHash && res.value.Some? ==>
        submitted == res.value && state.txs[res.value.value].outcome == SUCCEEDED
    {
      ghost var start := history;
      submitted := None;
      var existing, _ := ReadExisting(r, net, at);
      shown, tried := history, history;
      if existing.Failure? { return Failure(existing.error), None, shown, tried; }
      if existing.value.Some? {
        DeepIsMined(history, r);
        res := if Matches(existing.value.value, r) then Success(r.hskTxHash) else Failure(OTHER_RECEIPT);
        return;
      }
      LearntLasts(start, history);
      res, submitted, shown, tried := ConfirmOnChain(r, net, at + 2);
    }

    /** The rest of anchor(): the sequence check, the submission, and after any failure one more look. */
    method ConfirmOnChain(r: Intent, net: Network, at: nat)
      returns (res: Result<Option<HskTx>, AnchorError>, submitted: Option<HskTx>, ghost shown: seq<Event>,
        ghost tried: seq<Event>)
      requires Valid() && r in state.snapshots
      modifies this`state, this`history, this`sent, this`otpChallenges, this`desk
      ensures Valid() && old(history) <= shown <= tried <= history && old(desk) <= desk && r in state.snapshots
      ensures res.Success? ==> r.terms.id in state.seen && ProvenOn(state.previous, r)
      ensures res != Failure(OTHER_RECEIPT) && res != Failure(PROOF_MISSING)
      ensures res == Failure(NOT_NEXT) ==> ProvenOn(state.registry, r)
      ensures res == Failure(NOT_NEXT) <==> net(at) && ProvenOn(At(shown).registry, r)
      ensures res == Failure(UNAVAILABLE) ==> !Up(net, at, at + 8)
      ensures submitted.Some? <==> net(at) && !ProvenOn(At(shown).registry, r) && net(at + 1)
      ensures sent == old(sent) + SubmissionOf(submitted, r)
      ensures submitted.Some? ==>
        submitted.value !in old(state).txs && submitted.value in state.txs && Carries(state.txs[submitted.value], r)
      ensures submitted.Some? && net(at + 6) && net(at + 7) && ProvenOn(At(tried).previous, r) ==> res.Success?
      ensures res == Failure(PENDING_OR_REVERTED) ==> submitted.Some?
      ensures res.Success? && res.value.Some? ==>
        submitted == res.value && state.txs[res.value.value].outcome == SUCCEEDED
    {
      ghost var start := history;
      submitted := None;
      Elsewhere();
      LearntLasts(start, history);
      shown, tried := history, history;
      if !net(at) { return Failure(UNAVAILABLE), None, shown, tried; }
      OneShortExactly(history, r);
      var loan := R.LoanAt(state.registry, r.terms.hskLoanId);
      if loan.lender != OPERATOR || loan.paidInstallments + 1 != r.terms.number {
        OutOfSequenceIsProven(history, r);
        return Failure(NOT_NEXT), None, shown, tried;
      }
      var outcome, tx, _ := SubmitAndWait(r, net, at + 1);
      submitted := tx;
      LearntLasts(start, shown);
      tried := history;
      if outcome.Success? { return Success(Some(outcome.value)), submitted, shown, tried; }
      var proof, _ := ReadExisting(r, net, at + 6);
      if submitted.Some? { TxLasts(tried, history, submitted.value); }
      if proof.Failure? { return Failure(proof.error), submitted, shown, tried; }
      if proof.value.Some? && Matches(proof.value.value, r) { return Success(None), submitted, shown, tried; }
      return Failure(outcome.error), submitted, shown, tried;
    }

    // ---------- SettlementService.reconcile

    /** pollar_settle, for a hash that verify accepted, with the receipt of the intent's own fields. */
    method Accept(id: Uuid, hash: StellarHash, paidAt: Instant) returns (res: Reconciled)
      requires Valid() && (id, hash, paidAt) in state.verified && id in state.db.intents
      modifies this`state, this`history, this`sent
      ensures Valid() && old(history) <= history && sent == old(sent) + [SettlePayment(id, hash, paidAt)]
      ensures state.ledger == old(state).ledger
      ensures res.SETTLED? ==> SettledFor(state, id, hash)
      ensures res.SETTLED? || (res.CONFLICT? && SettleRefused(state, id, hash))
    {
      var accepted := Settle(state.db, id, hash, ReceiptOf(state.db.intents[id].terms, hash), paidAt).Success?;
      SettleOutcome(state, id, hash, paidAt);
      if !accepted { RefusalHasReason(history, id, hash, paidAt); }
      Do(SettlePayment(id, hash, paidAt));
      if !accepted { return CONFLICT; }
      SettledIsPaid(history, id);
      return SETTLED;
    }

    /** reject: guarded on status PENDING. */
    method Refuse(id: Uuid, hash: StellarHash)
      requires Valid()
      modifies this`state, this`history, this`sent
      ensures Valid() && old(history) <= history && sent == old(sent) + [RejectCandidate(id, hash)]
      ensures state.ledger == old(state).ledger && state.db.intents == old(state).db.intents
      ensures (id, hash) in state.db.candidates ==> state.db.candidates[(id, hash)].status != CANDIDATE_PENDING
    {
      RejectOutcome(state, id, hash);
      Do(RejectCandidate(id, hash));
    }

    /** PollarService.verify on the intent's frozen terms; no answer exactly when Horizon cannot be reached. */
    method VerifyNow(id: Uuid, hash: StellarHash, net: Network, at: nat) returns (verdict: Option<Stellar.Outcome>)
      requires Valid() && id in state.db.intents
      modifies this`state, this`history, this`otpChallenges, this`desk
      ensures Valid() && old(history) <= history && old(desk) <= desk && id in state.db.intents
      ensures verdict.Some? <==> net(at)
      ensures verdict.Some? ==>
        && verdict.value == VerifyOn(state.ledger, state.db.intents[id].terms, hash)
        && (verdict.value.CONFIRMED? ==> (id, hash, verdict.value.at) in state.verified)
        && (verdict.value.REFUSED? ==> hash in state.ledger)
    {
      var terms := state.db.intents[id].terms;
      ghost var read := history;
      Elsewhere();
      SettledLasts(read, history, id);
      if !net(at) { return None; }
      verdict := Some(VerifyOn(state.ledger, terms, hash));
      LearntIsTrue(history, id);
      Decimal.PrintedCentsParse(terms.amount);
      if verdict.value.CONFIRMED? {
        VerifyOutcome(state, id, hash);
        Learn(VerifyPayment(id, hash));
      }
    }

    /**
     A payment is settled only when the ledger backs it, and rejected only when no later look could accept it. There is
     an answer unless a request failed, and a payment that the ledger confirms is settled, or was settled before, or the
     database says why not.
     */
    method Reconcile(id: Uuid, hash: StellarHash, net: Network, at: nat)
      returns (res: Reconciled, ghost statements: seq<Event>)
      requires Valid()
      modifies this`state, this`history, this`sent, this`otpChallenges, this`desk
      ensures Valid() && old(history) <= history && old(desk) <= desk
      ensures ReconcileDone(state, (id, hash), res)
      ensures res.NO_ANSWER? ==> !Up(net, at, at + 3)
      ensures ConfirmedBy(old(state), id, hash) ==>
        res.SETTLED? || res.CONFLICT? || res.NOTHING_TO_DO? || res.NO_ANSWER?
      ensures sent == old(sent) + statements && SentForVerdict(state, (id, hash), res, statements)
    {
      ghost var start := history;
      statements := [];
      Elsewhere();
      if !net(at) { return NO_ANSWER, statements; }
      if id !in state.db.intents || state.db.intents[id].status != CREATED { return NOTHING_TO_DO, statements; }
      var verdict := VerifyNow(id, hash, net, at + 1);
      if verdict.None? { return NO_ANSWER, statements; }
      if ConfirmedBy(old(state), id, hash) { ConfirmedLasts(start, history, id, hash); }
      res, statements := ActOn(id, hash, verdict.value, net, at + 2);
    }

    /** What reconcile does with an answer of verify: nothing yet, pollar_settle, or the rejection. */
    method ActOn(id: Uuid, hash: StellarHash, verdict: Stellar.Outcome, net: Network, at: nat)
      returns (res: Reconciled, ghost statements: seq<Event>)
      requires Valid() && id in state.db.intents
      requires verdict == VerifyOn(state.ledger, state.db.intents[id].terms, hash)
      requires verdict.CONFIRMED? ==> (id, hash, verdict.at) in state.verified
      requires verdict.REFUSED? ==> hash in state.ledger
      modifies this`state, this`history, this`sent, this`otpChallenges, this`desk
      ensures Valid() && old(history) <= history && old(desk) <= desk
      ensures ReconcileDone(state, (id, hash), res)
      ensures res.NO_ANSWER? ==> !net(at)
      ensures verdict.CONFIRMED? ==> res.SETTLED? || res.CONFLICT? || res.NO_ANSWER?
      ensures sent == old(sent) + statements && SentForVerdict(state, (id, hash), res, statements)
    {
      statements := [];
      if verdict.NOT_INDEXED? {
        OnlyUnknownIsPending(state.ledger, state.db.intents[id].terms, hash);
        return NOT_YET, statements;
      }
      ghost var looked := history;
      Elsewhere();
      SettledLasts(looked, history, id);
      LearntLasts(looked, history);
      if !net(at) { return NO_ANSWER, statements; }
      if verdict.CONFIRMED? {
        VerifiedTime(history, id, hash, verdict.at);
        res := Accept(id, hash, verdict.at);
        statements := [SettlePayment(id, hash, verdict.at)];
      } else {
        EvidenceIsFinal(looked, history, id, hash);
        Refuse(id, hash);
        res, statements := REJECTED, [RejectCandidate(id, hash)];
      }
    }

    // ---------- SettlementService.create and report

    /**
     An intent is handed out once per installment, with exactly the row's terms, and then its rail is POLLAR. Every
     error has its reason: a failed request, a foreign or missing row, another wallet's intent, a row that was not the
     next one on chain all the time, an unusable ledger number, or what the database says now. If the statement was
     sent, it was the last thing to happen, and a new intent was opened from the rows as they were, with what was
     passed and read.
     */
    method Create(x: Uuid, actor: Uuid, sender: Address, issuer: Address, ledger: int, freshId: Uuid, now: Instant,
        net: Network)
      returns (res: Result<Uuid, CreateError>, ghost before: seq<Event>)
      requires Valid()
      modifies this`state, this`history, this`sent, this`otpChallenges, this`desk
      ensures Valid() && old(history) <= before <= history && old(desk) <= desk
      ensures res.Success? ==> IntentFor(state.db, res.value, x, actor, sender)
      ensures res.Success? && x in old(state).db.intentOf ==> res.value == old(state).db.intentOf[x]
      ensures res.Failure? ==> CreateFailed(old(state), state, x, actor, sender, ledger, freshId, res.error, net)
      ensures sent == old(sent)
        || (sent == old(sent) + [Event.Create(freshId, x, actor, sender, issuer, ledger, now)]
            && history == before + [Event.Create(freshId, x, actor, sender, issuer, ledger, now)])
      ensures sent == old(sent) && res.Success? ==> x in state.db.intentOf && res.value == state.db.intentOf[x]
      ensures sent != old(sent) ==> WasReady(old(state), state, x, ledger)
      ensures sent != old(sent) && res.Success? ==>
        HandedOut(At(before).db, state.db, res.value, freshId, x, actor, sender, issuer, ledger, now)
    {
      ghost var start := history;
      var found := FindOrReady(x, actor, sender, ledger, net);
      before := history;
      if found.Failure? { return Failure(found.error), before; }
      if found.value.Some? { return Success(found.value.value), before; }
      Elsewhere();
      ReadyLasts(start, start, before, history, x, ledger);
      before := history;
      if !net(4) { return Failure(NO_REPLY), before; }
      IntentLasts(start, history, x);
      res := StoreIntent(x, actor, sender, issuer, freshId, ledger, now);
      ReadyLasts(start, start, before, history, x, ledger);
    }

    /**
     Everything before the call of pollar_create_intent: the intent that is there already, or the checks for a new
     one.
     */
    method FindOrReady(x: Uuid, actor: Uuid, sender: Address, ledger: int, net: Network)
        returns (res: Result<Option<Uuid>, CreateError>)
      requires Valid()
      modifies this`state, this`history, this`otpChallenges, this`desk
      ensures Valid() && old(history) <= history && old(desk) <= desk
      ensures res.Success? && res.value.Some? ==>
        && IntentFor(state.db, res.value.value, x, actor, sender)
        && x in state.db.intentOf && state.db.intentOf[x] == res.value.value
        && (x in old(state).db.intentOf ==> res.value.value == old(state).db.intentOf[x])
      ensures res.Success? && res.value.None? ==>
        x !in old(state).db.intentOf && WasReady(old(state), state, x, ledger)
      ensures res.Failure? ==>
        !res.error.NOT_STORED? && CreateFailed(old(state), state, x, actor, sender, ledger, 0, res.error, net)
    {
      ghost var start := history;
      res := FindIntent(x, actor, sender, net);
      IntentLasts(start, history, x);
      if res.Failure? || res.value.Some? { return; }
      ghost var read := history;
      var ready := AssertReady(x, ledger, net);
      CountGrows(start, read, KeyOf(At(read).db, x));
      CountGrows(read, history, KeyOf(At(read).db, x));
      if ready.Failure? { return Failure(ready.error); }
    }

    /** The two reads of create(): the row with its loan, then the row's intent, if there is one. */
    method FindIntent(x: Uuid, actor: Uuid, sender: Address, net: Network)
        returns (res: Result<Option<Uuid>, CreateError>)
      requires Valid()
      modifies this`state, this`history, this`otpChallenges, this`desk
      ensures Valid() && old(history) <= history && old(desk) <= desk
      ensures res.Success? ==> Known(state.db, x)
      ensures res.Success? && res.value.Some? ==>
        IntentFor(state.db, res.value.value, x, actor, sender) && x in state.db.intentOf
          && state.db.intentOf[x] == res.value.value
      ensures res.Success? && res.value.None? ==> x !in old(state).db.intentOf
      ensures res.Failure? ==>
        || (res.error == NO_REPLY && (!net(0) || !net(1)))
        || (res.error == NO_SUCH_ROW && !OwnRow(old(state).db, x, actor))
        || (res.error == OTHER_WALLET && x in state.db.intentOf && state.db.intentOf[x] in state.db.intents
            && state.db.intents[state.db.intentOf[x]].terms.sender != sender)
    {
      ghost var start := history;
      Elsewhere();
      if !net(0) { return Failure(NO_REPLY); }
      if x in old(state).db.installments { OwnerLasts(start, history, x, actor); }
      if x !in state.db.installments { return Failure(NO_SUCH_ROW); }
      ghost var read := history;
      KnownLasts(read, history, x);
      if state.db.loans[state.db.installments[x].loanId].borrowerId != actor { return Failure(NO_SUCH_ROW); }
      Elsewhere();
      if !net(1) { return Failure(NO_REPLY); }
      IntentLasts(start, history, x);
      OwnerLasts(read, history, x, actor);
      if x !in state.db.intentOf { return Success(None); }
      IntentIsRow(history, x);
      if state.db.intents[state.db.intentOf[x]].terms.sender != sender { return Failure(OTHER_WALLET); }
      return Success(Some(state.db.intentOf[x]));
    }

    /** assertReady() and latestLedger(). */
    method AssertReady(x: Uuid, ledger: int, net: Network) returns (res: Result<(), CreateError>)
      requires Valid() && Known(state.db, x)
      modifies this`state, this`history, this`otpChallenges, this`desk
      ensures Valid() && old(history) <= history && old(desk) <= desk
      ensures Known(state.db, x) && KeyOf(state.db, x) == KeyOf(old(state).db, x)
      ensures res.Success? ==> WasReady(old(state), state, x, ledger)
      ensures res.Failure? ==>
        || (res.error == NO_REPLY && (!net(2) || !net(3)))
        || (res.error == NOT_READY && NotNext(old(state), state, x))
        || (res.error == NO_LEDGER && (ledger == 0 || ledger < -0x1F_FFFF_FFFF_FFFF || ledger > 0x1F_FFFF_FFFF_FFFF))
    {
      ghost var read := history;
      var key, number := state.db.loans[state.db.installments[x].loanId].hskLoanId, state.db.installments[x].number;
      Elsewhere();
      KnownLasts(read, history, x);
      if !net(2) { return Failure(NO_REPLY); }
      NextIsReady(history, x);
      CountGrows(read, history, key);
      var loan := R.LoanAt(state.registry, key);
      if loan.createdAt == 0 || loan.lender != OPERATOR || loan.paidInstallments + 1 != number
          || loan.status != R.ACTIVE {
        return Failure(NOT_READY);
      }
      ghost var checked := history;
      Elsewhere();
      KnownLasts(checked, history, x);
      CountGrows(checked, history, key);
      if !net(3) { return Failure(NO_REPLY); }
      if ledger == 0 || ledger < -Stellar.MAX_SAFE || ledger > Stellar.MAX_SAFE { return Failure(NO_LEDGER); }
      return Success(());
    }

    /** The call of pollar_create_intent. */
    method StoreIntent(x: Uuid, actor: Uuid, sender: Address, issuer: Address, freshId: Uuid, ledger: int, now: Instant)
      returns (res: Result<Uuid, CreateError>)
      requires Valid()
      modifies this`state, this`history, this`sent
      ensures Valid() && history == old(history) + [Event.Create(freshId, x, actor, sender, issuer, ledger, now)]
      ensures sent == old(sent) + [Event.Create(freshId, x, actor, sender, issuer, ledger, now)]
      ensures res.Success? ==>
        && IntentFor(state.db, res.value, x, actor, sender)
        && HandedOut(old(state).db, state.db, res.value, freshId, x, actor, sender, issuer, ledger, now)
      ensures res.Success? && x in old(state).db.intentOf ==> res.value == old(state).db.intentOf[x]
      ensures res.Failure? ==>
        res.error.NOT_STORED? && CreateRefused(state.db, freshId, x, actor, sender, ledger, res.error.error)
    {
      if x in state.db.intentOf { IntentIsRow(history, x); }
      var created := CreateIntent(state.db, freshId, x, actor, sender, issuer, ledger, CONTRACT, now);
      CreateOutcome(state.db, freshId, x, actor, sender, issuer, ledger, now);
      Do(Event.Create(freshId, x, actor, sender, issuer, ledger, now));
      if created.Failure? { return Failure(NOT_STORED(created.error)); }
      IntentIsRow(history, x);
      return Success(state.db.intentOf[x]);
    }

    /**
     report(): pollar_observe, then reconcile, then the intent is read back. It throws when the report or the payment
     was refused or pollar_settle was; a returned intent that is still CREATED means that the ledger did not show the
     payment yet. It is UNREACHABLE only behind a failed request, and a payment that the ledger confirmed is never
     left open.
     */
    method Report(id: Uuid, actor: Uuid, hash: StellarHash, now: Instant, net: Network)
      returns (res: Result<Intent, ReportError>, ghost verdict: Reconciled, ghost statements: seq<Event>)
      requires Valid()
      modifies this`state, this`history, this`sent, this`otpChallenges, this`desk
      ensures Valid() && old(history) <= history && old(desk) <= desk
      ensures res.Success? ==>
        && id in state.db.intents && res.value == state.db.intents[id] && res.value.terms.borrowerId == actor
        && (verdict.SETTLED? || verdict.NOTHING_TO_DO? || verdict.NOT_YET?)
        && (res.value.status == CREATED ==> verdict.NOT_YET?)
      ensures verdict.SETTLED? ==> SettledFor(state, id, hash)
      ensures verdict.REJECTED? ==> RefusedFor(state, id, hash)
      ensures res == Failure(BAD_PAYMENT) <==> verdict.REJECTED?
      ensures res == Failure(NOT_SETTLED) <==> verdict.CONFLICT?
      ensures res == Failure(UNREACHABLE) ==> !Up(net, 0, 5)
      ensures res.Failure? && res.error.NOT_ACCEPTED? ==> ReportRefused(state.db, id, actor, hash, res.error.error)
      ensures ConfirmedBy(old(state), id, hash) && res.Success? ==> res.value.status != CREATED
      ensures sent == if net(0) then old(sent) + [Event.Report(id, actor, hash, now)] + statements else old(sent)
      ensures SentForVerdict(state, (id, hash), verdict, statements)
    {
      ghost var start := history;
      verdict, statements := NO_ANSWER, [];
      Elsewhere();
      if !net(0) { return Failure(UNREACHABLE), verdict, statements; }
      var seen := StoreReport(id, actor, hash, now);
      if seen.Failure? { return Failure(NOT_ACCEPTED(seen.error)), verdict, statements; }
      if ConfirmedBy(old(state), id, hash) { ConfirmedLasts(start, history, id, hash); }
      res, verdict, statements := ReconcileReported(id, hash, net, 1);
    }

    /** The call of pollar_observe. */
    method StoreReport(id: Uuid, actor: Uuid, hash: StellarHash, now: Instant) returns (seen: Result<(), SqlError>)
      requires Valid()
      modifies this`state, this`history, this`sent
      ensures Valid() && old(history) <= history && sent == old(sent) + [Event.Report(id, actor, hash, now)]
      ensures seen.Success? ==> id in state.db.intents && state.db.intents[id].terms.borrowerId == actor
      ensures seen.Failure? ==> ReportRefused(state.db, id, actor, hash, seen.error)
    {
      var stored := Observe(state.db, id, actor, hash, now);
      ObserveEffect(state.db, id, actor, hash, now);
      Do(Event.Report(id, actor, hash, now));
      return if stored.Success? then Success(()) else Failure(stored.error);
    }

    /** The rest of report(): reconcile, and the intent read back. */
    method ReconcileReported(id: Uuid, hash: StellarHash, net: Network, at: nat)
      returns (res: Result<Intent, ReportError>, ghost verdict: Reconciled, ghost statements: seq<Event>)
      requires Valid() && id in state.db.intents
      modifies this`state, this`history, this`sent, this`otpChallenges, this`desk
      ensures Valid() && old(history) <= history && old(desk) <= desk
      ensures id in state.db.intents && state.db.intents[id].terms == old(state).db.intents[id].terms
      ensures res.Success? ==>
        && res.value == state.db.intents[id]
        && (verdict.SETTLED? || verdict.NOTHING_TO_DO? || verdict.NOT_YET?)
        && (res.value.status == CREATED ==> verdict.NOT_YET?)
      ensures verdict.SETTLED? ==> SettledFor(state, id, hash)
      ensures verdict.REJECTED? ==> RefusedFor(state, id, hash)
      ensures res == Failure(BAD_PAYMENT) <==> verdict.REJECTED?
      ensures res == Failure(NOT_SETTLED) <==> verdict.CONFLICT?
      ensures res == Failure(UNREACHABLE) ==> !Up(net, at, at + 4)
      ensures res.Failure? ==> !res.error.NOT_ACCEPTED?
      ensures ConfirmedBy(old(state), id, hash) && res.Success? ==> res.value.status != CREATED
      ensures sent == old(sent) + statements && SentForVerdict(state, (id, hash), verdict, statements)
    {
      ghost var reported := history;
      var answer, own := Reconcile(id, hash, net, at);
      verdict, statements := answer, own;
      SettledLasts(reported, history, id);
      res := ReadBack(id, hash, answer, net, at + 3);
    }

    /** What report() answers: the exception of reconcile, or the intent as it is now. */
    method ReadBack(id: Uuid, hash: StellarHash, answer: Reconciled, net: Network, at: nat)
        returns (res: Result<Intent, ReportError>)
      requires Valid() && id in state.db.intents && ReconcileDone(state, (id, hash), answer)
      modifies this`state, this`history, this`otpChallenges, this`desk
      ensures Valid() && old(history) <= history && old(desk) <= desk
      ensures id in state.db.intents && state.db.intents[id].terms == old(state).db.intents[id].terms
      ensures answer.SETTLED? ==> SettledFor(state, id, hash)
      ensures answer.REJECTED? ==> RefusedFor(state, id, hash)
      ensures hash in old(state).ledger ==> hash in state.ledger && state.ledger[hash] == old(state).ledger[hash]
      ensures res.Success? ==>
        && res.value == state.db.intents[id]
        && (answer.SETTLED? || answer.NOTHING_TO_DO? || answer.NOT_YET?)
        && (res.value.status == CREATED ==> answer.NOT_YET?)
      ensures res == Failure(BAD_PAYMENT) <==> answer.REJECTED?
      ensures res == Failure(NOT_SETTLED) <==> answer.CONFLICT?
      ensures res == Failure(UNREACHABLE) ==> answer.NO_ANSWER? || !net(at)
      ensures res.Failure? ==> !res.error.NOT_ACCEPTED?
    {
      if answer == REJECTED { return Failure(BAD_PAYMENT); }
      if answer == CONFLICT { return Failure(NOT_SETTLED); }
      if answer == NO_ANSWER { return Failure(UNREACHABLE); }
      ghost var answered := history;
      Elsewhere();
      SettledLasts(answered, history, id);
      VerdictsLast(answered, history, id, hash);
      if hash in old(state).ledger { LedgerLasts(answered, history, hash); }
      if answer == SETTLED { SettledIsNotCreated(history, id); }
      res := if net(at) then Success(state.db.intents[id]) else Failure(UNREACHABLE);
    }

    // ---------- SettlementService.tick

    /** candidates()[0]: the oldest candidate that is due. */
    method PickCandidate(now: Instant, net: Network, at: nat) returns (ok: bool, next: Option<(Uuid, StellarHash)>)
      requires Valid()
      modifies this`state, this`history, this`otpChallenges, this`desk
      ensures Valid() && old(history) <= history && old(desk) <= desk
      ensures ok <==> net(at)
      ensures next.Some? <==> net(at) && DueCandidates(state.db, now) != {}
      ensures next.Some? ==>
        && next.value in DueCandidates(state.db, now)
        && forall c <- DueCandidates(state.db, now) ::
             state.db.candidates[next.value].createdAt <= state.db.candidates[c].createdAt
    {
      Elsewhere();
      var due := DueCandidates(state.db, now);
      if !net(at) || due == {} { return net(at), None; }
      OldestInQueue(state.db, due);
      var c :| c in due && forall d <- due :: state.db.candidates[c].createdAt <= state.db.candidates[d].createdAt;
      return true, Some(c);
    }

    /**
     At most one candidate, the oldest that was due when the queue was read (`queue`), postponed by a minute first; then
     it is settled, rejected, or left for the next round.
     */
    method ReconcileNext(now: Instant, net: Network, at: nat)
      returns (ok: bool, ghost tried: Option<(Uuid, StellarHash)>, ghost verdict: Reconciled, ghost queue: seq<Event>,
        ghost statements: seq<Event>)
      requires Valid()
      modifies this`state, this`history, this`sent, this`otpChallenges, this`desk
      ensures Valid() && old(history) <= queue <= history && old(desk) <= desk
      ensures ok <==> net(at) && (DueCandidates(At(queue).db, now) == {} || net(at + 1))
      ensures tried.Some? <==> ok && DueCandidates(At(queue).db, now) != {}
      ensures tried.Some? ==> OldestOf(At(queue).db, tried.value, now)
      ensures tried.Some? ==> ReconcileDone(state, tried.value, verdict)
      ensures tried.Some? && verdict.NO_ANSWER? ==> !Up(net, at, at + 5)
      ensures tried.Some? && ConfirmedBy(At(queue), tried.value.0, tried.value.1) ==>
        verdict.SETTLED? || verdict.CONFLICT? || verdict.NOTHING_TO_DO? || verdict.NO_ANSWER?
      ensures sent == old(sent) + statements && (tried.None? ==> statements == [])
      ensures tried.Some? ==>
        && statements != [] && statements[0] == Postpone(tried.value.0, tried.value.1, now + 60_000)
        && SentForVerdict(state, tried.value, verdict, statements[1..])
    {
      verdict, statements := NO_ANSWER, [];
      var next;
      ok, next := PickCandidate(now, net, at);
      tried, queue := None, history;
      if next.Some? {
        var c := next.value;
        Elsewhere();
        ok := net(at + 1);
        if ok {
          Do(Postpone(c.0, c.1, now + RETRY_MS));
          if ConfirmedBy(At(queue), c.0, c.1) { ConfirmedLasts(queue, history, c.0, c.1); }
          var answer, own := Reconcile(c.0, c.1, net, at + 2);  // whatever it throws, the candidate waits
          tried, verdict := next, answer;
          Appended(old(sent), [Postpone(c.0, c.1, now + 60_000)], own);
          statements := [Postpone(c.0, c.1, now + 60_000)] + own;
          assert statements[1..] == own;
        }
      }
    }

    /** anchors()[0]: the due intent with the least installment number. */
    method PickAnchor(now: Instant, net: Network, at: nat) returns (next: Option<Uuid>)
      requires Valid()
      modifies this`state, this`history, this`otpChallenges, this`desk
      ensures Valid() && old(history) <= history && old(desk) <= desk
      ensures next.Some? <==> net(at) && DueAnchors(state.db, now) != {}
      ensures next.Some? ==> FirstOf(state.db, next.value, now)
    {
      Elsewhere();
      var due := DueAnchors(state.db, now);
      if !net(at) || due == {} { return None; }
      FirstInQueue(state.db, due);
      var id :| id in due && forall j <- due :: state.db.intents[id].terms.number <= state.db.intents[j].terms.number;
      forall j | DueAnchor(state.db, j, now) ensures j in due {}
      return Some(id);
    }

    /**
     One anchor at most, the first that was due when the queue was read (`queue`). What it closes is ANCHORED with its
     proof; what it cannot close waits a minute.
     */
    method AnchorNext(now: Instant, net: Network, at: nat)
      returns (done: Anchored, ghost queue: seq<Event>, ghost statements: seq<Event>)
      requires Valid()
      modifies this`state, this`history, this`sent, this`otpChallenges, this`desk
      ensures Valid() && old(history) <= queue <= history && old(desk) <= desk
      ensures AnchorDone(state, done, now)
      ensures done.IDLE? <==> !(net(at) && DueAnchors(At(queue).db, now) != {})
      ensures sent == old(sent) + statements && (done.IDLE? ==> statements == [])
      ensures done.CLOSED? || done.POSTPONED? ==> FirstOf(At(queue).db, done.id, now)
      ensures done.UNRECORDED? ==> !Up(net, at, at + 13)
      ensures done.POSTPONED? && Up(net, at, at + 13) ==> !ProvenOn(At(queue).previous, At(queue).db.intents[done.id])
    {
      var next := PickAnchor(now, net, at);
      queue := history;
      if next.None? { return IDLE, queue, []; }
      var answer, outcome, tx := AnchorPicked(next.value, now, net, at + 1);
      done := answer;
      statements := SubmissionOf(tx, At(queue).db.intents[next.value])
        + RecordStatements(next.value, outcome, done, now);
    }

    /**
     The intent as the queue showed it goes to anchor(); its answer is recorded. A proof a block deep when the intent
     was picked always closes it.
     */
    method AnchorPicked(id: Uuid, now: Instant, net: Network, at: nat)
      returns (done: Anchored, ghost res: Result<Option<HskTx>, AnchorError>, ghost submitted: Option<HskTx>)
      requires Valid() && DueAnchor(state.db, id, now)
      modifies this`state, this`history, this`sent, this`otpChallenges, this`desk
      ensures Valid() && old(history) <= history && old(desk) <= desk
      ensures AnchorDone(state, done, now)
      ensures done == if res.Success? && net(at + 10) then CLOSED(id) else if net(at + 11) then POSTPONED(id)
        else UNRECORDED
      ensures ProvenOn(old(state).previous, old(state).db.intents[id]) ==>
        submitted.None?
          && res ==
             if net(at) && net(at + 1) then Success(old(state).db.intents[id].hskTxHash) else Failure(UNAVAILABLE)
      ensures sent == old(sent) + SubmissionOf(submitted, old(state).db.intents[id])
        + RecordStatements(id, res, done, now)
      ensures done.CLOSED? ==> Recorded(history, id, res.value)
    {
      var r := state.db.intents[id];
      LearntIsTrue(history, id);
      ReadOutcome(state, id);
      Learn(ReadQueue(id));
      ghost var picked := history;
      var answer, tx, _, _ := Anchor(r, net, at);
      res, submitted := answer, tx;
      SettledLasts(picked, history, id);
      done := RecordAnchor(id, answer, now, net, at + 10);
    }

    /** pollar_mark_anchored after success; a minute's delay after any failure, that of the update itself included. */
    method RecordAnchor(id: Uuid, res: Result<Option<HskTx>, AnchorError>, now: Instant, net: Network, at: nat)
        returns (done: Anchored)
      requires Valid() && id in state.db.intents && (res.Success? ==> id in state.seen)
      modifies this`state, this`history, this`sent, this`otpChallenges, this`desk
      ensures Valid() && old(history) <= history && old(desk) <= desk
      ensures AnchorDone(state, done, now)
      ensures done == if res.Success? && net(at) then CLOSED(id) else if net(at + 1) then POSTPONED(id) else UNRECORDED
      ensures sent == old(sent) + RecordStatements(id, res, done, now)
      ensures done.CLOSED? ==> Recorded(history, id, res.value)
    {
      ghost var anchored := history;
      Elsewhere();
      LearntLasts(anchored, history);
      if res.Success? && net(at) {
        ClosedIsAnchored(history, id, res.value);
        CloseOutcome(history, id, res.value);
        ghost var before := history;
        Do(CloseIntent(id, res.value));
        assert history[..|history| - 1] == before;
        return CLOSED(id);
      }
      Elsewhere();
      if !net(at + 1) { return UNRECORDED; }
      SettledLasts(anchored, history, id);
      PostponeOutcome(state, id, now + RETRY_MS);
      Do(PostponeAnchor(id, now + RETRY_MS));
      return POSTPONED(id);
    }

    /**
     What tick does behind the lease: the oldest due candidate, then, unless the queue failed, the first due intent.
     */
    method Round(now: Instant, net: Network, at: nat)
      returns (done: Anchored, ghost tried: Option<(Uuid, StellarHash)>, ghost verdict: Reconciled,
        ghost ok: bool, ghost queue: seq<Event>, ghost anchors: seq<Event>, ghost first: seq<Event>,
        ghost second: seq<Event>)
      requires Valid()
      modifies this`state, this`history, this`sent, this`otpChallenges, this`desk
      ensures Valid() && old(history) <= queue <= anchors <= history && old(desk) <= desk
      ensures AnchorDone(state, done, now)
      ensures tried.Some? && verdict.SETTLED? ==> SettledFor(state, tried.value.0, tried.value.1)
      ensures tried.Some? && verdict.REJECTED? ==> RefusedFor(state, tried.value.0, tried.value.1)
      ensures tried.Some? ==> OldestOf(At(queue).db, tried.value, now)
      ensures done.CLOSED? || done.POSTPONED? ==> FirstOf(At(anchors).db, done.id, now)
      ensures ok <==> net(at) && (DueCandidates(At(queue).db, now) == {} || net(at + 1))
      ensures tried.Some? <==> ok && DueCandidates(At(queue).db, now) != {}
      ensures done.IDLE? <==> !(ok && net(at + 5) && DueAnchors(At(anchors).db, now) != {})
      ensures tried.Some? && verdict.NO_ANSWER? ==> !Up(net, at, at + 5)
      ensures done.UNRECORDED? ==> !Up(net, at + 5, at + 18)
      ensures done.POSTPONED? && Up(net, at + 5, at + 18) ==>
        !ProvenOn(At(anchors).previous, At(anchors).db.intents[done.id])
      ensures tried.Some? && ConfirmedBy(At(queue), tried.value.0, tried.value.1) ==>
        verdict.SETTLED? || verdict.CONFLICT? || verdict.NOTHING_TO_DO? || verdict.NO_ANSWER?
      ensures sent == old(sent) + first + second && (tried.None? ==> first == []) && (done.IDLE? ==> second == [])
      ensures tried.Some? ==> first != [] && first[0] == Postpone(tried.value.0, tried.value.1, now + 60_000)
    {
      var picked, c, v, q, s := ReconcileNext(now, net, at);
      ok, tried, verdict, queue, first := picked, c, v, q, s;
      done, anchors, second := IDLE, history, [];
      if picked {
        ghost var reconciled := history;
        var answer, a, s' := AnchorNext(now, net, at + 5);
        done, anchors, second := answer, a, s';
        if tried.Some? { VerdictsLast(reconciled, history, tried.value.0, tried.value.1); }
      }
    }

    /**
     The running flag keeps one tick per process; it is always handed back, and a refused tick does nothing. What the
     round reports about its candidate and its anchor still holds when it ends. Behind the lease, with every request
     answered, it takes a candidate unless none was due and an intent unless none was due, gets a verdict on the one and
     records the other. `queue` and `anchors` are the world as the two queues were read.
     */
    method Tick(now: Instant, leased: bool, net: Network)
      returns (done: Anchored, ghost tried: Option<(Uuid, StellarHash)>, ghost verdict: Reconciled,
        ghost queue: seq<Event>, ghost anchors: seq<Event>, ghost first: seq<Event>, ghost second: seq<Event>)
      requires Valid()
      modifies this
      ensures Valid() && old(history) <= queue <= anchors <= history && running == old(running)
      ensures asked == old(asked) && sent == old(sent) + first + second
      ensures old(running) || !leased || !net(0) ==> first == [] && second == [] && done == IDLE && tried.None?
      ensures old(running) ==> state == old(state)
      ensures AnchorDone(state, done, now)
      ensures tried.Some? && verdict.SETTLED? ==> SettledFor(state, tried.value.0, tried.value.1)
      ensures tried.Some? && verdict.REJECTED? ==> RefusedFor(state, tried.value.0, tried.value.1)
      ensures tried.Some? ==>
        && OldestOf(At(queue).db, tried.value, now)
        && first != [] && first[0] == Postpone(tried.value.0, tried.value.1, now + 60_000)
        && (ConfirmedBy(At(queue), tried.value.0, tried.value.1) ==>
              verdict.SETTLED? || verdict.CONFLICT? || verdict.NOTHING_TO_DO? || verdict.NO_ANSWER?)
      ensures done.CLOSED? || done.POSTPONED? ==> FirstOf(At(anchors).db, done.id, now)
      ensures !old(running) && leased && Up(net, 0, 19) ==>
        && (tried.None? <==> DueCandidates(At(queue).db, now) == {})
        && (done.IDLE? <==> DueAnchors(At(anchors).db, now) == {})
        && (tried.Some? ==> !verdict.NO_ANSWER?) && !done.UNRECORDED?
        && (done.POSTPONED? ==> !ProvenOn(At(anchors).previous, At(anchors).db.intents[done.id]))
    {
      done, tried, verdict, first, second := IDLE, None, NO_ANSWER, [], [];
      queue, anchors := history, history;
      if running { return; }
      running := true;
      Elsewhere();
      queue, anchors := history, history;
      if net(0) && leased {
        ghost var ok;
        done, tried, verdict, ok, queue, anchors, first, second := Round(now, net, 1);
      }
      running := false;
    }

    // ---------- InstallmentsService

    /**
     generateOtpChallenge(): only for the borrower's own installment, and never for one that was paid before. Every
     refusal has its reason, and leaves the stored challenges alone.
     */
    method GenerateOtp(x: Uuid, borrower: Uuid, code: nat, now: Instant, net: Network)
        returns (res: Result<Challenge, CashError>)
      requires Valid()
      modifies this`state, this`history, this`otpChallenges, this`desk, this`asked
      ensures Valid() && old(history) <= history && old(desk) <= desk
      ensures res.Success? ==>
        && Known(state.db, x) && state.db.loans[state.db.installments[x].loanId].borrowerId == borrower
        && desk != [] && desk[|desk| - 1] == Issue(x, res.value)
        && x in otpChallenges && otpChallenges[x] == res.value && res.value == Challenge(code, now + 300_000)
        && asked == old(asked) + [Issue(x, res.value)]
      ensures res.Failure? ==> asked == old(asked) && CashRefusal(old(state), state, x, res.error)
      ensures res == Failure(NOT_FOUND) ==> !net(0) || x !in old(state).db.installments
      ensures res == Failure(FORBIDDEN) ==>
        !net(1) || (Known(state.db, x) && state.db.loans[state.db.installments[x].loanId].borrowerId != borrower)
      ensures res.Failure? ==> res.error in {NOT_FOUND, ALREADY_PAID, FORBIDDEN}
      ensures net(0) && x in old(state).db.installments && old(state).db.installments[x].status == PAID ==>
        res == Failure(ALREADY_PAID)
    {
      ghost var start := history;
      Elsewhere();
      if x in old(state).db.installments { KnownLasts(start, history, x); }
      if !net(0) || x !in state.db.installments { return Failure(NOT_FOUND); }
      var i := state.db.installments[x];
      if i.status == PAID { return Failure(ALREADY_PAID); }
      ghost var read := history;
      Elsewhere();
      KnownLasts(read, history, x);
      if !net(1) || state.db.loans[i.loanId].borrowerId != borrower { return Failure(FORBIDDEN); }
      var challenge := Challenge(code, now + OTP_TTL_MS);
      IssueChallenge(x, challenge);
      return Success(challenge);
    }

    /** The map's set(): no await. */
    method IssueChallenge(x: Uuid, challenge: Challenge)
      requires Valid()
      modifies this`otpChallenges, this`desk, this`asked
      ensures Valid() && desk == old(desk) + [Issue(x, challenge)] && asked == old(asked) + [Issue(x, challenge)]
        && otpChallenges == old(otpChallenges)[x := challenge]
    {
      RunDeskConcat(map[], desk, [Issue(x, challenge)]);
      assert RunDesk(otpChallenges, [Issue(x, challenge)]) == otpChallenges[x := challenge];
      otpChallenges, desk := otpChallenges[x := challenge], desk + [Issue(x, challenge)];
      asked := asked + [Issue(x, challenge)];
    }

    /** get, verify and delete happen without an await between them. */
    method TakeOtp(x: Uuid, code: nat, now: Instant) returns (res: Result<(), CashError>)
      requires Valid()
      modifies this`otpChallenges, this`desk, this`asked
      ensures Valid() && desk == old(desk) + [Take(x, code, now)] && asked == old(asked) + [Take(x, code, now)]
      ensures res.Success? <==>
        x in old(otpChallenges) && now <= old(otpChallenges)[x].expiresAt && code == old(otpChallenges)[x].otpCode
      ensures res.Success? ==> otpChallenges == old(otpChallenges) - {x}
      ensures res.Failure? ==> otpChallenges == old(otpChallenges)
      ensures res == Failure(NO_OTP) <==> x !in old(otpChallenges)
      ensures res.Failure? ==> res.error == NO_OTP || res.error == BAD_OTP
    {
      RunDeskConcat(map[], desk, [Take(x, code, now)]);
      assert RunDesk(otpChallenges, [Take(x, code, now)]) == DeskStep(otpChallenges, Take(x, code, now));
      desk, asked := desk + [Take(x, code, now)], asked + [Take(x, code, now)];
      if x !in otpChallenges { return Failure(NO_OTP); }
      if now > otpChallenges[x].expiresAt || code != otpChallenges[x].otpCode { return Failure(BAD_OTP); }
      otpChallenges := otpChallenges - {x};
      return Success(());
    }

    /**
     collectCash() submits at most one confirmation, only for the lender of the loan, only after taking a valid
     challenge and only for an installment that is then reserved for cash; what it reports as paid is PAID, SYNCED and
     proven with its own receipt. It never succeeds for an installment on the other rail, nor for one whose place on
     chain is taken already. Every refusal has its reason, and one that comes before the challenge touches nothing.
     `recorded` is the world right after the row was paid: a loan that was fully paid then is COMPLETED when the call
     succeeds.
     */
    method CollectCash(x: Uuid, lender: Uuid, amount: nat, code: nat, now: Instant, net: Network)
      returns (res: Result<Digest, CashError>, submitted: Option<HskTx>, ghost recorded: seq<Event>,
        ghost statements: seq<Event>)
      requires Valid()
      modifies this`state, this`history, this`sent, this`otpChallenges, this`desk, this`asked
      ensures Valid() && old(history) <= recorded <= history && old(desk) <= desk
      ensures submitted.Some? ==>
        && Known(state.db, x) && state.db.loans[state.db.installments[x].loanId].lenderId == lender
        && state.db.installments[x].rail == Some(CASH) && state.db.installments[x].amount == amount
        && TookChallenge(desk, |old(desk)|, x, code, now)
        && submitted.value in state.txs && state.txs[submitted.value].origin == x && !state.txs[submitted.value].digital
        && IsCashReceipt(state.txs[submitted.value].receipt, state.txs[submitted.value].key,
             state.txs[submitted.value].number, amount, code, now)
      ensures res.Success? ==>
        && submitted.Some? && Collected(state, x, res.value) && res.value == state.txs[submitted.value].receipt
        && CompletedIfPaid(state, recorded, x, state.db.installments[x].loanId, net(7))
      ensures x in old(state).db.installments && old(state).db.installments[x].rail == Some(POLLAR) ==>
        res.Failure? && submitted.None?
      ensures OnChain(old(state), x) ==> res.Failure?
      ensures net(0) && x in old(state).db.installments && old(state).db.installments[x].status == PAID ==>
        res == Failure(ALREADY_PAID)
      ensures asked ==
        if res.Failure? && BeforeChallenge(res.error) then old(asked) else old(asked) + [Take(x, code, now)]
      ensures res.Failure? ==>
        if BeforeClaim(res.error)
        then EarlyRefusal(old(state), state, desk, |old(desk)|, x, lender, amount, code, now, res.error, net)
        else LateRefusal(state, x, res.error, submitted, net)
      ensures sent == old(sent) + statements && (res.Failure? && BeforeClaim(res.error) ==> statements == [])
      ensures statements != [] ==>
        && Known(state.db, x)
        && CashTrace(statements, x, state.db.installments[x].loanId, submitted,
             CashReceipt(KeyOf(state.db, x), state.db.installments[x].number, amount, code, now), now)
    {
      var receipt := Prepare(x, lender, amount, code, now, net);
      if receipt.Failure? { return Failure(receipt.error), None, history, []; }
      res, submitted, recorded, statements := CollectPrepared(x, receipt.value, code, now, |old(desk)|, net);
    }

    /** The rest of collectCash, in which row, lender and amount stay what they were. */
    method CollectPrepared(
          x: Uuid, receipt: Digest, code: nat, now: Instant, ghost from: nat, net: Network)
      returns (res: Result<Digest, CashError>, submitted: Option<HskTx>, ghost recorded: seq<Event>,
        ghost statements: seq<Event>)
      requires Valid() && Known(state.db, x) && OwnReceipt(receipt, KeyOf(state.db, x), state.db.installments[x].number)
      requires TookChallenge(desk, from, x, code, now)
      modifies this`state, this`history, this`sent, this`otpChallenges, this`desk
      ensures Valid() && old(history) <= recorded <= history && old(desk) <= desk
      ensures TookChallenge(desk, from, x, code, now)
      ensures SamePlace(old(state).db, state.db, x)
      ensures submitted.Some? ==>
        && submitted.value in state.txs && CarriesCash(state.txs[submitted.value], x, receipt)
        && state.txs[submitted.value].key == receipt.hskLoanId && state.txs[submitted.value].number == receipt.number
        && state.db.installments[x].rail == Some(CASH)
      ensures res.Success? ==>
        && submitted.Some? && res.value == receipt && Collected(state, x, receipt)
        && CompletedIfPaid(state, recorded, x, state.db.installments[x].loanId, net(7))
      ensures old(state).db.installments[x].rail == Some(POLLAR) ==> res.Failure? && submitted.None?
      ensures OnChain(old(state), x) ==> res.Failure?
      ensures res.Failure? ==> !BeforeClaim(res.error) && LateRefusal(state, x, res.error, submitted, net)
      ensures sent == old(sent) + statements
        && CashTrace(statements, x, state.db.installments[x].loanId, submitted, receipt, now)
    {
      ghost var start, used := history, desk;
      res, submitted, recorded, statements := ClaimAndSubmit(x, receipt, now, net);
      KnownLasts(start, history, x);
      OwnerLasts(start, history, x, 0);
      TookLasts(used, desk, from, x, code, now);
    }

    /** Everything before claimCash. */
    method Prepare(x: Uuid, lender: Uuid, amount: nat, code: nat, now: Instant, net: Network)
        returns (res: Result<Digest, CashError>)
      requires Valid()
      modifies this`state, this`history, this`otpChallenges, this`desk, this`asked
      ensures Valid() && old(history) <= history && old(desk) <= desk
      ensures res.Success? ==>
        && TookChallenge(desk, |old(desk)|, x, code, now)
        && Known(state.db, x) && state.db.installments[x].amount == amount
        && state.db.loans[state.db.installments[x].loanId].lenderId == lender
        && IsCashReceipt(res.value, KeyOf(state.db, x), state.db.installments[x].number, amount, code, now)
        && (x in old(state).db.installments && old(state).db.installments[x].rail == Some(POLLAR) ==>
              state.db.installments[x].rail == Some(POLLAR))
        && (OnChain(old(state), x) ==> OnChain(state, x))
      ensures res.Failure? ==>
        && BeforeClaim(res.error)
        && EarlyRefusal(old(state), state, desk, |old(desk)|, x, lender, amount, code, now, res.error, net)
      ensures net(0) && x in old(state).db.installments && old(state).db.installments[x].status == PAID ==>
        res == Failure(ALREADY_PAID)
      ensures asked ==
        if res.Failure? && BeforeChallenge(res.error) then old(asked) else old(asked) + [Take(x, code, now)]
    {
      ghost var start := history;
      var checked := CheckCollect(x, lender, amount, net);
      if checked.Failure? { return Failure(checked.error); }
      ghost var read := history;
      res := UseChallenge(x, amount, code, now, |old(desk)|, net);
      KnownLasts(read, history, x);
      OwnerLasts(read, history, x, lender);
      if OnChain(old(state), x) { OnChainLasts(start, history, x); }
    }

    /** The lookups and checks of collectCash: an unpaid row of the lender's own loan, and its exact amount. */
    method CheckCollect(x: Uuid, lender: Uuid, amount: nat, net: Network) returns (res: Result<(), CashError>)
      requires Valid()
      modifies this`state, this`history, this`otpChallenges, this`desk
      ensures Valid() && old(history) <= history && old(desk) <= desk
      ensures res.Success? ==>
        && Known(state.db, x) && state.db.installments[x].amount == amount
        && state.db.loans[state.db.installments[x].loanId].lenderId == lender
        && (x in old(state).db.installments ==> Later(old(state).db.installments[x], state.db.installments[x]))
      ensures res.Failure? ==>
        && BeforeChallenge(res.error)
        && CheckRefusal(old(state), state, x, lender, amount, res.error, net)
      ensures net(0) && x in old(state).db.installments && old(state).db.installments[x].status == PAID ==>
        res == Failure(ALREADY_PAID)
    {
      ghost var start := history;
      Elsewhere();
      if x in old(state).db.installments { KnownLasts(start, history, x); }
      if !net(0) || x !in state.db.installments { return Failure(NOT_FOUND); }
      var i := state.db.installments[x];
      if i.status == PAID { return Failure(ALREADY_PAID); }
      ghost var read := history;
      Elsewhere();
      KnownLasts(read, history, x);
      if !net(1) || state.db.loans[i.loanId].lenderId != lender { return Failure(FORBIDDEN); }
      if i.amount != amount { return Failure(WRONG_AMOUNT); }
      return Success(());
    }

    /** The challenge, which is used up by success, then the loan once more, and the receipt. */
    method UseChallenge(x: Uuid, amount: nat, code: nat, now: Instant, ghost from: nat, net: Network)
        returns (res: Result<Digest, CashError>)
      requires Valid() && Known(state.db, x) && from <= |desk|
      modifies this`state, this`history, this`otpChallenges, this`desk, this`asked
      ensures Valid() && old(history) <= history && old(desk) <= desk && asked == old(asked) + [Take(x, code, now)]
      ensures res.Success? ==>
        && TookChallenge(desk, from, x, code, now) && Known(state.db, x)
        && IsCashReceipt(res.value, KeyOf(state.db, x), state.db.installments[x].number, amount, code, now)
      ensures res.Failure? ==>
        || (res.error == NO_LOAN && !net(2))
        || (res.error == NO_OTP && LackedChallenge(desk, from, x, code, now, false))
        || (res.error == BAD_OTP && LackedChallenge(desk, from, x, code, now, true))
    {
      ghost var taken, read := |desk|, history;
      var otp := TakeOtp(x, code, now);
      if otp.Failure? {
        ChallengeLacked(desk, from, taken, x, code, now);
        return Failure(otp.error);
      }
      ChallengeTaken(desk, from, taken, x, code, now);
      ghost var used := desk;
      Elsewhere();
      TookLasts(used, desk, from, x, code, now);
      KnownLasts(read, history, x);
      if !net(2) { return Failure(NO_LOAN); }
      return Success(CashReceipt(KeyOf(state.db, x), state.db.installments[x].number, amount, code, now));
    }

    /** claimCash, then confirmPayment, then the row. */
    method ClaimAndSubmit(x: Uuid, receipt: Digest, now: Instant, net: Network)
        returns (res: Result<Digest, CashError>, submitted: Option<HskTx>, ghost recorded: seq<Event>,
          ghost statements: seq<Event>)
      requires Valid() && Known(state.db, x) && OwnReceipt(receipt, KeyOf(state.db, x), state.db.installments[x].number)
      modifies this`state, this`history, this`sent, this`otpChallenges, this`desk
      ensures Valid() && old(history) <= recorded <= history && old(desk) <= desk
      ensures submitted.Some? ==>
        && x in state.db.installments && state.db.installments[x].rail == Some(CASH)
        && submitted.value in state.txs && CarriesCash(state.txs[submitted.value], x, receipt)
        && state.txs[submitted.value].key == receipt.hskLoanId && state.txs[submitted.value].number == receipt.number
      ensures res.Success? ==> submitted.Some? && res.value == receipt && Collected(state, x, receipt)
      ensures old(state).db.installments[x].rail == Some(POLLAR) ==> res.Failure? && submitted.None?
      ensures OnChain(old(state), x) ==> res.Failure?
      ensures res.Failure? ==> LateRefusal(state, x, res.error, submitted, net)
      ensures sent == old(sent) + statements
        && CashTrace(statements, x, old(state).db.installments[x].loanId, submitted, receipt, now)
      ensures res.Success? ==> CompletedIfPaid(state, recorded, x, old(state).db.installments[x].loanId, net(7))
    {
      ghost var start := history;
      statements := [];
      var claimed := ReserveCash(x, net);
      recorded := history;
      if net(3) { statements := [Event.Claim(x)]; }
      if !claimed { return Failure(RESERVED), None, recorded, statements; }
      KnownLasts(start, history, x);
      if OnChain(old(state), x) { OnChainLasts(start, history, x); }
      ghost var rest;
      res, submitted, recorded, rest := SendAndAwait(x, receipt, now, net);
      Appended(old(sent), statements, rest);
      statements := statements + rest;
      if submitted.Some? {
        KnownLasts(start, history, x);
        SubmissionFacts(history, submitted.value);
      }
    }

    /** confirmPayment() and what follows it, for a reserved row. */
    method SendAndAwait(x: Uuid, receipt: Digest, now: Instant, net: Network)
        returns (res: Result<Digest, CashError>, submitted: Option<HskTx>, ghost recorded: seq<Event>,
          ghost statements: seq<Event>)
      requires Valid() && Known(state.db, x) && x in state.claimed
      requires OwnReceipt(receipt, KeyOf(state.db, x), state.db.installments[x].number)
      modifies this`state, this`history, this`sent, this`otpChallenges, this`desk
      ensures Valid() && old(history) <= recorded <= history && old(desk) <= desk
      ensures submitted.Some? ==>
        && x in state.db.installments && state.db.installments[x].rail == Some(CASH)
        && submitted.value in state.txs && CarriesCash(state.txs[submitted.value], x, receipt)
      ensures res.Success? ==> submitted.Some? && res.value == receipt && Collected(state, x, receipt)
      ensures OnChain(old(state), x) ==> res.Failure?
      ensures res.Failure? ==> !res.error.RESERVED? && LateRefusal(state, x, res.error, submitted, net)
      ensures sent == old(sent) + statements
      ensures statements == []
        || (submitted.Some?
            && SendTrace(statements, x, old(state).db.installments[x].loanId, submitted.value, receipt, now))
      ensures res.Success? ==> CompletedIfPaid(state, recorded, x, old(state).db.installments[x].loanId, net(7))
    {
      ghost var start := history;
      statements := [];
      submitted := SendCash(x, receipt, net);
      recorded := history;
      if submitted.None? { return Failure(NOT_CONFIRMED), None, recorded, statements; }
      KnownLasts(start, history, x);
      if OnChain(old(state), x) { OnChainLasts(start, history, x); }
      ghost var rest;
      res, recorded, rest := AwaitCash(submitted.value, x, receipt, now, net);
      Appended(old(sent), [SubmitCash(submitted.value, x, receipt)], rest);
      statements := [SubmitCash(submitted.value, x, receipt)] + rest;
    }

    /** claimCash(). A row reserved for the other rail or paid refuses it. */
    method ReserveCash(x: Uuid, net: Network) returns (claimed: bool)
      requires Valid() && Known(state.db, x)
      modifies this`state, this`history, this`sent, this`otpChallenges, this`desk
      ensures Valid() && old(history) <= history && old(desk) <= desk
      ensures sent == if net(3) then old(sent) + [Event.Claim(x)] else old(sent)
      ensures claimed ==> net(3) && x in state.claimed && old(state).db.installments[x].rail != Some(POLLAR)
      ensures !claimed && net(3) ==>
        x in state.db.installments
          && (state.db.installments[x].status == PAID || state.db.installments[x].rail == Some(POLLAR))
    {
      ghost var start := history;
      Elsewhere();
      KnownLasts(start, history, x);
      if !net(3) { return false; }
      claimed := ClaimCash(state.db, x).Success?;
      ClaimOutcome(state, x);
      Do(Event.Claim(x));
    }

    /** confirmPayment() of the cash rail as far as the pool. */
    method SendCash(x: Uuid, receipt: Digest, net: Network) returns (submitted: Option<HskTx>)
      requires Valid() && Known(state.db, x) && x in state.claimed
      requires OwnReceipt(receipt, KeyOf(state.db, x), state.db.installments[x].number)
      modifies this`state, this`history, this`sent, this`otpChallenges, this`desk
      ensures Valid() && old(history) <= history && old(desk) <= desk
      ensures submitted.Some? <==> net(4)
      ensures submitted.None? ==> sent == old(sent)
      ensures submitted.Some? ==>
        && sent == old(sent) + [SubmitCash(submitted.value, x, receipt)]
        && Known(state.db, x) && state.db.installments[x].rail == Some(CASH)
        && state.db.installments[x].number < 0x1_0000
        && submitted.value in state.txs
        && state.txs[submitted.value] ==
             Submission(x, KeyOf(state.db, x), state.db.installments[x].number, receipt, false, ZeroHash, IN_POOL)
    {
      ghost var start := history;
      Elsewhere();
      LearntLasts(start, history);
      LearntIsTrue(history, x);
      KnownLasts(start, history, x);
      NumberFits(history, x);
      if !net(4) { return None; }
      SomeFreshHash(state.txs);
      var tx: HskTx :| tx !in state.txs;
      SubmitOutcome(state, tx, x, receipt);
      Do(SubmitCash(tx, x, receipt));
      return Some(tx);
    }

    /** The rest of collectCash once its confirmation is in the pool. */
    method AwaitCash(tx: HskTx, x: Uuid, receipt: Digest, now: Instant, net: Network)
        returns (res: Result<Digest, CashError>, ghost recorded: seq<Event>, ghost statements: seq<Event>)
      requires Valid() && Known(state.db, x) && state.db.installments[x].rail == Some(CASH)
      requires tx in state.txs && state.db.installments[x].number < 0x1_0000
      requires state.txs[tx] ==
        Submission(x, KeyOf(state.db, x), state.db.installments[x].number, receipt, false, ZeroHash, IN_POOL)
      modifies this`state, this`history, this`sent, this`otpChallenges, this`desk
      ensures Valid() && old(history) <= recorded <= history && old(desk) <= desk
      ensures x in state.db.installments && state.db.installments[x].rail == Some(CASH)
      ensures tx in state.txs && CarriesCash(state.txs[tx], x, receipt)
      ensures res.Success? ==> res.value == receipt && Collected(state, x, receipt)
      ensures OnChain(old(state), x) ==> res.Failure?
      ensures res.Failure? ==>
        || (res.error == NOT_CONFIRMED && (!net(5) || state.txs[tx].outcome != SUCCEEDED))
        || (res.error == OFFLINE && (!net(6) || !net(8)))
      ensures sent == old(sent) + statements
      ensures PayTrace(statements, old(state).db.installments[x].loanId, tx, now)
      ensures res.Success? ==> CompletedIfPaid(state, recorded, x, old(state).db.installments[x].loanId, net(7))
    {
      ghost var start := history;
      statements := [];
      var mined := AwaitMined(tx, x, net);
      recorded := history;
      if !mined { return Failure(NOT_CONFIRMED), recorded, statements; }
      ghost var paid, closed;
      res, recorded, paid, closed := RecordCash(tx, x, receipt, now, net);
      Appended(old(sent), paid, closed);
      statements := paid + closed;
    }

    /** tx.wait() of the cash rail. A confirmation for a place that was taken when it was sent never succeeds. */
    method AwaitMined(tx: HskTx, x: Uuid, net: Network) returns (mined: bool)
      requires Valid() && Known(state.db, x) && tx in state.txs && state.txs[tx].origin == x
      requires state.txs[tx].outcome == IN_POOL
      modifies this`state, this`history, this`otpChallenges, this`desk
      ensures Valid() && old(history) <= history && old(desk) <= desk
      ensures Known(state.db, x) && Later(old(state).db.installments[x], state.db.installments[x])
      ensures tx in state.txs && state.txs[tx] == old(state).txs[tx].(outcome := state.txs[tx].outcome)
      ensures mined <==> net(5) && state.txs[tx].outcome == SUCCEEDED
      ensures OnChain(old(state), x) ==> !mined
    {
      ghost var start := history;
      Elsewhere();
      KnownLasts(start, history, x);
      TxLasts(start, history, tx);
      if OnChain(old(state), x) { SentTooLate(start, history, x, tx); }
      return net(5) && state.txs[tx].outcome == SUCCEEDED;
    }

    /** updateInstallment(), which trigger and index never refuse here, and checkAndCompleteLoan(). */
    method RecordCash(tx: HskTx, x: Uuid, receipt: Digest, now: Instant, net: Network)
        returns (res: Result<Digest, CashError>, ghost recorded: seq<Event>, ghost paid: seq<Event>,
          ghost closed: seq<Event>)
      requires Valid() && Known(state.db, x) && state.db.installments[x].rail == Some(CASH)
      requires tx in state.txs && state.txs[tx].outcome == SUCCEEDED && CarriesCash(state.txs[tx], x, receipt)
      modifies this`state, this`history, this`sent, this`otpChallenges, this`desk
      ensures Valid() && old(history) <= recorded <= history && old(desk) <= desk
      ensures x in state.db.installments && state.db.installments[x].rail == Some(CASH)
      ensures tx in state.txs && CarriesCash(state.txs[tx], x, receipt)
      ensures res.Success? ==> res.value == receipt && Collected(state, x, receipt)
      ensures res.Failure? ==> res.error == OFFLINE && (!net(6) || !net(8))
      ensures sent == old(sent) + paid + closed
      ensures (paid == [] && closed == []) || (paid == [PayCash(tx, now)]
        && (closed == [] || closed == [CloseLoan(old(state).db.installments[x].loanId, now)]))
      ensures res.Success? ==> CompletedIfPaid(state, recorded, x, old(state).db.installments[x].loanId, net(7))
    {
      ghost var start := history;
      var loanId := state.db.installments[x].loanId;
      Elsewhere();
      KnownLasts(start, history, x);
      TxLasts(start, history, tx);
      recorded, paid, closed := history, [], [];
      if !net(6) { return Failure(OFFLINE), recorded, paid, closed; }
      UpdateRow(tx, x, receipt, now);
      recorded := history;
      var ok, c := CheckAndComplete(loanId, now, net);
      paid, closed := [PayCash(tx, now)], c;
      KnownLasts(recorded, history, x);
      KnownLasts(start, history, x);
      TxLasts(start, history, tx);
      SubmissionFacts(history, tx);
      return if ok then Success(receipt) else Failure(OFFLINE), recorded, paid, closed;
    }

    method UpdateRow(tx: HskTx, x: Uuid, receipt: Digest, now: Instant)
      requires Valid() && x in state.db.installments && state.db.installments[x].rail == Some(CASH)
      requires tx in state.txs && state.txs[tx].outcome == SUCCEEDED && CarriesCash(state.txs[tx], x, receipt)
      modifies this`state, this`history, this`sent
      ensures Valid() && old(history) <= history && sent == old(sent) + [PayCash(tx, now)]
      ensures PaidInCash(old(state).db, state.db, x, receipt, now)
    {
      CashUpdatePasses(history, tx, now);
      PayOutcome(state, tx, now);
      Do(PayCash(tx, now));
    }

    /**
     Reads the schedule, then closes the loan. A loan that was fully paid when the call began is COMPLETED afterwards,
     unless a request failed; a schedule that could not be read counts as empty, and then the call does nothing and says
     nothing.
     */
    method CheckAndComplete(loanId: Uuid, now: Instant, net: Network)
        returns (ok: bool, ghost statements: seq<Event>)
      requires Valid()
      modifies this`state, this`history, this`sent, this`otpChallenges, this`desk
      ensures Valid() && old(history) <= history && old(desk) <= desk
      ensures !ok ==> net(7) && !net(8)
      ensures ok && net(7) && PaidUp(old(state).db, loanId) ==> Closed(state.db, loanId)
      ensures sent == old(sent) + statements && (statements == [] || statements == [CloseLoan(loanId, now)])
      ensures statements != [] ==> net(7) && net(8) && Closed(state.db, loanId)
    {
      ghost var start := history;
      statements := [];
      Elsewhere();
      if !net(7) { return true, statements; }
      if PaidUp(old(state).db, loanId) { PaidLasts(start, history, loanId); }
      var allPaid := PaidUp(state.db, loanId);
      SawOutcome(state, loanId);
      Learn(SeeAllPaid(loanId));
      if !allPaid { return true, statements; }
      ghost var read := history;
      Elsewhere();
      LearntLasts(read, history);
      if !net(8) { return false, statements; }
      LearntIsTrue(history, loanId);
      SawPaidCloses(state, loanId, now);
      Do(CloseLoan(loanId, now));
      return true, [CloseLoan(loanId, now)];
    }
  }
}
