/**
 The settlement protocol across its three stores: the SQL tables, the Stellar ledger and the HSK chain.

 A state holds the stores together with what worker processes have already learnt. A fact that some
 worker obtained before an await (a verified hash, a read row, a successful claim) is put in a set and
 may be acted upon at any later time, any number of times, or never. That covers every number of
 concurrent workers and every crash or timeout between two awaits; the worker lease is not used.
 */
module Protocol {
  import opened Wrappers
  import opened Values
  import Registry
  import opened SettlementDb
  import Stellar
  import Decimal

  // The operator address, the contract address and the chain are fixed configuration.
  const OPERATOR: Address := 1
  const CONTRACT: Address := 2

  datatype LedgerEntry = LedgerEntry(tx: Stellar.Transaction, ops: seq<Stellar.Payment>)

  datatype TxOutcome = IN_POOL | SUCCEEDED | REVERTED

  /** A confirmPayment transaction the operator signed for installment `origin`. */
  datatype Submission = Submission(origin: Uuid, key: LoanKey, number: uint16, receipt: Digest, digital: bool,
      external: Digest, outcome: TxOutcome)

  datatype State = State(
    db: Database,
    ledger: map<StellarHash, LedgerEntry>,
    registry: Registry.Storage,            // at the head block
    previous: Registry.Storage,            // one block earlier: what blockTag = height - 1 reads
    height: nat,                           // the number of the head block
    txs: map<HskTx, Submission>,
    minedAt: map<HskTx, nat>,              // the block of each confirmation that succeeded
    verified: set<(Uuid, StellarHash, Instant)>,  // verify answered VERIFIED for an intent and a hash
    snapshots: set<Intent>,                // intents read from the anchor queue
    seen: set<Uuid>,                       // intents whose exact proof was read on chain
    claimed: set<Uuid>,                    // installments for which claimCash succeeded
    sawPaid: set<Uuid>)                    // loans whose rows were all read as PAID

  const GENESIS: State := State(EMPTY, map[], Registry.EMPTY, Registry.EMPTY, 0, map[], map[], {}, {}, {}, {}, {})

  datatype Event =
    // HSK
    | ContractCall(call: Registry.Call)                       // anyone but the operator's payment confirmations
    | Mine(tx: HskTx, now: nat)
    | NextBlock
    // Stellar
    | LedgerClose(hash: StellarHash, entry: LedgerEntry)
    // loans
    | InsertLoanRow(id: Uuid, loan: Loan)
    | InsertScheduleRows(loanId: Uuid, ids: seq<Uuid>, rows: seq<Installment>)
    | SetWallet(profile: Uuid, address: Address)
    | RelabelRow(x: Uuid, status: Status)
    // Pollar rail
    | Create(id: Uuid, x: Uuid, actor: Uuid, sender: Address, issuer: Address, minLedger: int, at: Instant)
    | Report(id: Uuid, actor: Uuid, hash: StellarHash, at: Instant)
    | VerifyPayment(id: Uuid, hash: StellarHash)
    | SettlePayment(id: Uuid, hash: StellarHash, paidAt: Instant)
    | RejectCandidate(id: Uuid, hash: StellarHash)
    | Postpone(id: Uuid, hash: StellarHash, at: Instant)
    | ReadQueue(id: Uuid)
    | SubmitAnchor(tx: HskTx, intent: Intent)
    | SeeProof(intent: Intent)
    | CloseIntent(id: Uuid, hskTx: Option<HskTx>)
    | PostponeAnchor(id: Uuid, at: Instant)
    // cash rail
    | Claim(x: Uuid)
    | SubmitCash(tx: HskTx, x: Uuid, receipt: Digest)
    | PayCash(tx: HskTx, at: Instant)
    | SeeAllPaid(loanId: Uuid)
    | CloseLoan(loanId: Uuid, at: Instant)

  // ---------- helpers the steps share

  function RouteOf(t: Terms): Stellar.Route {
    Stellar.Route(t.sender, t.recipient, t.issuer)
  }

  /** reconcile's receipt: a digest of the frozen terms and the Stellar hash. */
  function ReceiptOf(t: Terms, hash: StellarHash): Digest {
    PollarReceipt(t.id, t.hskLoanId, t.number, t.sender, t.recipient, t.amount, t.issuer, hash)
  }

  function EntryAt(ledger: map<StellarHash, LedgerEntry>, hash: StellarHash): Option<LedgerEntry> {
    if hash in ledger then Some(ledger[hash]) else None
  }

  /** A verdict depends on nothing but the frozen terms and the ledger entry of the hash. */
  function VerifyEntry(t: Terms, hash: StellarHash, entry: Option<LedgerEntry>): Stellar.Outcome {
    match entry
    case Some(e) => Stellar.Verify(Decimal.PrintCents(t.amount), hash, RouteOf(t), t.minLedger, Some(e.tx), Some(e.ops))
    case None => Stellar.Verify(Decimal.PrintCents(t.amount), hash, RouteOf(t), t.minLedger, None, None)
  }

  function VerifyOn(ledger: map<StellarHash, LedgerEntry>, t: Terms, hash: StellarHash): Stellar.Outcome {
    VerifyEntry(t, hash, EntryAt(ledger, hash))
  }

  /** anchor's `matches`: the proof carries this intent's receipt and Stellar transaction. */
  predicate Matches(p: Registry.Proof, r: Intent) {
    p.isDigital && r.receiptHash == Some(p.receiptHash) && r.txHash.Some?
      && p.externalTxHash == ExternalHash(r.txHash.value)
  }

  function WithVerdict(s: State, id: Uuid, hash: StellarHash, verdict: Stellar.Outcome): State {
    if verdict.CONFIRMED? then s.(verified := s.verified + {(id, hash, verdict.at)}) else s
  }

  function WithDb(s: State, r: Result<Database, SqlError>): State {
    match r case Success(db) => s.(db := db) case Failure(_) => s
  }

  // ---------- one step

  function Step(s: State, e: Event): State {
    match e
    case ContractCall(call) =>
      if call.now > 0 && (call.ConfirmCall? ==> call.sender != OPERATOR)
      then s.(registry := Registry.Execute(s.registry, call)) else s
    case Mine(tx, now) => MineTx(s, tx, now)
    case NextBlock => s.(previous := s.registry, height := s.height + 1)
    case LedgerClose(hash, entry) =>
      if hash !in s.ledger && entry.tx.hash == hash then s.(ledger := s.ledger[hash := entry]) else s
    case InsertLoanRow(id, loan) =>
      // createLoan inserts the row only after its own registerLoan transaction succeeded.
      var onChain := Registry.LoanAt(s.registry, loan.hskLoanId);
      if onChain.createdAt != 0 && onChain.lender == OPERATOR && onChain.totalInstallments == loan.totalInstallments
      then WithDb(s, InsertLoan(s.db, id, loan)) else s
    case InsertScheduleRows(loanId, ids, rows) => WithDb(s, InsertSchedule(s.db, loanId, ids, rows))
    case SetWallet(profile, address) => s.(db := SetRoute(s.db, profile, address))
    case RelabelRow(x, status) => WithDb(s, Relabel(s.db, x, status))
    case Create(id, x, actor, sender, issuer, minLedger, at) =>
      WithDb(s, CreateIntent(s.db, id, x, actor, sender, issuer, minLedger, CONTRACT, at))
    case Report(id, actor, hash, at) => WithDb(s, Observe(s.db, id, actor, hash, at))
    case VerifyPayment(id, hash) =>
      if id in s.db.intents then WithVerdict(s, id, hash, VerifyOn(s.ledger, s.db.intents[id].terms, hash)) else s
    case SettlePayment(id, hash, paidAt) =>
      if (id, hash, paidAt) in s.verified && id in s.db.intents
      then WithDb(s, Settle(s.db, id, hash, ReceiptOf(s.db.intents[id].terms, hash), paidAt)) else s
    case RejectCandidate(id, hash) => s.(db := Reject(s.db, id, hash))
    case Postpone(id, hash, at) => s.(db := DeferCandidate(s.db, id, hash, at))
    case ReadQueue(id) =>
      if id in s.db.intents && s.db.intents[id].status == VERIFIED
      then s.(snapshots := s.snapshots + {s.db.intents[id]}) else s
    case SubmitAnchor(tx, r) => Submit(s, tx, r)
    case SeeProof(r) =>
      var found := Registry.FindProof(Registry.ProofsAt(s.previous, r.terms.hskLoanId), r.terms.number);
      if r in s.snapshots && found.Some? && Matches(found.value, r) then s.(seen := s.seen + {r.terms.id}) else s
    case CloseIntent(id, hskTx) => if id in s.seen then WithDb(s, MarkAnchored(s.db, id, hskTx)) else s
    case PostponeAnchor(id, at) => s.(db := AnchorFailed(s.db, id, at))
    case Claim(x) =>
      if ClaimCash(s.db, x).Success? then s.(db := ClaimCash(s.db, x).value, claimed := s.claimed + {x}) else s
    case SubmitCash(tx, x, receipt) => SubmitClaimed(s, tx, x, receipt)
    case PayCash(tx, at) =>
      if tx in s.txs && s.txs[tx].outcome == SUCCEEDED && !s.txs[tx].digital
      then WithDb(s, MarkCashPaid(s.db, s.txs[tx].origin, s.txs[tx].receipt, at)) else s
    case SeeAllPaid(loanId) =>
      if PaidUp(s.db, loanId) then s.(sawPaid := s.sawPaid + {loanId}) else s
    case CloseLoan(loanId, at) => if loanId in s.sawPaid then WithDb(s, CompleteLoan(s.db, loanId, at)) else s
  }

  /** The pool may hold a transaction for ever; if it is mined, the contract decides whether it reverts. */
  function MineTx(s: State, tx: HskTx, now: nat): State {
    if tx !in s.txs || s.txs[tx].outcome != IN_POOL || now == 0 then s
    else
      var t := s.txs[tx];
      match Registry.Confirm(s.registry, OPERATOR, now, t.key, t.number, t.receipt, t.digital, t.external)
      case Success(storage) =>
        s.(registry := storage, txs := s.txs[tx := t.(outcome := SUCCEEDED)], minedAt := s.minedAt[tx := s.height])
      case Failure(_) => s.(txs := s.txs[tx := t.(outcome := REVERTED)])
  }

  /** wait(2): the transaction succeeded, and a block has followed its own. */
  predicate TwiceConfirmed(s: State, tx: HskTx) {
    tx in s.txs && s.txs[tx].outcome == SUCCEEDED && tx in s.minedAt && s.minedAt[tx] < s.height
  }

  function Submit(s: State, tx: HskTx, r: Intent): State {
    if r in s.snapshots && tx !in s.txs && r.terms.number < 0x1_0000 && r.receiptHash.Some? && r.txHash.Some? then
      s.(txs := s.txs[tx := Submission(r.terms.installmentId, r.terms.hskLoanId, r.terms.number,
                                       r.receiptHash.value, true, ExternalHash(r.txHash.value), IN_POOL)])
    else s
  }

  /** collectCash's receipt: a digest over the installment's own place, the amount, the code and the time. */
  predicate OwnReceipt(receipt: Digest, key: LoanKey, number: nat) {
    receipt.CashReceipt? && receipt.hskLoanId == key && receipt.number == number
  }

  function SubmitClaimed(s: State, tx: HskTx, x: Uuid, receipt: Digest): State {
    if x in s.claimed && tx !in s.txs && Known(s.db, x) && s.db.installments[x].number < 0x1_0000
       && OwnReceipt(receipt, KeyOf(s.db, x), s.db.installments[x].number)
    then
      s.(txs := s.txs[tx := Submission(x, KeyOf(s.db, x), s.db.installments[x].number, receipt, false, ZeroHash,
        IN_POOL)])
    else s
  }

  function Run(s: State, events: seq<Event>): State
    decreases |events|
  {
    if events == [] then s else Run(Step(s, events[0]), events[1..])
  }

  // ---------- the invariant

  predicate Known(db: Database, x: Uuid) {
    x in db.installments && db.installments[x].loanId in db.loans
  }

  function KeyOf(db: Database, x: Uuid): LoanKey
    requires Known(db, x)
  {
    db.loans[db.installments[x].loanId].hskLoanId
  }

  /** A confirmation of installment x, mined or not, fits the rail x is reserved for. */
  ghost predicate Agrees(db: Database, x: Uuid, receipt: Digest, digital: bool, external: Digest) {
    && Known(db, x)
    && if digital then
         && db.installments[x].rail == Some(POLLAR)
         && x in db.intentOf && db.intentOf[x] in db.intents
         && var r := db.intents[db.intentOf[x]];
            r.status != CREATED && r.receiptHash == Some(receipt) && r.txHash.Some?
              && external == ExternalHash(r.txHash.value)
       else
         db.installments[x].rail == Some(CASH) && external == ZeroHash
  }

  ghost predicate ProofIs(
        reg: Registry.Storage, key: LoanKey, number: nat, receipt: Digest, digital: bool, external: Digest)
  {
    var proofs := Registry.ProofsAt(reg, key);
    && 1 <= number <= |proofs|
    && proofs[number - 1].receiptHash == receipt
    && proofs[number - 1].isDigital == digital
    && proofs[number - 1].externalTxHash == external
  }

  /** The exact proof of a settled intent is on chain. */
  ghost predicate ProvenOn(reg: Registry.Storage, r: Intent) {
    && r.receiptHash.Some? && r.txHash.Some?
    && ProofIs(reg, r.terms.hskLoanId, r.terms.number, r.receiptHash.value, true, ExternalHash(r.txHash.value))
  }

  ghost predicate LoanLinked(s: State, l: Uuid) {
    l in s.db.loans ==>
      var onChain := Registry.LoanAt(s.registry, s.db.loans[l].hskLoanId);
      onChain.createdAt != 0 && onChain.lender == OPERATOR
        && onChain.totalInstallments == s.db.loans[l].totalInstallments
  }

  ghost predicate RowOnChain(s: State, x: Uuid) {
    Known(s.db, x) ==>
      var i := s.db.installments[x];
      var proofs := Registry.ProofsAt(s.registry, KeyOf(s.db, x));
      && (1 <= i.number <= |proofs| ==>
            Agrees(s.db, x, proofs[i.number - 1].receiptHash, proofs[i.number - 1].isDigital,
              proofs[i.number - 1].externalTxHash))
      && (i.sync == SYNCED ==> 1 <= i.number <= |proofs| && i.receiptHash == Some(proofs[i.number - 1].receiptHash))
      && (i.status == PAID ==> i.rail.Some?)
  }

  ghost predicate IsRow(db: Database, x: Uuid, key: LoanKey, number: nat) {
    Known(db, x) && KeyOf(db, x) == key && db.installments[x].number == number
  }

  /** Every proof of an operator loan belongs to an installment. */
  ghost predicate Attributed(s: State, key: LoanKey, number: nat) {
    1 <= number <= |Registry.ProofsAt(s.registry, key)| && Registry.LoanAt(s.registry, key).lender == OPERATOR ==>
      exists x :: IsRow(s.db, x, key, number)
  }

  /** A loan has either no installments or all of 1..total. */
  ghost predicate Covered(s: State, l: Uuid, k: nat) {
    l in s.db.loans && Scheduled(s.db.installments, l) && 1 <= k <= s.db.loans[l].totalInstallments ==>
      exists x :: x in s.db.installments && s.db.installments[x].loanId == l && s.db.installments[x].number == k
  }

  ghost predicate TxAt(s: State, t: HskTx) {
    t in s.txs ==>
      var tx := s.txs[t];
      && Known(s.db, tx.origin)
      && tx.key == KeyOf(s.db, tx.origin)
      && tx.number == s.db.installments[tx.origin].number
      && Agrees(s.db, tx.origin, tx.receipt, tx.digital, tx.external)
      && (tx.outcome == SUCCEEDED ==> ProofIs(s.registry, tx.key, tx.number, tx.receipt, tx.digital, tx.external))
  }

  /** A successful ledger payment, after the intent's ledger, with exactly its terms. */
  ghost predicate Backed(ledger: map<StellarHash, LedgerEntry>, t: Terms, hash: StellarHash) {
    && hash in ledger
    && ledger[hash].tx.hash == hash && ledger[hash].tx.successful && ledger[hash].tx.ledger > t.minLedger
    && exists k: nat ::
         k < |ledger[hash].ops| && Stellar.Pays(ledger[hash].ops[k], hash, RouteOf(t), t.amount * 100_000)
  }

  ghost predicate IntentBacked(s: State, i: Uuid) {
    i in s.db.intents && s.db.intents[i].txHash.Some? ==>
      var r := s.db.intents[i];
      && Backed(s.ledger, r.terms, r.txHash.value)
      && r.receiptHash == Some(ReceiptOf(r.terms, r.txHash.value))
      && r.paidAt == Some(s.ledger[r.txHash.value].tx.createdAt)
  }

  ghost predicate VerifiedAt(s: State, v: (Uuid, StellarHash, Instant)) {
    v in s.verified ==>
      v.0 in s.db.intents && Backed(s.ledger, s.db.intents[v.0].terms, v.1) && s.ledger[v.1].tx.createdAt == v.2
  }

  ghost predicate SnapshotAt(s: State, r: Intent) {
    r in s.snapshots ==>
      && r.terms.id in s.db.intents
      && s.db.intents[r.terms.id].terms == r.terms
      && r.txHash.Some? && s.db.intents[r.terms.id].txHash == r.txHash
      && r.receiptHash.Some? && s.db.intents[r.terms.id].receiptHash == r.receiptHash
  }

  ghost predicate SeenAt(s: State, i: Uuid) {
    i in s.seen ==> i in s.db.intents && ProvenOn(s.registry, s.db.intents[i])
  }

  ghost predicate ClaimedAt(s: State, x: Uuid) {
    x in s.claimed ==> Known(s.db, x) && s.db.installments[x].rail == Some(CASH)
  }

  ghost predicate SawPaidAt(s: State, l: Uuid) {
    l in s.sawPaid ==> l in s.db.loans && Scheduled(s.db.installments, l) && AllPaid(s.db.installments, l)
  }

  ghost predicate Inv(s: State) {
    && Valid(s.db) && Registry.Valid(s.registry) && Registry.Extends(s.previous, s.registry)
    && (forall l: Uuid {:trigger LoanLinked(s, l)} :: LoanLinked(s, l))
    && (forall x: Uuid {:trigger RowOnChain(s, x)} :: RowOnChain(s, x))
    && (forall key: LoanKey, k: nat {:trigger Attributed(s, key, k)} :: Attributed(s, key, k))
    && (forall l: Uuid, k: nat {:trigger Covered(s, l, k)} :: Covered(s, l, k))
    && (forall t: HskTx {:trigger TxAt(s, t)} :: TxAt(s, t))
    && (forall i: Uuid {:trigger IntentBacked(s, i)} :: IntentBacked(s, i))
    && (forall v: (Uuid, StellarHash, Instant) {:trigger VerifiedAt(s, v)} :: VerifiedAt(s, v))
    && (forall r: Intent {:trigger SnapshotAt(s, r)} :: SnapshotAt(s, r))
    && (forall i: Uuid {:trigger SeenAt(s, i)} :: SeenAt(s, i))
    && (forall x: Uuid {:trigger ClaimedAt(s, x)} :: ClaimedAt(s, x))
    && (forall l: Uuid {:trigger SawPaidAt(s, l)} :: SawPaidAt(s, l))
  }

  /** Nothing recorded in any of the three stores is ever taken back. */
  ghost predicate Follows(a: State, b: State) {
    && Grows(a.db, b.db)
    && Registry.Extends(a.registry, b.registry)
    && Registry.Extends(a.previous, b.previous)
    && (forall h: StellarHash {:trigger h in b.ledger} :: h in a.ledger ==> h in b.ledger && b.ledger[h] == a.ledger[h])
    && (forall t: HskTx {:trigger t in b.txs} :: t in a.txs ==>
          && t in b.txs && b.txs[t] == a.txs[t].(outcome := b.txs[t].outcome)
          && (a.txs[t].outcome != IN_POOL ==> b.txs[t].outcome == a.txs[t].outcome))
    && a.verified <= b.verified && a.snapshots <= b.snapshots && a.seen <= b.seen && a.claimed <= b.claimed
    && a.sawPaid <= b.sawPaid
  }
}
