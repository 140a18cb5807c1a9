/**
 The settlement tables and what each SQL function does to them.

 Every function below is one atomic statement of the migration: it either returns the whole next
 database or the error it raises. `SettlementSql` holds the same operations as the plpgsql bodies
 run them, triggers and constraint checks included.
 */
module SettlementDb {
  import opened Wrappers
  import opened Values

  datatype Currency = BOB | USDC
  datatype LoanStatus = LOAN_PENDING | LOAN_ACTIVE | LOAN_COMPLETED | LOAN_DEFAULTED
  datatype Status = PENDING | PENDING_BORROWER_CONFIRMATION | PAID | OVERDUE
  datatype Rail = CASH | POLLAR
  datatype Method = BY_CASH | BY_POLLAR_USDC
  datatype Sync = SYNC_PENDING | SYNCED | SYNC_FAILED
  datatype IntentStatus = CREATED | VERIFIED | ANCHORED
  datatype CandidateStatus = CANDIDATE_PENDING | CANDIDATE_VERIFIED | CANDIDATE_REJECTED

  /** `onStellar` is true when settlement_network is 'stellar:testnet'. Amounts are in cents. */
  datatype Loan = Loan(
    hskLoanId: LoanKey, lenderId: Uuid, borrowerId: Uuid, currency: Currency, onStellar: bool,
    totalInstallments: nat, status: LoanStatus, completedAt: Option<Instant>)

  datatype Installment = Installment(
    loanId: Uuid, number: nat, amount: nat, status: Status, paidDate: Option<Instant>,
    rail: Option<Rail>, paymentMethod: Option<Method>, pollarTxHash: Option<StellarHash>,
    receiptHash: Option<Digest>, sync: Sync)

  /** The columns of an intent that pollar_protect_intent freezes at creation. */
  datatype Terms = Terms(
    id: Uuid, installmentId: Uuid, loanId: Uuid, borrowerId: Uuid, lenderId: Uuid,
    hskLoanId: LoanKey, number: nat, sender: Address, recipient: Address, amount: nat,
    issuer: Address, minLedger: int, hskContract: Address)

  datatype Intent = Intent(
    terms: Terms, status: IntentStatus, txHash: Option<StellarHash>, receiptHash: Option<Digest>,
    paidAt: Option<Instant>, hskTxHash: Option<HskTx>, anchorFailed: bool, nextAttemptAt: Instant)

  datatype Candidate = Candidate(status: CandidateStatus, nextAttemptAt: Instant, createdAt: Instant)

  /** `intentOf` is the unique index on pollar_payment_intents(installment_id). */
  datatype Database = Database(
    loans: map<Uuid, Loan>,
    installments: map<Uuid, Installment>,
    intents: map<Uuid, Intent>,
    intentOf: map<Uuid, Uuid>,
    candidates: map<(Uuid, StellarHash), Candidate>,
    routes: map<Uuid, Address>)

  datatype SqlError =
    | CUOTA_NO_AUTORIZADA | INTENCION_OTRA_WALLET | CUOTA_NO_DISPONIBLE | CUOTA_ANTERIOR_PENDIENTE
    | PRESTAMISTA_SIN_WALLET | CUOTA_YA_PAGADA | DEMASIADOS_PAGOS_PENDIENTES | INTENCION_NO_EXISTE
    | PAGO_NO_REPORTADO | PAGO_NO_VERIFICADO | CUOTA_RESERVADA_O_PAGADA
    | RAIL_INMUTABLE | CUOTA_INMUTABLE | PAGO_INMUTABLE | PAGO_SIN_VERIFICAR | INTENCION_INMUTABLE | ESTADO_INMUTABLE
    | UNIQUE_VIOLATION | CHECK_VIOLATION | NO_ROW

  const EMPTY: Database := Database(map[], map[], map[], map[], map[], map[])
  const MAX_PENDING: nat := 5
  const INTENT_AMOUNT_LIMIT: nat := 1_000_000_000_00

  // ---------- queries

  predicate EarlierSynced(rows: map<Uuid, Installment>, loanId: Uuid, number: nat) {
    forall y <- rows :: rows[y].loanId == loanId && rows[y].number < number ==>
        rows[y].status == PAID && rows[y].sync == SYNCED
  }

  predicate AllPaid(rows: map<Uuid, Installment>, loanId: Uuid) {
    forall y <- rows :: rows[y].loanId == loanId ==> rows[y].status == PAID
  }

  predicate Scheduled(rows: map<Uuid, Installment>, loanId: Uuid) {
    exists y <- rows :: rows[y].loanId == loanId
  }

  predicate PaidUp(db: Database, loanId: Uuid) {
    Scheduled(db.installments, loanId) && AllPaid(db.installments, loanId)
  }

  function PendingFor(candidates: map<(Uuid, StellarHash), Candidate>, id: Uuid): set<(Uuid, StellarHash)> {
    set k <- candidates | k.0 == id && candidates[k].status == CANDIDATE_PENDING
  }

  predicate TxTaken(intents: map<Uuid, Intent>, id: Uuid, hash: StellarHash) {
    exists j <- intents :: j != id && intents[j].txHash == Some(hash)
  }

  predicate ReceiptTaken(rows: map<Uuid, Installment>, x: Uuid, receipt: Digest) {
    exists y <- rows :: y != x && rows[y].receiptHash == Some(receipt)
  }

  // ---------- the SQL functions

  function CreateIntent(db: Database, id: Uuid, x: Uuid, actor: Uuid, sender: Address, issuer: Address, ledger: int,
        hskContract: Address, now: Instant)
    : Result<Database, SqlError>
  {
    if x !in db.installments || db.installments[x].loanId !in db.loans
        || db.loans[db.installments[x].loanId].borrowerId != actor then
      Failure(CUOTA_NO_AUTORIZADA)
    else
      var i := db.installments[x];
      var l := db.loans[i.loanId];
      if x in db.intentOf && db.intentOf[x] in db.intents then
        if db.intents[db.intentOf[x]].terms.sender != sender then Failure(INTENCION_OTRA_WALLET) else Success(db)
      else if l.currency != USDC || !l.onStellar || l.status != LOAN_ACTIVE || i.status !in {PENDING, OVERDUE}
          || i.rail != None then
        Failure(CUOTA_NO_DISPONIBLE)
      else if !EarlierSynced(db.installments, i.loanId, i.number) then Failure(CUOTA_ANTERIOR_PENDIENTE)
      else if l.lenderId !in db.routes then Failure(PRESTAMISTA_SIN_WALLET)
      else if id in db.intents then Failure(UNIQUE_VIOLATION)
      else if i.amount >= INTENT_AMOUNT_LIMIT || i.amount == 0 || ledger <= 0
          || sender == db.routes[l.lenderId] then Failure(CHECK_VIOLATION)
      else
        var terms := Terms(id, x, i.loanId, l.borrowerId, l.lenderId, l.hskLoanId, i.number,
                           sender, db.routes[l.lenderId], i.amount, issuer, ledger, hskContract);
        Success(db.(
          installments := db.installments[x := i.(rail := Some(POLLAR))],
          intents := db.intents[id := Intent(terms, CREATED, None, None, None, None, false, now)],
          intentOf := db.intentOf[x := id]))
  }

  function Observe(db: Database, id: Uuid, actor: Uuid, hash: StellarHash, now: Instant): Result<Database, SqlError> {
    if id !in db.intents || db.intents[id].terms.borrowerId != actor then Failure(CUOTA_NO_AUTORIZADA)
    else if db.intents[id].status != CREATED then
      if db.intents[id].txHash != Some(hash) then Failure(CUOTA_YA_PAGADA) else Success(db)
    else if (id, hash) in db.candidates then Success(db)
    else if |PendingFor(db.candidates, id)| >= MAX_PENDING then Failure(DEMASIADOS_PAGOS_PENDIENTES)
    else Success(db.(candidates := db.candidates[(id, hash) := Candidate(CANDIDATE_PENDING, now, now)]))
  }

  function Settle(
        db: Database, id: Uuid, hash: StellarHash, receipt: Digest, paidAt: Instant): Result<Database, SqlError>
  {
    if id !in db.intents then Failure(INTENCION_NO_EXISTE)
    else
      var r := db.intents[id];
      var x := r.terms.installmentId;
      if r.status != CREATED then
        if r.txHash != Some(hash) || r.receiptHash != Some(receipt) then Failure(CUOTA_YA_PAGADA) else Success(db)
      else if x !in db.installments || db.installments[x].status == PAID || db.installments[x].rail != Some(POLLAR) then
        Failure(CUOTA_YA_PAGADA)
      else if (id, hash) !in db.candidates || db.candidates[(id, hash)].status != CANDIDATE_PENDING then
        Failure(PAGO_NO_REPORTADO)
      else if TxTaken(db.intents, id, hash) || ReceiptTaken(db.installments, x, receipt) then Failure(UNIQUE_VIOLATION)
      else
        var paid := db.installments[x].(status := PAID, paidDate := Some(paidAt), paymentMethod := Some(BY_POLLAR_USDC),
                                        pollarTxHash := Some(hash), receiptHash := Some(receipt), sync := SYNC_PENDING);
        var next := db.(
          intents := db.intents[id := r.(status := VERIFIED, txHash := Some(hash), receiptHash := Some(receipt),
            paidAt := Some(paidAt))],
          installments := db.installments[x := paid],
          candidates := db.candidates[(id, hash) := db.candidates[(id, hash)].(status := CANDIDATE_VERIFIED)]);
        Success(if AllPaid(next.installments, r.terms.loanId) then Completed(next, r.terms.loanId, paidAt) else next)
  }

  /** UPDATE loans SET status='COMPLETED', completed_at=at WHERE id=loanId */
  function Completed(db: Database, loanId: Uuid, at: Instant): Database {
    if loanId in db.loans
    then db.(loans := db.loans[loanId := db.loans[loanId].(status := LOAN_COMPLETED, completedAt := Some(at))])
    else db
  }

  function MarkAnchored(db: Database, id: Uuid, hskTx: Option<HskTx>): Result<Database, SqlError> {
    if id !in db.intents || db.intents[id].status == CREATED then Failure(PAGO_NO_VERIFICADO)
    else
      var r := db.intents[id];
      var x := r.terms.installmentId;
      var next := db.(intents := db.intents[id :=
        r.(status := ANCHORED, hskTxHash := if hskTx.Some? then hskTx else r.hskTxHash, anchorFailed := false)]);
      Success(
        if x in db.installments && db.installments[x].receiptHash.Some?
            && db.installments[x].receiptHash == r.receiptHash
        then next.(installments := db.installments[x := db.installments[x].(sync := SYNCED)])
        else next)
  }

  function ClaimCash(db: Database, x: Uuid): Result<Database, SqlError> {
    if x in db.installments && db.installments[x].status != PAID && db.installments[x].rail in {None, Some(CASH)}
    then Success(db.(installments := db.installments[x := db.installments[x].(rail := Some(CASH))]))
    else Failure(CUOTA_RESERVADA_O_PAGADA)
  }

  // ---------- the direct table updates the services issue

  /** collectCash's UPDATE installments, as the protect_payment trigger and the unique receipt index let it through. */
  function MarkCashPaid(db: Database, x: Uuid, receipt: Digest, paidAt: Instant): Result<Database, SqlError> {
    if x !in db.installments then Failure(NO_ROW)
    else
      var i := db.installments[x];
      if i.status == PAID
          && (i.receiptHash != Some(receipt) || i.pollarTxHash != None || i.paymentMethod != Some(BY_CASH)) then
        Failure(PAGO_INMUTABLE)
      else if i.rail == Some(POLLAR) then Failure(PAGO_SIN_VERIFICAR)
      else if ReceiptTaken(db.installments, x, receipt) then Failure(UNIQUE_VIOLATION)
      else Success(db.(installments := db.installments[x :=
        i.(status := PAID, paymentMethod := Some(BY_CASH), paidDate := Some(paidAt), receiptHash := Some(receipt),
          sync := SYNCED)]))
  }

  function CompleteLoan(db: Database, loanId: Uuid, at: Instant): Result<Database, SqlError> {
    if loanId !in db.loans then Failure(NO_ROW) else Success(Completed(db, loanId, at))
  }

  /** Any relabelling of an unpaid installment (for example as OVERDUE). */
  function Relabel(db: Database, x: Uuid, status: Status): Result<Database, SqlError> {
    if x !in db.installments || db.installments[x].status == PAID || status == PAID then Failure(NO_ROW)
    else Success(db.(installments := db.installments[x := db.installments[x].(status := status)]))
  }

  function InsertLoan(db: Database, id: Uuid, loan: Loan): Result<Database, SqlError> {
    if id in db.loans
        || (exists l <- db.loans :: db.loans[l].hskLoanId == loan.hskLoanId) then Failure(UNIQUE_VIOLATION)
    else if loan.totalInstallments == 0 || loan.totalInstallments >= 0x1_0000 || loan.lenderId == loan.borrowerId
            || loan.status != LOAN_ACTIVE || loan.completedAt != None
    then Failure(CHECK_VIOLATION)
    else Success(db.(loans := db.loans[id := loan]))
  }

  predicate Fresh(i: Installment, loanId: Uuid) {
    && i.loanId == loanId && i.amount > 0
    && i.status == PENDING && i.paidDate == None && i.rail == None && i.paymentMethod == None
    && i.pollarTxHash == None && i.receiptHash == None && i.sync == SYNC_PENDING
  }

  /** The bulk insert of a whole schedule: rows 1..n of a loan that has none. */
  function InsertSchedule(
        db: Database, loanId: Uuid, ids: seq<Uuid>, rows: seq<Installment>): Result<Database, SqlError>
  {
    if loanId !in db.loans then Failure(CHECK_VIOLATION)
    else if |ids| != |rows| || |rows| != db.loans[loanId].totalInstallments
            || exists k | 0 <= k < |rows| :: !Fresh(rows[k], loanId) || rows[k].number != k + 1
    then Failure(CHECK_VIOLATION)
    else if Scheduled(db.installments, loanId) || (exists k | 0 <= k < |ids| :: ids[k] in db.installments)
            || (exists j, k | 0 <= j < k < |ids| :: ids[j] == ids[k])
    then Failure(UNIQUE_VIOLATION)
    else Success(db.(installments := WithRows(db.installments, ids, rows)))
  }

  function WithRows(table: map<Uuid, Installment>, ids: seq<Uuid>, rows: seq<Installment>): (t: map<Uuid, Installment>)
    requires |ids| == |rows|
    requires forall j, k :: 0 <= j < k < |ids| ==> ids[j] != ids[k]
    ensures forall x :: x in t <==> x in table || x in ids
    ensures forall k :: 0 <= k < |ids| ==> t[ids[k]] == rows[k]
    ensures forall x :: x in table && x !in ids ==> t[x] == table[x]
  {
    table + map k | 0 <= k < |ids| :: ids[k] := rows[k]
  }

  function SetRoute(db: Database, profile: Uuid, address: Address): Database {
    db.(routes := db.routes[profile := address])
  }

  // ---------- the guarded queue updates of the repository

  function DeferCandidate(db: Database, id: Uuid, hash: StellarHash, at: Instant): Database {
    if (id, hash) in db.candidates
    then db.(candidates := db.candidates[(id, hash) := db.candidates[(id, hash)].(nextAttemptAt := at)])
    else db
  }

  function Reject(db: Database, id: Uuid, hash: StellarHash): Database {
    if (id, hash) in db.candidates && db.candidates[(id, hash)].status == CANDIDATE_PENDING
    then db.(candidates := db.candidates[(id, hash) := db.candidates[(id, hash)].(status := CANDIDATE_REJECTED)])
    else db
  }

  function AnchorFailed(db: Database, id: Uuid, at: Instant): Database {
    if id in db.intents && db.intents[id].status == VERIFIED
    then db.(intents := db.intents[id := db.intents[id].(anchorFailed := true, nextAttemptAt := at)])
    else db
  }

  // ---------- what every reachable database satisfies

  ghost predicate RowOk(i: Installment) {
    && i.amount > 0 && 1 <= i.number
    && (i.status == PAID <==> i.paidDate.Some?)
    && (i.status == PAID <==> i.receiptHash.Some?)
    && (i.status == PAID <==> i.paymentMethod.Some?)
    && (i.paymentMethod == Some(BY_POLLAR_USDC) <==> i.pollarTxHash.Some?)
    && (i.sync == SYNCED ==> i.status == PAID)
    && (i.status == PAID ==> (i.paymentMethod == Some(BY_POLLAR_USDC) <==> i.rail == Some(POLLAR)))
  }

  ghost predicate IntentOk(r: Intent) {
    && (r.status == CREATED <==> r.txHash.None?)
    && (r.txHash.None? <==> r.receiptHash.None?)
    && (r.txHash.None? <==> r.paidAt.None?)
    && 0 < r.terms.amount < INTENT_AMOUNT_LIMIT
    && r.terms.minLedger > 0
    && r.terms.sender != r.terms.recipient
  }

  /** The intent and its installment tell the same story. */
  ghost predicate Mirrors(r: Intent, i: Installment) {
    && r.terms.loanId == i.loanId && r.terms.number == i.number && r.terms.amount == i.amount
    && i.rail == Some(POLLAR)
    && (r.status != CREATED <==> i.status == PAID)
    && (r.status != CREATED ==> i.receiptHash == r.receiptHash && i.pollarTxHash == r.txHash && i.paidDate == r.paidAt)
    && (r.status == ANCHORED <==> i.sync == SYNCED)
  }

  ghost predicate PaidByPollar(rows: map<Uuid, Installment>, loanId: Uuid) {
    forall y <- rows :: rows[y].loanId == loanId ==> rows[y].status == PAID && rows[y].rail == Some(POLLAR)
  }

  // Each invariant is stated at one key, so that proofs name the keys they reason about.

  ghost predicate LoanInv(db: Database, l: Uuid) {
    l in db.loans ==>
      && 1 <= db.loans[l].totalInstallments < 0x1_0000
      && (db.loans[l].status == LOAN_COMPLETED <==> db.loans[l].completedAt.Some?)
      && (db.loans[l].status == LOAN_COMPLETED ==> Scheduled(db.installments, l) && AllPaid(db.installments, l))
      && (Scheduled(db.installments, l) && PaidByPollar(db.installments, l) ==> db.loans[l].status == LOAN_COMPLETED)
  }

  ghost predicate LoanPair(db: Database, l: Uuid, m: Uuid) {
    l in db.loans && m in db.loans && db.loans[l].hskLoanId == db.loans[m].hskLoanId ==> l == m
  }

  /** The rail is POLLAR exactly when an intent exists, and then the two rows mirror each other. */
  ghost predicate RowInv(db: Database, x: Uuid) {
    && (x in db.installments ==>
          && RowOk(db.installments[x])
          && db.installments[x].loanId in db.loans
          && db.installments[x].number <= db.loans[db.installments[x].loanId].totalInstallments
          && (db.installments[x].rail == Some(POLLAR) <==> x in db.intentOf))
    && (x in db.intentOf ==>
          && x in db.installments
          && db.intentOf[x] in db.intents
          && db.intents[db.intentOf[x]].terms.installmentId == x
          && Mirrors(db.intents[db.intentOf[x]], db.installments[x]))
  }

  ghost predicate RowPair(db: Database, x: Uuid, y: Uuid) {
    x in db.installments && y in db.installments && x != y ==>
      && (db.installments[x].loanId != db.installments[y].loanId
        || db.installments[x].number != db.installments[y].number)
      && (db.installments[x].receiptHash.None? || db.installments[x].receiptHash != db.installments[y].receiptHash)
  }

  /** An intent exists only behind a fully settled prefix of its loan. */
  ghost predicate IntentInv(db: Database, i: Uuid) {
    i in db.intents ==>
      var r := db.intents[i];
      && IntentOk(r) && r.terms.id == i
      && r.terms.installmentId in db.intentOf && db.intentOf[r.terms.installmentId] == i
      && r.terms.loanId in db.loans && r.terms.hskLoanId == db.loans[r.terms.loanId].hskLoanId
      && r.terms.borrowerId == db.loans[r.terms.loanId].borrowerId
      && r.terms.lenderId == db.loans[r.terms.loanId].lenderId
      && (r.txHash.Some? ==> (i, r.txHash.value) in db.candidates)
      && EarlierSynced(db.installments, r.terms.loanId, r.terms.number)
  }

  ghost predicate IntentPair(db: Database, i: Uuid, j: Uuid) {
    i in db.intents && j in db.intents && i != j ==>
      db.intents[i].txHash.None? || db.intents[i].txHash != db.intents[j].txHash
  }

  ghost predicate CandidateInv(db: Database, k: (Uuid, StellarHash)) {
    k in db.candidates ==>
      && k.0 in db.intents
      && (db.candidates[k].status == CANDIDATE_VERIFIED <==> db.intents[k.0].txHash == Some(k.1))
  }

  ghost predicate QueueInv(db: Database, i: Uuid) {
    |PendingFor(db.candidates, i)| <= MAX_PENDING
  }

  ghost predicate Valid(db: Database) {
    && (forall l: Uuid {:trigger LoanInv(db, l)} :: LoanInv(db, l))
    && (forall l: Uuid, m: Uuid {:trigger LoanPair(db, l, m)} :: LoanPair(db, l, m))
    && (forall x: Uuid {:trigger RowInv(db, x)} :: RowInv(db, x))
    && (forall x: Uuid, y: Uuid {:trigger RowPair(db, x, y)} :: RowPair(db, x, y))
    && (forall i: Uuid {:trigger IntentInv(db, i)} :: IntentInv(db, i))
    && (forall i: Uuid, j: Uuid {:trigger IntentPair(db, i, j)} :: IntentPair(db, i, j))
    && (forall k: (Uuid, StellarHash) {:trigger CandidateInv(db, k)} :: CandidateInv(db, k))
    && (forall i: Uuid {:trigger QueueInv(db, i)} :: QueueInv(db, i))
  }

  // ---------- what no statement undoes

  function Rank(s: IntentStatus): nat {
    match s case CREATED => 0 case VERIFIED => 1 case ANCHORED => 2
  }

  ghost predicate LoanGrows(a: Database, b: Database, l: Uuid) {
    l in a.loans ==>
      && l in b.loans
      && b.loans[l] == a.loans[l].(status := b.loans[l].status, completedAt := b.loans[l].completedAt)
      && (a.loans[l].status == LOAN_COMPLETED ==> b.loans[l].status == LOAN_COMPLETED)
  }

  ghost predicate RowGrows(a: Database, b: Database, x: Uuid) {
    && (x in a.installments ==> x in b.installments && Later(a.installments[x], b.installments[x]))
    && (x in a.intentOf ==> x in b.intentOf && b.intentOf[x] == a.intentOf[x])
  }

  ghost predicate Later(i: Installment, j: Installment) {
    && i.loanId == j.loanId && i.number == j.number && i.amount == j.amount
    && (i.rail.Some? ==> j.rail == i.rail)
    && (i.status == PAID ==> j.status == PAID && j.receiptHash == i.receiptHash && j.pollarTxHash == i.pollarTxHash
                             && j.paymentMethod == i.paymentMethod)
    && (i.sync == SYNCED ==> j.sync == SYNCED)
  }

  ghost predicate IntentGrows(a: Database, b: Database, i: Uuid) {
    i in a.intents ==>
      && i in b.intents
      && a.intents[i].terms == b.intents[i].terms
      && Rank(a.intents[i].status) <= Rank(b.intents[i].status)
      && (a.intents[i].txHash.Some? ==>
            && b.intents[i].txHash == a.intents[i].txHash
            && b.intents[i].receiptHash == a.intents[i].receiptHash
            && b.intents[i].paidAt == a.intents[i].paidAt)
  }

  /** Loans, installments and intents are never removed; reserved rails, terms and settlements never change. */
  ghost predicate Grows(a: Database, b: Database) {
    && (forall l: Uuid {:trigger LoanGrows(a, b, l)} :: LoanGrows(a, b, l))
    && (forall x: Uuid {:trigger RowGrows(a, b, x)} :: RowGrows(a, b, x))
    && (forall i: Uuid {:trigger IntentGrows(a, b, i)} :: IntentGrows(a, b, i))
  }
}
