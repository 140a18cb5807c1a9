/**
 What each SQL function does to the rows, field by field, and which state of the rows each of its errors stands for.
 */
module SettlementEffects {
  import opened Wrappers
  import opened Values
  import opened SettlementDb

  // ---------- pollar_create_intent

  predicate OwnRow(db: Database, x: Uuid, actor: Uuid) {
    x in db.installments && db.installments[x].loanId in db.loans
      && db.loans[db.installments[x].loanId].borrowerId == actor
  }

  /** An open, unreserved row of an active USDC loan on Stellar. */
  predicate Available(i: Installment, l: Loan) {
    && l.currency == USDC && l.onStellar && l.status == LOAN_ACTIVE
    && (i.status == PENDING || i.status == OVERDUE) && i.rail.None?
  }

  /** Behind a prefix that is paid and synced, below 10^9 USDC, and payable to a wallet that is not the sender's. */
  predicate Payable(db: Database, i: Installment, l: Loan, sender: Address, ledger: int) {
    && (forall y <- db.installments :: db.installments[y].loanId == i.loanId && db.installments[y].number < i.number ==>
            db.installments[y].status == PAID && db.installments[y].sync == SYNCED)
    && l.lenderId in db.routes && sender != db.routes[l.lenderId]
    && 0 < i.amount < 100_000_000_000 && ledger > 0
  }

  /**
   A new intent: the row's place and amount, the loan's parties, the lender's wallet as recipient, and sender, issuer,
   ledger and contract as passed; its row is reserved, and nothing else changes.
   */
  predicate OpenedIntent(before: Database, after: Database, id: Uuid, x: Uuid, actor: Uuid, sender: Address,
      issuer: Address, ledger: int, hskContract: Address, now: Instant)
  {
    && OwnRow(before, x, actor) && x !in before.intentOf && id !in before.intents
    && after.loans == before.loans && after.candidates == before.candidates && after.routes == before.routes
    && after.intentOf == before.intentOf[x := id]
    && var i, l := before.installments[x], before.loans[before.installments[x].loanId];
       && Available(i, l) && Payable(before, i, l, sender, ledger)
       && id in after.intents && after.intents == before.intents[id := after.intents[id]]
       && FrozenFrom(after.intents[id], id, x, i, l, before.routes[l.lenderId], sender, issuer, ledger, hskContract,
            now)
       && x in after.installments && after.installments == before.installments[x := after.installments[x]]
       && after.installments[x].rail == Some(POLLAR) && after.installments[x].(rail := None) == i
  }

  predicate FrozenFrom(r: Intent, id: Uuid, x: Uuid, i: Installment, l: Loan, wallet: Address, sender: Address,
      issuer: Address, ledger: int, hskContract: Address, now: Instant)
  {
    && r.terms.id == id && r.terms.installmentId == x
    && r.terms.loanId == i.loanId && r.terms.number == i.number && r.terms.amount == i.amount
    && r.terms.borrowerId == l.borrowerId && r.terms.lenderId == l.lenderId && r.terms.hskLoanId == l.hskLoanId
    && r.terms.sender == sender && r.terms.recipient == wallet
    && r.terms.issuer == issuer && r.terms.minLedger == ledger && r.terms.hskContract == hskContract
    && r.status == CREATED && r.txHash.None? && r.receiptHash.None? && r.paidAt.None? && r.hskTxHash.None?
    && !r.anchorFailed && r.nextAttemptAt == now
  }

  /** The state of the rows behind each error of pollar_create_intent. */
  predicate CreateRefused(
      db: Database, id: Uuid, x: Uuid, actor: Uuid, sender: Address, ledger: int, error: SqlError)
  {
    match error
    case CUOTA_NO_AUTORIZADA => !OwnRow(db, x, actor)
    case INTENCION_OTRA_WALLET =>
      OwnRow(db, x, actor) && x in db.intentOf && db.intentOf[x] in db.intents
        && db.intents[db.intentOf[x]].terms.sender != sender
    case CUOTA_NO_DISPONIBLE =>
      OwnRow(db, x, actor) && !Available(db.installments[x], db.loans[db.installments[x].loanId])
    case CUOTA_ANTERIOR_PENDIENTE =>
      OwnRow(db, x, actor)
        && exists y <- db.installments ::
             && db.installments[y].loanId == db.installments[x].loanId
             && db.installments[y].number < db.installments[x].number
             && (db.installments[y].status != PAID || db.installments[y].sync != SYNCED)
    case PRESTAMISTA_SIN_WALLET =>
      OwnRow(db, x, actor) && db.loans[db.installments[x].loanId].lenderId !in db.routes
    case UNIQUE_VIOLATION => id in db.intents
    case CHECK_VIOLATION =>
      OwnRow(db, x, actor)
        && var i, l := db.installments[x], db.loans[db.installments[x].loanId];
           l.lenderId in db.routes
             && (i.amount == 0 || i.amount >= 100_000_000_000 || ledger <= 0 || sender == db.routes[l.lenderId])
    case _ => false
  }

  lemma CreateIntentEffect(db: Database, id: Uuid, x: Uuid, actor: Uuid, sender: Address, issuer: Address, ledger: int,
      hskContract: Address, now: Instant)
    requires x in db.intentOf ==> db.intentOf[x] in db.intents
    ensures var r := CreateIntent(db, id, x, actor, sender, issuer, ledger, hskContract, now);
            && (r.Success? && x !in db.intentOf ==>
                  OpenedIntent(db, r.value, id, x, actor, sender, issuer, ledger, hskContract, now))
            && (r.Success? && x in db.intentOf ==>
                  r.value == db && OwnRow(db, x, actor) && db.intents[db.intentOf[x]].terms.sender == sender)
            && (r.Failure? ==> CreateRefused(db, id, x, actor, sender, ledger, r.error))
  {
  }

  // ---------- pollar_observe

  /** A new report waits as a pending candidate; nothing else changes. */
  predicate Reported(before: Database, after: Database, id: Uuid, hash: StellarHash, now: Instant) {
    && id in before.intents && before.intents[id].status == CREATED && (id, hash) !in before.candidates
    && |PendingFor(before.candidates, id)| < 5
    && (id, hash) in after.candidates
    && after.candidates == before.candidates[(id, hash) := after.candidates[(id, hash)]]
    && after.candidates[(id, hash)].status == CANDIDATE_PENDING
    && after.candidates[(id, hash)].nextAttemptAt == now && after.candidates[(id, hash)].createdAt == now
    && after == before.(candidates := after.candidates)
  }

  /** The state of the rows behind each error of pollar_observe. */
  predicate ReportRefused(db: Database, id: Uuid, actor: Uuid, hash: StellarHash, error: SqlError) {
    match error
    case CUOTA_NO_AUTORIZADA => id !in db.intents || db.intents[id].terms.borrowerId != actor
    case CUOTA_YA_PAGADA =>
      id in db.intents && db.intents[id].status != CREATED && db.intents[id].txHash != Some(hash)
    case DEMASIADOS_PAGOS_PENDIENTES =>
      id in db.intents && db.intents[id].status == CREATED && (id, hash) !in db.candidates
        && |PendingFor(db.candidates, id)| >= 5
    case _ => false
  }

  lemma ObserveEffect(db: Database, id: Uuid, actor: Uuid, hash: StellarHash, now: Instant)
    ensures var r := Observe(db, id, actor, hash, now);
            && (r.Success? ==>
                  && id in db.intents && db.intents[id].terms.borrowerId == actor
                  && (r.value == db || Reported(db, r.value, id, hash, now))
                  && (db.intents[id].status == CREATED ==> (id, hash) in r.value.candidates)
                  && (db.intents[id].status != CREATED ==> db.intents[id].txHash == Some(hash)))
            && (r.Failure? ==> ReportRefused(db, id, actor, hash, r.error))
  {
  }

  // ---------- pollar_settle

  /**
   The payment in all four tables: the intent is VERIFIED with hash, receipt and time, its installment PAID with the
   same ones and waiting for the chain, the candidate verified, and the loan COMPLETED exactly when no row is left
   unpaid.
   */
  predicate Settled(
      before: Database, after: Database, id: Uuid, hash: StellarHash, receipt: Digest, paidAt: Instant)
  {
    && id in before.intents && before.intents[id].status == CREATED
    && (id, hash) in before.candidates && before.candidates[(id, hash)].status == CANDIDATE_PENDING
    && after.intentOf == before.intentOf && after.routes == before.routes
    && var x, l := before.intents[id].terms.installmentId, before.intents[id].terms.loanId;
       && x in before.installments && before.installments[x].status != PAID
       && before.installments[x].rail == Some(POLLAR)
       && after.intents == before.intents[id := before.intents[id].(
            status := VERIFIED, txHash := Some(hash), receiptHash := Some(receipt), paidAt := Some(paidAt))]
       && after.installments == before.installments[x := before.installments[x].(
            status := PAID, paidDate := Some(paidAt), paymentMethod := Some(BY_POLLAR_USDC),
            pollarTxHash := Some(hash), receiptHash := Some(receipt), sync := SYNC_PENDING)]
       && after.candidates == before.candidates[(id, hash) :=
            before.candidates[(id, hash)].(status := CANDIDATE_VERIFIED)]
       && after.loans == (
            if l in before.loans
               && forall y <- after.installments ::
                    after.installments[y].loanId == l ==> after.installments[y].status == PAID
            then before.loans[l := before.loans[l].(status := LOAN_COMPLETED, completedAt := Some(paidAt))]
            else before.loans)
  }

  lemma SettleEffect(db: Database, id: Uuid, hash: StellarHash, receipt: Digest, paidAt: Instant)
    ensures var r := Settle(db, id, hash, receipt, paidAt);
            && (r.Success? ==>
                  || Settled(db, r.value, id, hash, receipt, paidAt)
                  || (r.value == db && id in db.intents && db.intents[id].status != CREATED
                      && db.intents[id].txHash == Some(hash) && db.intents[id].receiptHash == Some(receipt)))
            && (r.Failure? ==>
                  match r.error
                  case INTENCION_NO_EXISTE => id !in db.intents
                  case CUOTA_YA_PAGADA =>
                    && id in db.intents
                    && var x := db.intents[id].terms.installmentId;
                       if db.intents[id].status != CREATED
                       then db.intents[id].txHash != Some(hash) || db.intents[id].receiptHash != Some(receipt)
                       else x !in db.installments || db.installments[x].status == PAID
                            || db.installments[x].rail != Some(POLLAR)
                  case PAGO_NO_REPORTADO =>
                    (id, hash) !in db.candidates || db.candidates[(id, hash)].status != CANDIDATE_PENDING
                  case UNIQUE_VIOLATION =>
                    && id in db.intents
                    && ((exists j <- db.intents :: j != id && db.intents[j].txHash == Some(hash))
                        || (exists y <- db.installments ::
                              y != db.intents[id].terms.installmentId
                                && db.installments[y].receiptHash == Some(receipt)))
                  case _ => false)
  {
  }

  // ---------- pollar_mark_anchored

  /** ANCHORED with the transaction's hash if one is given and the stored one otherwise; its paid row is SYNCED. */
  predicate AnchorMarked(before: Database, after: Database, id: Uuid, hskTx: Option<HskTx>) {
    && id in before.intents && before.intents[id].status != CREATED
    && after == before.(intents := after.intents, installments := after.installments)
    && id in after.intents && after.intents == before.intents[id := after.intents[id]]
    && var r, t := before.intents[id], after.intents[id];
       && t.status == ANCHORED && !t.anchorFailed
       && (hskTx.Some? ==> t.hskTxHash == hskTx) && (hskTx.None? ==> t.hskTxHash == r.hskTxHash)
       && t.terms == r.terms && t.txHash == r.txHash && t.receiptHash == r.receiptHash && t.paidAt == r.paidAt
       && t.nextAttemptAt == r.nextAttemptAt
       && var x := r.terms.installmentId;
          after.installments == (
            if x in before.installments && before.installments[x].receiptHash.Some?
               && before.installments[x].receiptHash == r.receiptHash
            then before.installments[x := before.installments[x].(sync := SYNCED)]
            else before.installments)
  }

  lemma MarkAnchoredEffect(db: Database, id: Uuid, hskTx: Option<HskTx>)
    ensures var r := MarkAnchored(db, id, hskTx);
            && (r.Success? ==> AnchorMarked(db, r.value, id, hskTx))
            && (r.Failure? ==>
                  r.error == PAGO_NO_VERIFICADO && (id !in db.intents || db.intents[id].status == CREATED))
  {
  }

  // ---------- the cash rail

  /** Only an unpaid row that is not the other rail's is reserved, and nothing but its rail changes. */
  predicate ReservedForCash(before: Database, after: Database, x: Uuid) {
    && x in before.installments && before.installments[x].status != PAID && before.installments[x].rail != Some(POLLAR)
    && x in after.installments && after.installments[x].rail == Some(CASH)
    && after.installments == before.installments[x := before.installments[x].(rail := Some(CASH))]
    && after == before.(installments := after.installments)
  }

  lemma ClaimCashEffect(db: Database, x: Uuid)
    ensures var r := ClaimCash(db, x);
            && (r.Success? ==> ReservedForCash(db, r.value, x))
            && (r.Failure? ==>
                  && r.error == CUOTA_RESERVADA_O_PAGADA
                  && (x in db.installments ==>
                        db.installments[x].status == PAID || db.installments[x].rail == Some(POLLAR)))
  {
    if x in db.installments && db.installments[x].rail.Some? {
      match db.installments[x].rail.value
      case CASH => assert db.installments[x].rail == Some(CASH);
      case POLLAR => assert db.installments[x].rail == Some(POLLAR);
    }
  }

  /** PAID in cash at that time with that receipt and SYNCED; nothing else changes. */
  predicate PaidInCash(before: Database, after: Database, x: Uuid, receipt: Digest, paidAt: Instant) {
    && x in before.installments && before.installments[x].rail != Some(POLLAR)
    && after.installments == before.installments[x := before.installments[x].(
         status := PAID, paymentMethod := Some(BY_CASH), paidDate := Some(paidAt), receiptHash := Some(receipt),
         sync := SYNCED)]
    && after == before.(installments := after.installments)
  }

  lemma MarkCashPaidEffect(db: Database, x: Uuid, receipt: Digest, paidAt: Instant)
    ensures var r := MarkCashPaid(db, x, receipt, paidAt);
            && (r.Success? ==> PaidInCash(db, r.value, x, receipt, paidAt))
            && (r.Failure? ==>
                  match r.error
                  case NO_ROW => x !in db.installments
                  case PAGO_INMUTABLE =>
                    x in db.installments && db.installments[x].status == PAID
                      && (db.installments[x].receiptHash != Some(receipt)
                          || db.installments[x].paymentMethod != Some(BY_CASH)
                          || db.installments[x].pollarTxHash.Some?)
                  case PAGO_SIN_VERIFICAR => x in db.installments && db.installments[x].rail == Some(POLLAR)
                  case UNIQUE_VIOLATION =>
                    exists y <- db.installments :: y != x && db.installments[y].receiptHash == Some(receipt)
                  case _ => false)
  {
  }
}
