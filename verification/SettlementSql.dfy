/**
 The settlement tables as the database runs them: plpgsql bodies statement by statement, row triggers,
 CHECK constraints and unique indexes, with rollback when a statement raises.
 */
module SettlementSql {
  import opened Wrappers
  import opened Values
  import opened SettlementDb
  import opened SettlementDbProofs
  import opened SettlementEffects

  // ---------- triggers and constraints

  /** Trigger libreta_protect_payment on UPDATE of installment x. */
  function ProtectPayment(
        intents: map<Uuid, Intent>, x: Uuid, before: Installment, after: Installment): Option<SqlError>
  {
    if before.rail.Some? && after.rail != before.rail then Some(RAIL_INMUTABLE)
    else if before.rail.Some?
        && (after.loanId != before.loanId || after.amount != before.amount || after.number != before.number) then
      Some(CUOTA_INMUTABLE)
    else if before.status == PAID && (after.status != before.status || after.receiptHash != before.receiptHash
                                      || after.pollarTxHash != before.pollarTxHash
                                        || after.paymentMethod != before.paymentMethod) then
      Some(PAGO_INMUTABLE)
    else if before.rail == Some(POLLAR) && after.status == PAID
        && !VerifiedFor(intents, x, after) then Some(PAGO_SIN_VERIFICAR)
    else None
  }

  predicate VerifiedFor(intents: map<Uuid, Intent>, x: Uuid, after: Installment) {
    exists i <- intents ::
      && intents[i].terms.installmentId == x && intents[i].status in {VERIFIED, ANCHORED}
      && intents[i].receiptHash.Some? && intents[i].receiptHash == after.receiptHash
      && intents[i].txHash.Some? && intents[i].txHash == after.pollarTxHash
      && after.paymentMethod == Some(BY_POLLAR_USDC)
  }

  /** Trigger pollar_protect_intent. */
  function ProtectIntent(before: Intent, after: Intent): Option<SqlError> {
    if after.terms != before.terms then Some(INTENCION_INMUTABLE)
    else if before.txHash.Some?
        && (after.txHash != before.txHash || after.receiptHash != before.receiptHash
        || after.paidAt != before.paidAt) then
      Some(PAGO_INMUTABLE)
    else if (before.status == VERIFIED && after.status == CREATED)
        || (before.status == ANCHORED && after.status != ANCHORED) then
      Some(ESTADO_INMUTABLE)
    else None
  }

  predicate RowChecks(i: Installment) {
    && i.amount > 0 && 1 <= i.number < 0x1_0000
    && (i.status == PAID <==> i.paidDate.Some?)
    && (i.status == PAID ==> i.paymentMethod.Some? && i.receiptHash.Some?)
    && (i.paymentMethod == Some(BY_POLLAR_USDC) <==> i.pollarTxHash.Some?)
    && (i.sync == SYNCED ==> i.status == PAID)
  }

  predicate IntentChecks(r: Intent) {
    && (r.status == CREATED <==> r.txHash.None?)
    && (r.txHash.None? <==> r.receiptHash.None?)
    && (r.txHash.None? <==> r.paidAt.None?)
    && 0 < r.terms.amount < INTENT_AMOUNT_LIMIT && r.terms.minLedger > 0 && r.terms.sender != r.terms.recipient
  }

  predicate RowIndexed(rows: map<Uuid, Installment>, x: Uuid, after: Installment) {
    forall y <- rows :: y != x ==>
      && (rows[y].loanId != after.loanId || rows[y].number != after.number)
      && (after.receiptHash.None? || rows[y].receiptHash != after.receiptHash)
      && (after.pollarTxHash.None? || rows[y].pollarTxHash != after.pollarTxHash)
  }

  /** Whatever UPDATE gets past the trigger, a reserved rail and a recorded payment stay as they are. */
  lemma TriggerKeepsReservations(intents: map<Uuid, Intent>, x: Uuid, before: Installment, after: Installment)
    requires ProtectPayment(intents, x, before, after).None?
    ensures before.rail.Some? ==>
      after.rail == before.rail && after.loanId == before.loanId && after.amount == before.amount
        && after.number == before.number
    ensures before.status == PAID ==>
      after.status == PAID && after.receiptHash == before.receiptHash && after.pollarTxHash == before.pollarTxHash
        && after.paymentMethod == before.paymentMethod
    ensures before.rail == Some(POLLAR) && after.status == PAID ==>
      exists i :: i in intents && intents[i].terms.installmentId == x && intents[i].status != CREATED
                  && intents[i].receiptHash == after.receiptHash && intents[i].txHash == after.pollarTxHash
  {
    if before.rail == Some(POLLAR) && after.status == PAID {
      var i :| i in intents && intents[i].terms.installmentId == x && intents[i].status in {VERIFIED, ANCHORED}
               && intents[i].receiptHash == after.receiptHash && intents[i].txHash == after.pollarTxHash;
    }
  }

  /**
   Whatever UPDATE gets past the constraints, the row is PAID exactly with a date, and then with method and receipt.
   */
  lemma ChecksKeepRow(rows: map<Uuid, Installment>, x: Uuid, after: Installment)
    requires RowChecks(after) && RowIndexed(rows, x, after)
    ensures after.amount > 0 && 1 <= after.number <= 65535
    ensures after.status == PAID <==> after.paidDate.Some?
    ensures after.status == PAID ==> after.paymentMethod.Some? && after.receiptHash.Some?
    ensures after.paymentMethod == Some(BY_POLLAR_USDC) <==> after.pollarTxHash.Some?
    ensures after.sync == SYNCED ==> after.status == PAID
    ensures forall y :: y in rows && y != x ==>
      && (rows[y].loanId == after.loanId ==> rows[y].number != after.number)
      && (after.receiptHash.Some? ==> rows[y].receiptHash != after.receiptHash)
      && (after.pollarTxHash.Some? ==> rows[y].pollarTxHash != after.pollarTxHash)
  {
  }

  /** The same for an intent: hash, receipt and time come together, exactly when it is no longer CREATED. */
  lemma ChecksKeepIntent(after: Intent)
    requires IntentChecks(after)
    ensures after.status == CREATED <==> after.txHash.None?
    ensures after.txHash.Some? <==> after.receiptHash.Some?
    ensures after.txHash.Some? <==> after.paidAt.Some?
    ensures 0 < after.terms.amount < 100_000_000_000 && after.terms.minLedger > 0
    ensures after.terms.sender != after.terms.recipient
  {
  }

  /** Over any number of arbitrary row updates of one intent, its terms, payment and progress survive. */
  lemma {:induction false} TriggerKeepsIntent(history: seq<Intent>)
    requires |history| >= 1
    requires forall k :: 0 <= k < |history| ==> IntentChecks(history[k])
    requires forall k :: 0 <= k < |history| - 1 ==> ProtectIntent(history[k], history[k + 1]).None?
    ensures var a, b := history[0], history[|history| - 1];
            && b.terms == a.terms && Rank(a.status) <= Rank(b.status)
            && (a.txHash.Some? ==> b.txHash == a.txHash && b.receiptHash == a.receiptHash && b.paidAt == a.paidAt)
  {
    if |history| > 1 {
      TriggerKeepsIntent(history[..|history| - 1]);
      assert ProtectIntent(history[|history| - 2], history[|history| - 1]).None?;
    }
  }

  // ---------- the tables

  class Tables {
    var loans: map<Uuid, Loan>
    var installments: map<Uuid, Installment>
    var intents: map<Uuid, Intent>
    var intentOf: map<Uuid, Uuid>
    var candidates: map<(Uuid, StellarHash), Candidate>
    var routes: map<Uuid, Address>

    function View(): Database
      reads this
    {
      Database(loans, installments, intents, intentOf, candidates, routes)
    }

    /** UPDATE installments SET ... WHERE id = x */
    method UpdateInstallment(x: Uuid, after: Installment) returns (r: Result<(), SqlError>)
      requires x in installments
      modifies this`installments
      ensures r.Success? <==>
        && ProtectPayment(intents, x, old(installments[x]), after).None? && RowChecks(after)
        && RowIndexed(old(installments), x, after)
      ensures r.Success? ==> installments == old(installments)[x := after]
      ensures r.Failure? ==> installments == old(installments)
      ensures var raised := ProtectPayment(intents, x, old(installments[x]), after);
              raised.Some? ==> r == Failure(raised.value)
      ensures var raised := ProtectPayment(intents, x, old(installments[x]), after);
              raised.None? && RowChecks(after) && !RowIndexed(old(installments), x, after) ==>
                r == Failure(UNIQUE_VIOLATION)
    {
      var raised := ProtectPayment(intents, x, installments[x], after);
      if raised.Some? { return Failure(raised.value); }
      if !RowChecks(after) { return Failure(CHECK_VIOLATION); }
      if !RowIndexed(installments, x, after) { return Failure(UNIQUE_VIOLATION); }
      installments := installments[x := after];
      return Success(());
    }

    /** UPDATE pollar_payment_intents SET ... WHERE id = id */
    method UpdateIntent(id: Uuid, after: Intent) returns (r: Result<(), SqlError>)
      requires id in intents
      modifies this`intents
      ensures r.Success? <==>
        && ProtectIntent(old(intents[id]), after).None? && IntentChecks(after)
        && (after.txHash.None? || !TxTaken(old(intents), id, after.txHash.value))
      ensures r.Success? ==> intents == old(intents)[id := after]
      ensures r.Failure? ==> intents == old(intents)
      ensures ProtectIntent(old(intents[id]), after).None? && IntentChecks(after) && r.Failure? ==>
        r == Failure(UNIQUE_VIOLATION)
    {
      var raised := ProtectIntent(intents[id], after);
      if raised.Some? { return Failure(raised.value); }
      if !IntentChecks(after) { return Failure(CHECK_VIOLATION); }
      if after.txHash.Some? && TxTaken(intents, id, after.txHash.value) { return Failure(UNIQUE_VIOLATION); }
      intents := intents[id := after];
      return Success(());
    }

    /**
     pollar_create_intent behind its checks: reserve the row, then insert the intent; a refused insert undoes both.
     */
    method OpenIntent(
          id: Uuid, x: Uuid, sender: Address, issuer: Address, ledger: int, hskContract: Address, now: Instant)
      returns (r: Result<Uuid, SqlError>)
      requires Valid(View()) && x in installments && installments[x].loanId in loans && x !in intentOf
      requires Available(installments[x], loans[installments[x].loanId])
      requires EarlierSynced(installments, installments[x].loanId, installments[x].number)
      requires loans[installments[x].loanId].lenderId in routes
      modifies this
      ensures var l := old(loans)[old(installments)[x].loanId];
              var spec := CreateIntent(old(View()), id, x, l.borrowerId, sender, issuer, ledger, hskContract, now);
              && View() == (if spec.Success? then spec.value else old(View()))
              && (r.Failure? <==> spec.Failure?) && (r.Failure? ==> r.error == spec.error)
              && (r.Success? ==> r.value == id)
    {
      ghost var before := View();
      assert RowInv(before, x);
      var i := installments[x];
      var l := loans[i.loanId];
      var saved := installments;
      assert LoanInv(before, i.loanId);
      UpdateIsIndexed(before, x, i.(rail := Some(POLLAR)));
      var u := UpdateInstallment(x, i.(rail := Some(POLLAR)));
      assert u.Success?;
      if id in intents {
        installments := saved;
        return Failure(UNIQUE_VIOLATION);
      }
      var terms := Terms(id, x, i.loanId, l.borrowerId, l.lenderId, l.hskLoanId, i.number, sender, routes[l.lenderId],
        i.amount, issuer, ledger, hskContract);
      var row := Intent(terms, CREATED, None, None, None, None, false, now);
      if !IntentChecks(row) {
        installments := saved;
        return Failure(CHECK_VIOLATION);
      }
      intents, intentOf := intents[id := row], intentOf[x := id];
      return Success(id);
    }

    method PollarCreateIntent(id: Uuid, x: Uuid, actor: Uuid, sender: Address, issuer: Address, ledger: int,
          hskContract: Address, now: Instant)
      returns (r: Result<Uuid, SqlError>)
      requires Valid(View())
      modifies this
      ensures var spec := CreateIntent(old(View()), id, x, actor, sender, issuer, ledger, hskContract, now);
              && View() == (if spec.Success? then spec.value else old(View()))
              && (r.Failure? <==> spec.Failure?) && (r.Failure? ==> r.error == spec.error)
              && (r.Success? ==> x in intentOf && intentOf[x] == r.value)
      ensures r.Success? && x !in old(intentOf) ==>
        r.value == id && OpenedIntent(old(View()), View(), id, x, actor, sender, issuer, ledger, hskContract, now)
      ensures r.Failure? ==> CreateRefused(old(View()), id, x, actor, sender, ledger, r.error)
      ensures Valid(View())
    {
      ghost var before := View();
      assert RowInv(before, x);
      CreateIntentEffect(before, id, x, actor, sender, issuer, ledger, hskContract, now);
      if CreateIntent(before, id, x, actor, sender, issuer, ledger, hskContract, now).Success? {
        CreateIntentKeeps(before, id, x, actor, sender, issuer, ledger, hskContract, now);
      }
      if x !in installments || loans[installments[x].loanId].borrowerId != actor {
        return Failure(CUOTA_NO_AUTORIZADA);
      }
      var i := installments[x];
      var l := loans[i.loanId];
      if x in intentOf {
        if intents[intentOf[x]].terms.sender != sender { return Failure(INTENCION_OTRA_WALLET); }
        return Success(intentOf[x]);
      }
      if l.currency != USDC || !l.onStellar || l.status != LOAN_ACTIVE || i.status !in {PENDING, OVERDUE}
          || i.rail != None {
        return Failure(CUOTA_NO_DISPONIBLE);
      }
      if !EarlierSynced(installments, i.loanId, i.number) { return Failure(CUOTA_ANTERIOR_PENDIENTE); }
      if l.lenderId !in routes { return Failure(PRESTAMISTA_SIN_WALLET); }
      r := OpenIntent(id, x, sender, issuer, ledger, hskContract, now);
    }

    method PollarObserve(id: Uuid, actor: Uuid, hash: StellarHash, now: Instant) returns (r: Result<(), SqlError>)
      requires Valid(View())
      modifies this
      ensures var spec := Observe(old(View()), id, actor, hash, now);
              && View() == (if spec.Success? then spec.value else old(View()))
              && (r.Failure? <==> spec.Failure?) && (r.Failure? ==> r.error == spec.error)
      ensures View() == old(View()) || Reported(old(View()), View(), id, hash, now)
      ensures r.Failure? ==> ReportRefused(old(View()), id, actor, hash, r.error)
      ensures r.Success? && old(id in intents && intents[id].status == CREATED) ==> (id, hash) in candidates
      ensures Valid(View())
    {
      ghost var before := View();
      ObserveEffect(before, id, actor, hash, now);
      if Observe(before, id, actor, hash, now).Success? { ObserveKeeps(before, id, actor, hash, now); }
      if id !in intents || intents[id].terms.borrowerId != actor { return Failure(CUOTA_NO_AUTORIZADA); }
      if intents[id].status != CREATED {
        if intents[id].txHash != Some(hash) { return Failure(CUOTA_YA_PAGADA); }
        return Success(());
      }
      if (id, hash) in candidates { return Success(()); }
      if |PendingFor(candidates, id)| >= 5 { return Failure(DEMASIADOS_PAGOS_PENDIENTES); }
      candidates := candidates[(id, hash) := Candidate(CANDIDATE_PENDING, now, now)];
      return Success(());
    }

    /** The tail of pollar_settle: the last payment completes the loan in the same transaction. */
    method CloseIfPaid(loanId: Uuid, at: Instant)
      requires loanId in loans
      modifies this`loans
      ensures View() == if AllPaid(installments, loanId) then Completed(old(View()), loanId, at) else old(View())
    {
      if AllPaid(installments, loanId) {
        loans := loans[loanId := loans[loanId].(status := LOAN_COMPLETED, completedAt := Some(at))];
      }
    }

    /** The two updates that record a payment, the second only behind the first; a refused one takes the other back. */
    method RecordPayment(id: Uuid, hash: StellarHash, receipt: Digest, paidAt: Instant)
        returns (r: Result<(), SqlError>)
      requires Valid(View()) && id in intents && intents[id].status == CREATED
      requires var x := intents[id].terms.installmentId;
               x in installments && installments[x].status != PAID && installments[x].rail == Some(POLLAR)
      requires (id, hash) in candidates && candidates[(id, hash)].status == CANDIDATE_PENDING
      modifies this`intents, this`installments
      ensures r.Success? <==>
        !TxTaken(old(intents), id, hash)
          && !ReceiptTaken(old(installments), old(intents[id]).terms.installmentId, receipt)
      ensures r.Failure? ==> r.error == UNIQUE_VIOLATION && intents == old(intents) && installments == old(installments)
      ensures r.Success? ==>
        && intents == old(intents)[id := old(intents[id]).(
             status := VERIFIED, txHash := Some(hash), receiptHash := Some(receipt), paidAt := Some(paidAt))]
        && var x := old(intents[id]).terms.installmentId;
           installments == old(installments)[x := old(installments)[x].(
             status := PAID, paidDate := Some(paidAt), paymentMethod := Some(BY_POLLAR_USDC),
             pollarTxHash := Some(hash), receiptHash := Some(receipt), sync := SYNC_PENDING)]
    {
      ghost var before := View();
      assert IntentInv(before, id);
      var row := intents[id];
      var x := row.terms.installmentId;
      var saved := intents;
      var u := UpdateIntent(id,
        row.(status := VERIFIED, txHash := Some(hash), receiptHash := Some(receipt), paidAt := Some(paidAt)));
      if u.Failure? { return u; }
      SettledRowAllowed(before, id, hash, receipt, paidAt);
      u := UpdateInstallment(x,
        installments[x].(status := PAID, paidDate := Some(paidAt), paymentMethod := Some(BY_POLLAR_USDC),
                                                 pollarTxHash := Some(hash), receiptHash := Some(receipt),
                                                   sync := SYNC_PENDING));
      if u.Failure? { intents := saved; }
      return u;
    }

    /** pollar_settle behind its checks: record the payment, verify the candidate, complete the loan. */
    method SettleReported(id: Uuid, hash: StellarHash, receipt: Digest, paidAt: Instant)
      returns (r: Result<Intent, SqlError>)
      requires Valid(View()) && id in intents && intents[id].status == CREATED
      requires var x := intents[id].terms.installmentId;
               x in installments && installments[x].status != PAID && installments[x].rail == Some(POLLAR)
      requires (id, hash) in candidates && candidates[(id, hash)].status == CANDIDATE_PENDING
      modifies this
      ensures var spec := Settle(old(View()), id, hash, receipt, paidAt);
              && View() == (if spec.Success? then spec.value else old(View()))
              && (r.Failure? <==> spec.Failure?) && (r.Failure? ==> r.error == spec.error)
              && (r.Success? ==> id in intents && r.value == intents[id])
    {
      ghost var before := View();
      assert IntentInv(before, id);
      var loanId := intents[id].terms.loanId;
      var u := RecordPayment(id, hash, receipt, paidAt);
      if u.Failure? { return Failure(u.error); }
      candidates := candidates[(id, hash) := candidates[(id, hash)].(status := CANDIDATE_VERIFIED)];
      CloseIfPaid(loanId, paidAt);
      return Success(intents[id]);
    }

    method PollarSettle(id: Uuid, hash: StellarHash, receipt: Digest, paidAt: Instant)
        returns (r: Result<Intent, SqlError>)
      requires Valid(View())
      modifies this
      ensures var spec := Settle(old(View()), id, hash, receipt, paidAt);
              && View() == (if spec.Success? then spec.value else old(View()))
              && (r.Failure? <==> spec.Failure?) && (r.Failure? ==> r.error == spec.error)
              && (r.Success? ==> id in intents && r.value == intents[id])
      ensures View() == old(View()) || Settled(old(View()), View(), id, hash, receipt, paidAt)
      ensures r.Success? ==> r.value.txHash == Some(hash) && r.value.receiptHash == Some(receipt)
      ensures Valid(View())
    {
      SettleEffect(View(), id, hash, receipt, paidAt);
      if Settle(View(), id, hash, receipt, paidAt).Success? { SettleKeeps(View(), id, hash, receipt, paidAt); }
      if id !in intents { return Failure(INTENCION_NO_EXISTE); }
      var row := intents[id];
      assert IntentInv(View(), id) && RowInv(View(), row.terms.installmentId);
      if row.status != CREATED {
        if row.txHash != Some(hash) || row.receiptHash != Some(receipt) { return Failure(CUOTA_YA_PAGADA); }
        return Success(row);
      }
      var i := installments[row.terms.installmentId];
      if i.status == PAID || i.rail != Some(POLLAR) { return Failure(CUOTA_YA_PAGADA); }
      if (id, hash) !in candidates || candidates[(id, hash)].status != CANDIDATE_PENDING {
        return Failure(PAGO_NO_REPORTADO);
      }
      r := SettleReported(id, hash, receipt, paidAt);
    }

    method PollarMarkAnchored(id: Uuid, hskTx: Option<HskTx>) returns (r: Result<(), SqlError>)
      requires Valid(View())
      modifies this
      ensures var spec := MarkAnchored(old(View()), id, hskTx);
              && View() == (if spec.Success? then spec.value else old(View()))
              && (r.Failure? <==> spec.Failure?) && (r.Failure? ==> r.error == spec.error)
      ensures r.Success? <==> old(id in intents && intents[id].status != CREATED)
      ensures r.Success? ==> AnchorMarked(old(View()), View(), id, hskTx)
      ensures Valid(View())
    {
      ghost var before := View();
      MarkAnchoredEffect(before, id, hskTx);
      if MarkAnchored(before, id, hskTx).Success? { MarkAnchoredKeeps(before, id, hskTx); }
      if id !in intents || intents[id].status == CREATED { return Failure(PAGO_NO_VERIFICADO); }
      var row := intents[id];
      var x := row.terms.installmentId;
      AnchoredRowsAllowed(before, id, hskTx);
      var u := UpdateIntent(id,
        row.(status := ANCHORED, hskTxHash := if hskTx.Some? then hskTx else row.hskTxHash, anchorFailed := false));
      if x in installments && installments[x].receiptHash == row.receiptHash {
        u := UpdateInstallment(x, installments[x].(sync := SYNCED));
      }
      return Success(());
    }

    // ---------- the guarded queue updates of the repository

    method DeferCandidate(id: Uuid, hash: StellarHash, at: Instant)
      requires Valid(View())
      modifies this
      ensures View() == SettlementDb.DeferCandidate(old(View()), id, hash, at) && Valid(View())
      ensures candidates == if (id, hash) in old(candidates)
        then old(candidates)[(id, hash) := old(candidates[(id, hash)]).(nextAttemptAt := at)] else old(candidates)
    {
      DeferCandidateKeeps(View(), id, hash, at);
      if (id, hash) in candidates {
        candidates := candidates[(id, hash) := candidates[(id, hash)].(nextAttemptAt := at)];
      }
    }

    /** Guarded on PENDING: a verified candidate is never rejected. */
    method Reject(id: Uuid, hash: StellarHash)
      requires Valid(View())
      modifies this
      ensures View() == SettlementDb.Reject(old(View()), id, hash) && Valid(View())
      ensures candidates == if old((id, hash) in candidates && candidates[(id, hash)].status == CANDIDATE_PENDING)
        then old(candidates)[(id, hash) := old(candidates[(id, hash)]).(status := CANDIDATE_REJECTED)]
        else old(candidates)
    {
      RejectKeeps(View(), id, hash);
      if (id, hash) in candidates && candidates[(id, hash)].status == CANDIDATE_PENDING {
        candidates := candidates[(id, hash) := candidates[(id, hash)].(status := CANDIDATE_REJECTED)];
      }
    }

    /** Guarded on VERIFIED: an anchored intent is never put back in the queue. */
    method AnchorFailed(id: Uuid, at: Instant)
      requires Valid(View())
      modifies this
      ensures View() == SettlementDb.AnchorFailed(old(View()), id, at) && Valid(View())
      ensures intents == if old(id in intents && intents[id].status == VERIFIED)
        then old(intents)[id := old(intents[id]).(anchorFailed := true, nextAttemptAt := at)] else old(intents)
    {
      AnchorFailedKeeps(View(), id, at);
      if id in intents && intents[id].status == VERIFIED {
        PostponedRowAllowed(View(), id, at);
        var _ := UpdateIntent(id, intents[id].(anchorFailed := true, nextAttemptAt := at));
      }
    }

    method LibretaClaimCash(x: Uuid) returns (r: Result<(), SqlError>)
      requires Valid(View())
      modifies this
      ensures var spec := ClaimCash(old(View()), x);
              && View() == (if spec.Success? then spec.value else old(View()))
              && (r.Failure? <==> spec.Failure?) && (r.Failure? ==> r.error == spec.error)
      ensures r.Success? ==> ReservedForCash(old(View()), View(), x)
      ensures r.Failure? && x in old(installments) ==>
        old(installments)[x].status == PAID || old(installments)[x].rail == Some(POLLAR)
      ensures Valid(View())
    {
      ghost var before := View();
      ClaimCashEffect(before, x);
      if ClaimCash(before, x).Success? { ClaimCashKeeps(before, x); }
      if !(x in installments && installments[x].status != PAID && installments[x].rail in {None, Some(CASH)}) {
        return Failure(CUOTA_RESERVADA_O_PAGADA);
      }
      assert RowInv(before, x) && LoanInv(before, installments[x].loanId);
      UpdateIsIndexed(before, x, installments[x].(rail := Some(CASH)));
      var u := UpdateInstallment(x, installments[x].(rail := Some(CASH)));
      assert u.Success?;
      return Success(());
    }

    /** The UPDATE collectCash sends once its confirmation is mined. */
    method MarkPaidInCash(x: Uuid, receipt: Digest, paidAt: Instant) returns (r: Result<(), SqlError>)
      requires Valid(View())
      modifies this
      ensures var spec := MarkCashPaid(old(View()), x, receipt, paidAt);
              && View() == (if spec.Success? then spec.value else old(View()))
              && (r.Failure? <==> spec.Failure?) && (r.Failure? ==> r.error == spec.error)
      ensures r.Success? ==> PaidInCash(old(View()), View(), x, receipt, paidAt)
      ensures Valid(View())
    {
      ghost var before := View();
      MarkCashPaidEffect(before, x, receipt, paidAt);
      if MarkCashPaid(before, x, receipt, paidAt).Success? { MarkCashPaidKeeps(before, x, receipt, paidAt); }
      if x !in installments { return Failure(NO_ROW); }
      assert RowInv(before, x) && LoanInv(before, installments[x].loanId);
      CashRowAllowed(before, x, receipt, paidAt);
      r := UpdateInstallment(x,
        installments[x].(status := PAID, paymentMethod := Some(BY_CASH), paidDate := Some(paidAt),
                                                 receiptHash := Some(receipt), sync := SYNCED));
    }
  }

  // ---------- why the constraints hold

  /** Rows that keep number, receipt and Stellar hash keep every unique index. */
  lemma UpdateIsIndexed(db: Database, x: Uuid, after: Installment)
    requires Valid(db) && x in db.installments
    requires var i := db.installments[x];
             after.loanId == i.loanId && after.number == i.number && after.receiptHash == i.receiptHash
               && after.pollarTxHash == i.pollarTxHash
    ensures RowIndexed(db.installments, x, after)
    ensures RowOk(after) ==> RowChecks(after)
  {
    assert RowInv(db, x) && LoanInv(db, db.installments[x].loanId);
    forall y | y in db.installments && y != x
      ensures db.installments[y].loanId != after.loanId || db.installments[y].number != after.number
      ensures after.receiptHash.None? || db.installments[y].receiptHash != after.receiptHash
      ensures after.pollarTxHash.None? || db.installments[y].pollarTxHash != after.pollarTxHash
    {
      assert RowPair(db, x, y) && RowInv(db, y);
      if after.pollarTxHash.Some? && db.installments[y].pollarTxHash == after.pollarTxHash {
        StellarHashOwner(db, x, y);
      }
    }
  }

  /** Two rows never carry the same Stellar hash, because their intents do not. */
  lemma StellarHashOwner(db: Database, x: Uuid, y: Uuid)
    requires Valid(db) && x in db.installments && y in db.installments
    requires db.installments[x].pollarTxHash.Some? && db.installments[x].pollarTxHash == db.installments[y].pollarTxHash
    ensures x == y
  {
    assert RowInv(db, x) && RowInv(db, y);
    assert IntentPair(db, db.intentOf[x], db.intentOf[y]);
  }

  /** After the intent row was updated, the installment update passes its trigger and fails only on a used receipt. */
  lemma SettledRowAllowed(db: Database, id: Uuid, hash: StellarHash, receipt: Digest, paidAt: Instant)
    requires Valid(db) && id in db.intents && db.intents[id].status == CREATED && !TxTaken(db.intents, id, hash)
    ensures var x := db.intents[id].terms.installmentId;
            && db.intents[id].terms.loanId in db.loans && x in db.installments
            && var i := db.installments[x];
               var paid := i.(status := PAID, paidDate := Some(paidAt), paymentMethod := Some(BY_POLLAR_USDC),
                              pollarTxHash := Some(hash), receiptHash := Some(receipt), sync := SYNC_PENDING);
               var intents := db.intents[id := db.intents[id].(status := VERIFIED, txHash := Some(hash),
                 receiptHash := Some(receipt), paidAt := Some(paidAt))];
               && ProtectPayment(intents, x, i, paid).None? && RowChecks(paid)
               && (RowIndexed(db.installments, x, paid) <==> !ReceiptTaken(db.installments, x, receipt))
  {
    assert IntentInv(db, id);
    var x := db.intents[id].terms.installmentId;
    assert RowInv(db, x) && LoanInv(db, db.installments[x].loanId);
    forall y | y in db.installments && y != x
      ensures db.installments[y].loanId != db.installments[x].loanId
        || db.installments[y].number != db.installments[x].number
      ensures db.installments[y].pollarTxHash != Some(hash)
    {
      assert RowPair(db, x, y) && RowInv(db, y);
    }
    var intents := db.intents[id := db.intents[id].(status := VERIFIED, txHash := Some(hash),
      receiptHash := Some(receipt), paidAt := Some(paidAt))];
    assert id in intents;
  }

  /** Neither update of pollar_mark_anchored can be refused once the intent is settled. */
  lemma AnchoredRowsAllowed(db: Database, id: Uuid, hskTx: Option<HskTx>)
    requires Valid(db) && id in db.intents && db.intents[id].status != CREATED
    ensures var r := db.intents[id];
            var after := r.(status := ANCHORED, hskTxHash := if hskTx.Some? then hskTx else r.hskTxHash,
              anchorFailed := false);
            var x := r.terms.installmentId;
            && ProtectIntent(r, after).None? && IntentChecks(after) && r.txHash.Some?
            && !TxTaken(db.intents, id, r.txHash.value)
            && x in db.installments && db.installments[x].receiptHash == r.receiptHash && r.receiptHash.Some?
            && var i := db.installments[x];
               && ProtectPayment(db.intents[id := after], x, i, i.(sync := SYNCED)).None?
               && RowChecks(i.(sync := SYNCED)) && RowIndexed(db.installments, x, i.(sync := SYNCED))
  {
    var r := db.intents[id];
    var after := r.(status := ANCHORED, hskTxHash := if hskTx.Some? then hskTx else r.hskTxHash, anchorFailed := false);
    assert IntentInv(db, id);
    var x := r.terms.installmentId;
    assert RowInv(db, x) && LoanInv(db, db.installments[x].loanId);
    forall j | j in db.intents && j != id ensures db.intents[j].txHash != r.txHash {
      assert IntentPair(db, j, id);
    }
    UpdateIsIndexed(db, x, db.installments[x].(sync := SYNCED));
    var intents := db.intents[id := after];
    assert id in intents && VerifiedFor(intents, x, db.installments[x].(sync := SYNCED));
  }

  lemma PostponedRowAllowed(db: Database, id: Uuid, at: Instant)
    requires Valid(db) && id in db.intents && db.intents[id].status == VERIFIED
    ensures var r := db.intents[id];
            var after := r.(anchorFailed := true, nextAttemptAt := at);
            ProtectIntent(r, after).None? && IntentChecks(after) && after.txHash.Some?
              && !TxTaken(db.intents, id, after.txHash.value)
  {
    assert IntentInv(db, id);
    forall j | j in db.intents && j != id ensures db.intents[j].txHash != db.intents[id].txHash {
      assert IntentPair(db, j, id);
    }
  }

  lemma CashRowAllowed(db: Database, x: Uuid, receipt: Digest, paidAt: Instant)
    requires Valid(db) && x in db.installments
    ensures var i := db.installments[x];
            var paid := i.(status := PAID, paymentMethod := Some(BY_CASH), paidDate := Some(paidAt),
              receiptHash := Some(receipt), sync := SYNCED);
            && (ProtectPayment(db.intents, x, i, paid) ==
                  if i.status == PAID
                      && (i.receiptHash != Some(receipt) || i.paymentMethod != Some(BY_CASH)) then Some(PAGO_INMUTABLE)
                  else if i.rail == Some(POLLAR) then Some(PAGO_SIN_VERIFICAR) else None)
            && (ProtectPayment(db.intents, x, i, paid).None? ==>
                  RowChecks(paid)
                    && (RowIndexed(db.installments, x, paid) <==> !ReceiptTaken(db.installments, x, receipt)))
  {
    assert RowInv(db, x) && LoanInv(db, db.installments[x].loanId);
    forall y | y in db.installments && y != x
      ensures db.installments[y].loanId != db.installments[x].loanId
        || db.installments[y].number != db.installments[x].number
    {
      assert RowPair(db, x, y);
    }
  }
}
