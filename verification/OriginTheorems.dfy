/** Where the contents of an intent come from: over every run, the one statement that put them there. */
module OriginTheorems {
  import opened Wrappers
  import opened Values
  import R = Registry
  import opened SettlementDb
  import opened SettlementEffects
  import Stellar
  import opened Protocol
  import opened ProtocolProofs

  function At(h: seq<Event>): State {
    Run(GENESIS, h)
  }

  lemma {:induction false} OneMore(h: seq<Event>, k: nat)
    requires k < |h|
    ensures h[..k + 1] == h[..k] + [h[k]] && At(h[..k + 1]) == Step(At(h[..k]), h[k])
  {
    assert h[..k + 1] == h[..k] + [h[k]];
    RunConcat(GENESIS, h[..k], [h[k]]);
    assert Run(At(h[..k]), [h[k]]) == Step(At(h[..k]), h[k]);
  }

  lemma {:induction false} Sound(h: seq<Event>)
    ensures Inv(At(h))
  {
    GenesisIsSound();
    RunKeeps(GENESIS, h);
  }

  // ---------- creation

  /** Statement k of the run opened the intent, from the rows and the wallet as they were and with what it passed. */
  predicate OpenedAt(h: seq<Event>, k: nat, id: Uuid) {
    && k < |h| && h[k].Create? && h[k].id == id
    && OpenedIntent(At(h[..k]).db, At(h[..k + 1]).db, id, h[k].x, h[k].actor, h[k].sender, h[k].issuer, h[k].minLedger,
         CONTRACT, h[k].at)
  }

  predicate WritesIntents(e: Event) {
    e.Create? || e.SettlePayment? || e.CloseIntent? || e.PostponeAnchor?
  }

  lemma OthersLeaveIntents(s: State, e: Event)
    requires !WritesIntents(e)
    ensures Step(s, e).db.intents == s.db.intents
  {
  }

  lemma SettleLeavesTheRest(s: State, e: Event, id: Uuid)
    requires e.SettlePayment?
    ensures Step(s, e).db.intents.Keys == s.db.intents.Keys
    ensures id in s.db.intents ==> Step(s, e).db.intents[id].hskTxHash == s.db.intents[id].hskTxHash
  {
  }

  lemma CloseLeavesTheRest(s: State, e: Event, id: Uuid)
    requires e.CloseIntent? && SeenIsSettled(s, e.id)
    ensures Step(s, e).db.intents.Keys == s.db.intents.Keys
    ensures id in s.db.intents ==>
      && Step(s, e).db.intents[id].txHash == s.db.intents[id].txHash
      && Step(s, e).db.intents[id].hskTxHash ==
           if e.id == id && e.hskTx.Some? && id in s.seen then e.hskTx else s.db.intents[id].hskTxHash
  {
    MarkAnchoredEffect(s.db, e.id, e.hskTx);
  }

  predicate SeenIsSettled(s: State, id: Uuid) {
    id in s.seen ==> id in s.db.intents && s.db.intents[id].status != CREATED
  }

  lemma SeenWasSettled(s: State, id: Uuid)
    requires Inv(s)
    ensures SeenIsSettled(s, id)
  {
    assert IntentInv(s.db, id) && SeenAt(s, id);
  }

  lemma PostponeLeavesTheRest(s: State, e: Event, id: Uuid)
    requires e.PostponeAnchor?
    ensures Step(s, e).db.intents.Keys == s.db.intents.Keys
    ensures id in s.db.intents ==>
      Step(s, e).db.intents[id].txHash == s.db.intents[id].txHash
        && Step(s, e).db.intents[id].hskTxHash == s.db.intents[id].hskTxHash
  {
  }

  lemma CreateLeavesTheRest(s: State, e: Event, id: Uuid)
    requires e.Create? && Valid(s.db) && id in s.db.intents
    ensures id in Step(s, e).db.intents && Step(s, e).db.intents[id] == s.db.intents[id]
  {
    assert RowInv(s.db, e.x);
    CreateIntentEffect(s.db, e.id, e.x, e.actor, e.sender, e.issuer, e.minLedger, CONTRACT, e.at);
  }

  lemma NoneButCreate(s: State, e: Event)
    requires !e.Create? && (e.CloseIntent? ==> SeenIsSettled(s, e.id))
    ensures Step(s, e).db.intents.Keys == s.db.intents.Keys
  {
    match e
    case SettlePayment(id, _, _) => SettleLeavesTheRest(s, e, id);
    case CloseIntent(id, _) => CloseLeavesTheRest(s, e, id);
    case PostponeAnchor(id, _) => PostponeLeavesTheRest(s, e, id);
    case _ => OthersLeaveIntents(s, e);
  }

  lemma OnlyCreateOpens(s: State, e: Event, id: Uuid)
    requires Inv(s) && id !in s.db.intents && id in Step(s, e).db.intents
    ensures e.Create? && e.id == id
    ensures OpenedIntent(s.db, Step(s, e).db, id, e.x, e.actor, e.sender, e.issuer, e.minLedger, CONTRACT, e.at)
  {
    if e.Create? {
      assert RowInv(s.db, e.x);
      CreateIntentEffect(s.db, e.id, e.x, e.actor, e.sender, e.issuer, e.minLedger, CONTRACT, e.at);
    } else {
      if e.CloseIntent? { SeenWasSettled(s, e.id); }
      NoneButCreate(s, e);
    }
  }

  lemma {:induction false} OpenedAtLasts(before: seq<Event>, h: seq<Event>, k: nat, id: Uuid)
    requires before <= h && OpenedAt(before, k, id)
    ensures OpenedAt(h, k, id) && before[..k + 1] == h[..k + 1]
  {
    assert before[..k] == h[..k] && before[..k + 1] == h[..k + 1] && before[k] == h[k];
  }

  /** The intent has the terms it got after statement k. */
  predicate KeptSince(h: seq<Event>, k: nat, id: Uuid) {
    && k < |h| && id in At(h).db.intents && id in At(h[..k + 1]).db.intents
    && At(h).db.intents[id].terms == At(h[..k + 1]).db.intents[id].terms
  }

  /** Every intent of every reachable state was opened by one statement, and still has the terms it got then. */
  lemma {:induction false} IntentOrigin(h: seq<Event>, id: Uuid)
    requires id in At(h).db.intents
    ensures exists k: nat :: OpenedAt(h, k, id) && KeptSince(h, k, id)
    decreases |h|
  {
    if h != [] {
      var n := |h| - 1;
      var before := h[..n];
      OneMore(h, n);
      assert h[..n + 1] == h;
      Sound(before);
      if id in At(before).db.intents {
        IntentOrigin(before, id);
        var k: nat :| OpenedAt(before, k, id) && KeptSince(before, k, id);
        OpenedAtLasts(before, h, k, id);
        TermsLast(At(before), h[n], id);
        assert KeptSince(h, k, id);
      } else {
        OnlyCreateOpens(At(before), h[n], id);
        assert OpenedAt(h, n, id) && KeptSince(h, n, id);
      }
    }
  }

  lemma TermsLast(s: State, e: Event, id: Uuid)
    requires Inv(s) && id in s.db.intents
    ensures id in Step(s, e).db.intents && Step(s, e).db.intents[id].terms == s.db.intents[id].terms
    ensures s.db.intents[id].txHash.Some? ==> Step(s, e).db.intents[id].txHash == s.db.intents[id].txHash
  {
    StepKeeps(s, e);
    assert IntentGrows(s.db, Step(s, e).db, id);
  }

  // ---------- settlement

  /**
   Statement k of the run settled the intent, in all four tables, with the receipt of its own fields and the ledger's
   time of a payment that the ledger showed.
   */
  predicate SettledAt(h: seq<Event>, k: nat, id: Uuid, hash: StellarHash) {
    && k < |h| && h[k].SettlePayment? && h[k].id == id && h[k].hash == hash
    && id in At(h[..k]).db.intents && hash in At(h[..k]).ledger
    && h[k].paidAt == At(h[..k]).ledger[hash].tx.createdAt
    && var t := At(h[..k]).db.intents[id].terms;
       Settled(At(h[..k]).db, At(h[..k + 1]).db, id, hash,
         PollarReceipt(id, t.hskLoanId, t.number, t.sender, t.recipient, t.amount, t.issuer, hash), h[k].paidAt)
  }

  lemma OnlySettleFixes(s: State, e: Event, id: Uuid)
    requires Inv(s) && id in s.db.intents && s.db.intents[id].txHash.None?
    requires id in Step(s, e).db.intents && Step(s, e).db.intents[id].txHash.Some?
    ensures e.SettlePayment?
  {
    if !e.SettlePayment? {
      if e.CloseIntent? { SeenWasSettled(s, e.id); }
      OthersKeepPayment(s, e, id);
    }
  }

  lemma OthersKeepPayment(s: State, e: Event, id: Uuid)
    requires Valid(s.db) && id in s.db.intents && !e.SettlePayment? && (e.CloseIntent? ==> SeenIsSettled(s, e.id))
    ensures id in Step(s, e).db.intents && Step(s, e).db.intents[id].txHash == s.db.intents[id].txHash
  {
    match e
    case Create(_, _, _, _, _, _, _) => CreateLeavesTheRest(s, e, id);
    case CloseIntent(_, _) => CloseLeavesTheRest(s, e, id);
    case PostponeAnchor(_, _) => PostponeLeavesTheRest(s, e, id);
    case _ => OthersLeaveIntents(s, e);
  }

  /** What was verified is on the ledger at that time, and the receipt is a digest of the intent's own fields. */
  lemma VerifiedReceipt(s: State, id: Uuid, hash: StellarHash, paidAt: Instant)
    requires Inv(s) && id in s.db.intents && (id, hash, paidAt) in s.verified
    ensures hash in s.ledger && paidAt == s.ledger[hash].tx.createdAt
    ensures var t := s.db.intents[id].terms;
            ReceiptOf(t, hash) ==
              PollarReceipt(id, t.hskLoanId, t.number, t.sender, t.recipient, t.amount, t.issuer, hash)
  {
    assert IntentInv(s.db, id) && VerifiedAt(s, (id, hash, paidAt));
  }

  lemma SettleSteps(s: State, e: Event, id: Uuid)
    requires e.SettlePayment? && id in s.db.intents && s.db.intents[id].txHash.None?
    requires id in Step(s, e).db.intents && Step(s, e).db.intents[id].txHash.Some?
    ensures e.id == id && Step(s, e).db.intents[id].txHash == Some(e.hash) && (id, e.hash, e.paidAt) in s.verified
    ensures Settled(s.db, Step(s, e).db, id, e.hash, ReceiptOf(s.db.intents[id].terms, e.hash), e.paidAt)
  {
    if e.id in s.db.intents {
      SettleEffect(s.db, e.id, e.hash, ReceiptOf(s.db.intents[e.id].terms, e.hash), e.paidAt);
    }
  }

  lemma {:induction false} SettledAtLasts(before: seq<Event>, h: seq<Event>, k: nat, id: Uuid, hash: StellarHash)
    requires before <= h && SettledAt(before, k, id, hash)
    ensures SettledAt(h, k, id, hash)
  {
    assert before[..k] == h[..k] && before[..k + 1] == h[..k + 1] && before[k] == h[k];
  }

  /** Every settled intent was settled by one statement, with the hash it still has. */
  lemma {:induction false} SettlementOrigin(h: seq<Event>, id: Uuid)
    requires id in At(h).db.intents && At(h).db.intents[id].txHash.Some?
    ensures exists k: nat :: SettledAt(h, k, id, At(h).db.intents[id].txHash.value)
    decreases |h|
  {
    if h != [] {
      var n, hash := |h| - 1, At(h).db.intents[id].txHash.value;
      var before := h[..n];
      OneMore(h, n);
      assert h[..n + 1] == h;
      Sound(before);
      if id !in At(before).db.intents {
        OnlyCreateOpens(At(before), h[n], id);
      } else if At(before).db.intents[id].txHash.None? {
        OnlySettleFixes(At(before), h[n], id);
        SettleSteps(At(before), h[n], id);
        VerifiedReceipt(At(before), id, hash, h[n].paidAt);
        assert SettledAt(h, n, id, hash);
      } else {
        TermsLast(At(before), h[n], id);
        SettlementOrigin(before, id);
        var k: nat :| SettledAt(before, k, id, hash);
        SettledAtLasts(before, h, k, id, hash);
      }
    }
  }

  // ---------- the HSK hash of an intent

  /** The last hash that a closing call passed for the intent; calls that passed none do not count. */
  function LastGiven(h: seq<Event>, id: Uuid): Option<HskTx> {
    if h == [] then None
    else
      var before, e := h[..|h| - 1], h[|h| - 1];
      if e.CloseIntent? && e.id == id && e.hskTx.Some? && id in At(before).seen then e.hskTx
      else LastGiven(before, id)
  }

  lemma HashAfterStep(s: State, e: Event, id: Uuid)
    requires Valid(s.db) && id in s.db.intents && (e.CloseIntent? ==> SeenIsSettled(s, e.id))
    ensures id in Step(s, e).db.intents
    ensures Step(s, e).db.intents[id].hskTxHash ==
      if e.CloseIntent? && e.id == id && e.hskTx.Some? && id in s.seen then e.hskTx else s.db.intents[id].hskTxHash
  {
    match e
    case Create(_, _, _, _, _, _, _) => CreateLeavesTheRest(s, e, id);
    case SettlePayment(_, _, _) => SettleLeavesTheRest(s, e, id);
    case CloseIntent(_, _) => CloseLeavesTheRest(s, e, id);
    case PostponeAnchor(_, _) => PostponeLeavesTheRest(s, e, id);
    case _ => OthersLeaveIntents(s, e);
  }

  /** The hash stored with an intent is the last one that anchor() handed over; closing without one keeps it. */
  lemma {:induction false} StoredHashIsLastGiven(h: seq<Event>, id: Uuid)
    requires id in At(h).db.intents
    ensures At(h).db.intents[id].hskTxHash == LastGiven(h, id)
    decreases |h|
  {
    if h != [] {
      var n := |h| - 1;
      OneMore(h, n);
      assert h[..n + 1] == h;
      Sound(h[..n]);
      if id in At(h[..n]).db.intents {
        if h[n].CloseIntent? { SeenWasSettled(At(h[..n]), h[n].id); }
        HashAfterStep(At(h[..n]), h[n], id);
        StoredHashIsLastGiven(h[..n], id);
      } else {
        OnlyCreateOpens(At(h[..n]), h[n], id);
        NotThereYet(h[..n], id);
      }
    }
  }

  lemma {:induction false} NotThereYet(h: seq<Event>, id: Uuid)
    requires id !in At(h).db.intents
    ensures LastGiven(h, id).None?
    decreases |h|
  {
    if h != [] {
      var n := |h| - 1;
      OneMore(h, n);
      assert h[..n + 1] == h;
      Sound(h[..n]);
      assert SeenAt(At(h[..n]), id);
      StepKeeps(At(h[..n]), h[n]);
      assert IntentGrows(At(h[..n]).db, At(h).db, id);
      NotThereYet(h[..n], id);
    }
  }
}
