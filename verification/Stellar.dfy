/** PollarService.verify: when a reported Stellar transaction proves a payment. */
module Stellar {
  import opened Wrappers
  import opened Values
  import opened Decimal

  datatype Transaction = Transaction(hash: StellarHash, successful: bool, createdAt: Instant, ledger: int)

  datatype Payment = Payment(
    kind: string, successful: bool, txHash: StellarHash, from: Address, to: Address,
    assetType: string, assetCode: string, assetIssuer: Address, amount: string)

  /** What the caller expects of the transfer. */
  datatype Route = Route(sender: Address, recipient: Address, issuer: Address)

  datatype Refusal = BAD_AMOUNT | NOT_POSITIVE | NOT_SUCCESSFUL | TOO_EARLY | NO_MATCH

  datatype Outcome = NOT_INDEXED | CONFIRMED(at: Instant) | REFUSED(reason: Refusal)

  datatype Search = FOUND(index: nat) | MISSING | THROWN

  const MAX_SAFE: int := 0x1F_FFFF_FFFF_FFFF

  predicate OnRoute(op: Payment, hash: StellarHash, route: Route) {
    && op.kind == "payment" && op.successful && op.txHash == hash
    && op.from == route.sender && op.to == route.recipient
    && op.assetType == "credit_alphanum4" && op.assetCode == "USDC" && op.assetIssuer == route.issuer
  }

  predicate Pays(op: Payment, hash: StellarHash, route: Route, amount: nat) {
    OnRoute(op, hash, route) && Units(op.amount) == Some(amount)
  }

  /** Array.find with the source's predicate: an operation on the route whose amount has a refused format throws. */
  function Find(ops: seq<Payment>, hash: StellarHash, route: Route, amount: nat): Search {
    if ops == [] then MISSING
    else if OnRoute(ops[0], hash, route) && Units(ops[0].amount).None? then THROWN
    else if Pays(ops[0], hash, route, amount) then FOUND(0)
    else
      match Find(ops[1..], hash, route, amount)
      case FOUND(k) => FOUND(k + 1)
      case other => other
  }

  /** verify(dto, expected) on what Horizon answered; None stands for a 404. */
  function Verify(amount: string, hash: StellarHash, route: Route, minLedger: int, tx: Option<Transaction>,
        ops: Option<seq<Payment>>): Outcome
  {
    if Units(amount).None? then REFUSED(BAD_AMOUNT)
    else if Units(amount).value == 0 then REFUSED(NOT_POSITIVE)
    else if tx.None? then NOT_INDEXED
    else if tx.value.hash != hash || !tx.value.successful then REFUSED(NOT_SUCCESSFUL)
    else if !(-MAX_SAFE <= tx.value.ledger <= MAX_SAFE) || tx.value.ledger <= minLedger then REFUSED(TOO_EARLY)
    else if ops.None? then REFUSED(NO_MATCH)
    else
      match Find(ops.value, hash, route, Units(amount).value)
      case FOUND(_) => CONFIRMED(tx.value.createdAt)
      case MISSING => REFUSED(NO_MATCH)
      case THROWN => REFUSED(BAD_AMOUNT)
  }

  /** No operation before k sits on the route with an amount of more than nine whole digits (or otherwise refused). */
  ghost predicate ReadableBefore(ops: seq<Payment>, hash: StellarHash, route: Route, k: nat)
    requires k <= |ops|
  {
    forall j :: 0 <= j < k && OnRoute(ops[j], hash, route) ==> Units(ops[j].amount).Some?
  }

  ghost predicate PaidAt(ops: seq<Payment>, hash: StellarHash, route: Route, amount: nat, k: nat) {
    k < |ops| && Pays(ops[k], hash, route, amount) && ReadableBefore(ops, hash, route, k)
  }

  lemma {:induction false} FindThrows(ops: seq<Payment>, hash: StellarHash, route: Route, amount: nat)
    requires Find(ops, hash, route, amount) == THROWN
    ensures exists k: nat :: k < |ops| && OnRoute(ops[k], hash, route) && Units(ops[k].amount).None?
  {
    if !(OnRoute(ops[0], hash, route) && Units(ops[0].amount).None?) {
      FindThrows(ops[1..], hash, route, amount);
      var k: nat :| k < |ops[1..]| && OnRoute(ops[1..][k], hash, route) && Units(ops[1..][k].amount).None?;
      assert ops[k + 1] == ops[1..][k];
    }
  }

  lemma {:induction false} FindIsExact(ops: seq<Payment>, hash: StellarHash, route: Route, amount: nat)
    ensures Find(ops, hash, route, amount).FOUND? <==> exists k: nat :: PaidAt(ops, hash, route, amount, k)
    ensures Find(ops, hash, route, amount) == THROWN ==>
      exists k: nat :: k < |ops| && OnRoute(ops[k], hash, route) && Units(ops[k].amount).None?
  {
    if Find(ops, hash, route, amount) == THROWN { FindThrows(ops, hash, route, amount); }
    if ops != [] {
      var rest := ops[1..];
      FindIsExact(rest, hash, route, amount);
      if Find(ops, hash, route, amount).FOUND? {
        if Pays(ops[0], hash, route, amount) {
          assert PaidAt(ops, hash, route, amount, 0);
        } else {
          var k: nat :| PaidAt(rest, hash, route, amount, k);
          assert PaidAt(ops, hash, route, amount, k + 1) by {
            forall j | 0 <= j < k + 1 && OnRoute(ops[j], hash, route) ensures Units(ops[j].amount).Some? {
              if j > 0 { assert ops[j] == rest[j - 1]; }
            }
          }
        }
      }
      if k: nat :| PaidAt(ops, hash, route, amount, k) {
        if k > 0 && !Pays(ops[0], hash, route, amount) {
          assert PaidAt(rest, hash, route, amount, k - 1) by {
            forall j | 0 <= j < k - 1 && OnRoute(rest[j], hash, route) ensures Units(rest[j].amount).Some? {
              assert rest[j] == ops[j + 1];
            }
          }
        }
      }
    }
  }

  /**
   verify confirms exactly a successful transaction, late enough, with a USDC payment of exactly the amount, of the
   given issuer, from the sender to the recipient, before which no operation of that kind has an unreadable amount.
   */
  lemma VerifyIsExact(amount: string, hash: StellarHash, route: Route, minLedger: int, tx: Option<Transaction>,
        ops: Option<seq<Payment>>)
    ensures Verify(amount, hash, route, minLedger, tx, ops).CONFIRMED? <==>
      && Units(amount).Some? && Units(amount).value > 0
      && tx.Some? && tx.value.hash == hash && tx.value.successful
      && minLedger < tx.value.ledger <= 0x1F_FFFF_FFFF_FFFF && -0x1F_FFFF_FFFF_FFFF <= tx.value.ledger
      && ops.Some?
      && exists k: nat ::
           && k < |ops.value|
           && ops.value[k].kind == "payment" && ops.value[k].successful && ops.value[k].txHash == hash
           && ops.value[k].from == route.sender && ops.value[k].to == route.recipient
           && ops.value[k].assetType == "credit_alphanum4" && ops.value[k].assetCode == "USDC"
           && ops.value[k].assetIssuer == route.issuer && Units(ops.value[k].amount) == Units(amount)
           && ReadableBefore(ops.value, hash, route, k)
    ensures Verify(amount, hash, route, minLedger, tx, ops).CONFIRMED? ==>
      Verify(amount, hash, route, minLedger, tx, ops).at == tx.value.createdAt
  {
    if ops.Some? && Units(amount).Some? {
      FindIsExact(ops.value, hash, route, Units(amount).value);
      forall k: nat ensures PaidAt(ops.value, hash, route, Units(amount).value, k) <==> (
        && k < |ops.value| && ops.value[k].kind == "payment" && ops.value[k].successful && ops.value[k].txHash == hash
        && ops.value[k].from == route.sender && ops.value[k].to == route.recipient
        && ops.value[k].assetType == "credit_alphanum4" && ops.value[k].assetCode == "USDC"
        && ops.value[k].assetIssuer == route.issuer && Units(ops.value[k].amount) == Units(amount)
        && ReadableBefore(ops.value, hash, route, k)) {}
    }
  }

  /** What the refusals of verify stand for, in the order in which it tests them. */
  lemma RefusedBecause(amount: string, hash: StellarHash, route: Route, minLedger: int, tx: Option<Transaction>,
        ops: Option<seq<Payment>>)
    ensures var v := Verify(amount, hash, route, minLedger, tx, ops);
            v.REFUSED? ==>
              match v.reason
              case NOT_POSITIVE => Units(amount) == Some(0)
              case NOT_SUCCESSFUL => tx.Some? && (tx.value.hash != hash || !tx.value.successful)
              case TOO_EARLY =>
                tx.Some? && (tx.value.ledger <= minLedger || tx.value.ledger > 0x1F_FFFF_FFFF_FFFF
                             || tx.value.ledger < -0x1F_FFFF_FFFF_FFFF)
              case BAD_AMOUNT =>
                Units(amount).None?
                || (tx.Some? && ops.Some?
                    && exists k: nat ::
                         k < |ops.value| && OnRoute(ops.value[k], hash, route) && Units(ops.value[k].amount).None?)
              case NO_MATCH =>
                tx.Some? && Units(amount).Some?
                && (ops.None? || !exists k: nat :: PaidAt(ops.value, hash, route, Units(amount).value, k))
  {
    if ops.Some? && Units(amount).Some? {
      FindIsExact(ops.value, hash, route, Units(amount).value);
    }
  }

  lemma OnlyUnknownIsPending(amount: string, hash: StellarHash, route: Route, minLedger: int, tx: Option<Transaction>,
        ops: Option<seq<Payment>>)
    ensures Verify(amount, hash, route, minLedger, tx, ops).NOT_INDEXED? ==> tx.None?
  {
  }

  /** When every operation on the route is readable, a matching transfer anywhere in the transaction is enough. */
  lemma MatchSuffices(ops: seq<Payment>, hash: StellarHash, route: Route, amount: nat)
    requires ReadableBefore(ops, hash, route, |ops|)
    ensures Find(ops, hash, route, amount).FOUND? <==> exists k: nat :: k < |ops| && Pays(ops[k], hash, route, amount)
  {
    FindIsExact(ops, hash, route, amount);
    if k: nat :| k < |ops| && Pays(ops[k], hash, route, amount) {
      assert PaidAt(ops, hash, route, amount, k);
    }
  }

  /** An exact transfer is refused when a transfer of a thousand million or more on the same route comes first. */
  lemma LargeTransferHidesAMatch(hash: StellarHash, route: Route, cents: nat)
    requires 0 < cents < 100_000_000_000
    ensures var big := Payment("payment", true, hash, route.sender, route.recipient, "credit_alphanum4", "USDC",
      route.issuer, PrintHorizon(10_000_000_000_000_000));
            var exact := big.(amount := PrintHorizon(cents * 100_000));
            && Pays(exact, hash, route, cents * 100_000)
            && Find([big, exact], hash, route, cents * 100_000) == THROWN
            && Find([exact, big], hash, route, cents * 100_000) == FOUND(0)
  {
    HorizonParses(10_000_000_000_000_000);
    HorizonParses(cents * 100_000);
  }

  // ---------- the money in a transaction

  /**
   What an operation moves on a route, in ten-millionths; any other sender, recipient, issuer or asset counts for
   nothing.
   */
  function Moved(op: Payment, hash: StellarHash, route: Route): nat {
    if op.kind == "payment" && op.successful && op.txHash == hash
        && op.from == route.sender && op.to == route.recipient
        && op.assetType == "credit_alphanum4" && op.assetCode == "USDC" && op.assetIssuer == route.issuer
        && Units(op.amount).Some?
    then Units(op.amount).value
    else 0
  }

  function TotalMoved(ops: seq<Payment>, hash: StellarHash, route: Route): nat {
    if ops == [] then 0 else Moved(ops[0], hash, route) + TotalMoved(ops[1..], hash, route)
  }

  lemma {:induction false} MatchIsCovered(ops: seq<Payment>, hash: StellarHash, route: Route, k: nat)
    requires k < |ops|
    ensures Moved(ops[k], hash, route) <= TotalMoved(ops, hash, route)
  {
    if k > 0 {
      MatchIsCovered(ops[1..], hash, route, k - 1);
    }
  }
}
