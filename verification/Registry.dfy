/** The LibretaRegistry contract: its storage, its two transactions, and the class that runs them in place. */
module Registry {
  import opened Wrappers
  import opened Values

  datatype LoanStatus = CREATED | ACTIVE | COMPLETED | DEFAULTED

  datatype Loan = Loan(
    loanHash: Digest, lender: Address, borrower: Address,
    totalInstallments: uint16, paidInstallments: uint16,
    createdAt: nat, completedAt: nat, status: LoanStatus)

  datatype Proof = Proof(receiptHash: Digest, installmentNumber: uint16, timestamp: nat, isDigital: bool,
      externalTxHash: Digest)

  datatype Storage = Storage(
    loans: map<LoanKey, Loan>,
    loanProofs: map<LoanKey, seq<Proof>>,
    borrowerLoans: map<Address, seq<LoanKey>>)

  datatype Revert = AlreadyRegistered | NoInstallments | NoBorrower | NotActive | NotLender | BadSequence
      | ArithmeticPanic

  const UNREGISTERED: Loan := Loan(ZeroHash, 0, 0, 0, 0, 0, 0, CREATED)
  const EMPTY: Storage := Storage(map[], map[], map[])
  const MAX_UINT16: nat := 0xFFFF

  // Solidity mappings answer every key; an unwritten key reads as the zero value.
  function LoanAt(s: Storage, key: LoanKey): Loan {
    if key in s.loans then s.loans[key] else UNREGISTERED
  }

  function ProofsAt(s: Storage, key: LoanKey): seq<Proof> {
    if key in s.loanProofs then s.loanProofs[key] else []
  }

  function Listing(s: Storage, borrower: Address): seq<LoanKey> {
    if borrower in s.borrowerLoans then s.borrowerLoans[borrower] else []
  }

  /** Array.find on an installment number: what the services do with getLoanProofs. */
  function FindProof(proofs: seq<Proof>, number: nat): Option<Proof> {
    if proofs == [] then None
    else if proofs[0].installmentNumber == number then Some(proofs[0])
    else FindProof(proofs[1..], number)
  }

  /** Where proofs are numbered through, finding by number is indexing. */
  lemma {:induction false} FoundProof(proofs: seq<Proof>, number: nat, offset: nat)
    requires forall j :: 0 <= j < |proofs| ==> proofs[j].installmentNumber == offset + j + 1
    ensures FindProof(proofs, number) == if offset < number <= offset + |proofs| then Some(proofs[number - offset - 1])
      else None
  {
    if proofs != [] {
      FoundProof(proofs[1..], number, offset + 1);
    }
  }

  function Register(
        s: Storage, sender: Address, now: nat, key: LoanKey, loanHash: Digest, borrower: Address, total: uint16)
    : Result<Storage, Revert>
  {
    if LoanAt(s, key).createdAt != 0 then Failure(AlreadyRegistered)
    else if total == 0 then Failure(NoInstallments)
    else if borrower == 0 then Failure(NoBorrower)
    else
      Success(s.(
        loans := s.loans[key := Loan(loanHash, sender, borrower, total, 0, now, 0, ACTIVE)],
        borrowerLoans := s.borrowerLoans[borrower := Listing(s, borrower) + [key]]))
  }

  function Confirm(s: Storage, sender: Address, now: nat, key: LoanKey, number: uint16, receipt: Digest, digital: bool,
        external: Digest)
    : Result<Storage, Revert>
  {
    var loan := LoanAt(s, key);
    if loan.status != ACTIVE then Failure(NotActive)
    else if sender != loan.lender then Failure(NotLender)
    else if loan.paidInstallments == MAX_UINT16 then Failure(ArithmeticPanic)
    else if number != loan.paidInstallments + 1 then Failure(BadSequence)
    else
      var paid := loan.(paidInstallments := loan.paidInstallments + 1);
      var closed := if paid.paidInstallments == paid.totalInstallments
                    then paid.(status := COMPLETED, completedAt := now) else paid;
      Success(s.(
        loans := s.loans[key := closed],
        loanProofs := s.loanProofs[key := ProofsAt(s, key) + [Proof(receipt, number, now, digital, external)]]))
  }

  /** A transaction from any sender; block timestamps are positive. */
  datatype Call =
    | RegisterCall(sender: Address, now: nat, key: LoanKey, loanHash: Digest, borrower: Address, total: uint16)
    | ConfirmCall(sender: Address, now: nat, key: LoanKey, number: uint16, receipt: Digest, digital: bool,
      external: Digest)

  function Attempt(s: Storage, c: Call): Result<Storage, Revert> {
    match c
    case RegisterCall(sender, now, key, loanHash, borrower, total) =>
      Register(s, sender, now, key, loanHash, borrower, total)
    case ConfirmCall(sender, now, key, number, receipt, digital, external) =>
      Confirm(s, sender, now, key, number, receipt, digital, external)
  }

  /** A reverted transaction leaves storage as it was. */
  function Execute(s: Storage, c: Call): Storage {
    match Attempt(s, c)
    case Success(next) => next
    case Failure(_) => s
  }

  function ExecuteAll(s: Storage, calls: seq<Call>): Storage
    decreases |calls|
  {
    if calls == [] then s else ExecuteAll(Execute(s, calls[0]), calls[1..])
  }

  // ---------- what every reachable storage satisfies

  ghost predicate LoanValid(loan: Loan, proofs: seq<Proof>) {
    && loan.createdAt > 0
    && loan.borrower != 0
    && loan.paidInstallments == |proofs|
    && loan.paidInstallments <= loan.totalInstallments
    && loan.totalInstallments > 0
    && (loan.status == ACTIVE || loan.status == COMPLETED)
    && (loan.status == COMPLETED <==> loan.paidInstallments == loan.totalInstallments)
    && (loan.completedAt > 0 <==> loan.status == COMPLETED)
    && (forall j :: 0 <= j < |proofs| ==> proofs[j].installmentNumber == j + 1)
  }

  /** Every registered id is listed once, under its own borrower, and nothing else is listed. */
  ghost predicate Indexed(s: Storage) {
    forall borrower: Address, key: LoanKey {:trigger multiset(Listing(s, borrower))[key]} ::
      multiset(Listing(s, borrower))[key] == if LoanAt(s, key).createdAt != 0
        && LoanAt(s, key).borrower == borrower then 1 else 0
  }

  ghost predicate Valid(s: Storage) {
    && (forall key: LoanKey :: key in s.loans ==> LoanValid(s.loans[key], ProofsAt(s, key)))
    && (forall key: LoanKey :: key in s.loanProofs ==> key in s.loans)
    && Indexed(s)
  }

  /** Storage t extends storage s: identities never change, proofs are only appended. */
  ghost predicate Extends(s: Storage, t: Storage) {
    && (forall key: LoanKey {:trigger ProofsAt(t, key)} :: ProofsAt(s, key) <= ProofsAt(t, key))
    && (forall key: LoanKey {:trigger LoanAt(t, key)} :: LoanAt(s, key).createdAt != 0 ==>
          && LoanAt(t, key).createdAt == LoanAt(s, key).createdAt
          && LoanAt(t, key).lender == LoanAt(s, key).lender
          && LoanAt(t, key).borrower == LoanAt(s, key).borrower
          && LoanAt(t, key).totalInstallments == LoanAt(s, key).totalInstallments)
  }

  lemma RegisterKeepsValid(
        s: Storage, sender: Address, now: nat, key: LoanKey, loanHash: Digest, borrower: Address, total: uint16)
    requires Valid(s) && now > 0
    requires Register(s, sender, now, key, loanHash, borrower, total).Success?
    ensures Valid(Register(s, sender, now, key, loanHash, borrower, total).value)
    ensures Extends(s, Register(s, sender, now, key, loanHash, borrower, total).value)
  {
    var t := Register(s, sender, now, key, loanHash, borrower, total).value;
    assert key !in s.loans && ProofsAt(t, key) == [];
    forall b: Address, k: LoanKey
      ensures multiset(Listing(t, b))[k] == if LoanAt(t, k).createdAt != 0 && LoanAt(t, k).borrower == b then 1 else 0
    {
      RegisterLists(s, sender, now, key, loanHash, borrower, total, b, k);
    }
  }

  /** The new id is listed once more, under its borrower only. */
  lemma RegisterLists(
      s: Storage, sender: Address, now: nat, key: LoanKey, loanHash: Digest, borrower: Address, total: uint16,
        b: Address, k: LoanKey)
    requires Indexed(s) && now > 0 && Register(s, sender, now, key, loanHash, borrower, total).Success?
    ensures var t := Register(s, sender, now, key, loanHash, borrower, total).value;
            multiset(Listing(t, b))[k] == if LoanAt(t, k).createdAt != 0 && LoanAt(t, k).borrower == b then 1 else 0
  {
    var t := Register(s, sender, now, key, loanHash, borrower, total).value;
    assert multiset(Listing(s, b))[k] == if LoanAt(s, k).createdAt != 0 && LoanAt(s, k).borrower == b then 1 else 0;
    if b == borrower {
      assert multiset(Listing(t, b)) == multiset(Listing(s, b)) + multiset{key};
    } else {
      assert Listing(t, b) == Listing(s, b);
    }
  }

  /** On a reachable storage the uint16 increment of paidInstallments never overflows. */
  lemma ConfirmNeverPanics(s: Storage, sender: Address, now: nat, key: LoanKey, number: uint16, receipt: Digest,
        digital: bool, external: Digest)
    requires Valid(s)
    ensures Confirm(s, sender, now, key, number, receipt, digital, external) != Failure(ArithmeticPanic)
  {
    if key in s.loans {
      assert LoanValid(s.loans[key], ProofsAt(s, key));
    }
  }

  lemma ConfirmKeepsValid(s: Storage, sender: Address, now: nat, key: LoanKey, number: uint16, receipt: Digest,
        digital: bool, external: Digest)
    requires Valid(s) && now > 0
    requires Confirm(s, sender, now, key, number, receipt, digital, external).Success?
    ensures Valid(Confirm(s, sender, now, key, number, receipt, digital, external).value)
    ensures Extends(s, Confirm(s, sender, now, key, number, receipt, digital, external).value)
  {
    var t := Confirm(s, sender, now, key, number, receipt, digital, external).value;
    assert LoanValid(s.loans[key], ProofsAt(s, key));
    assert LoanValid(t.loans[key], ProofsAt(t, key));
    ListingKept(s, t);
  }

  /** Storage b is storage a with one more proof for one loan, numbered by its place. */
  ghost predicate Appended(a: Storage, b: Storage, key: LoanKey, p: Proof) {
    && ProofsAt(b, key) == ProofsAt(a, key) + [p] && p.installmentNumber == |ProofsAt(b, key)|
    && (forall k: LoanKey {:trigger ProofsAt(b, k)} :: k != key ==> ProofsAt(b, k) == ProofsAt(a, k))
    && (forall k: LoanKey {:trigger LoanAt(b, k)} :: LoanAt(b, k).lender == LoanAt(a, k).lender)
  }

  lemma ConfirmAppends(s: Storage, sender: Address, now: nat, key: LoanKey, number: uint16, receipt: Digest,
        digital: bool, external: Digest)
    requires Valid(s) && Confirm(s, sender, now, key, number, receipt, digital, external).Success?
    ensures Appended(s, Confirm(s, sender, now, key, number, receipt, digital, external).value, key,
                     Proof(receipt, number, now, digital, external))
  {
    assert LoanValid(s.loans[key], ProofsAt(s, key));
  }

  lemma ListingKept(s: Storage, t: Storage)
    requires Indexed(s) && s.borrowerLoans == t.borrowerLoans
    requires forall k: LoanKey ::
               LoanAt(t, k).createdAt == LoanAt(s, k).createdAt && LoanAt(t, k).borrower == LoanAt(s, k).borrower
    ensures Indexed(t)
  {
    forall b: Address, k: LoanKey
      ensures multiset(Listing(t, b))[k] == if LoanAt(t, k).createdAt != 0 && LoanAt(t, k).borrower == b then 1 else 0
    {
      assert Listing(t, b) == Listing(s, b);
      assert multiset(Listing(s, b))[k] == if LoanAt(s, k).createdAt != 0 && LoanAt(s, k).borrower == b then 1 else 0;
    }
  }

  lemma ExecuteKeepsValid(s: Storage, c: Call)
    requires Valid(s) && c.now > 0
    ensures Valid(Execute(s, c)) && Extends(s, Execute(s, c))
  {
    if Attempt(s, c).Success? {
      match c
      case RegisterCall(sender, now, key, loanHash, borrower, total) =>
        RegisterKeepsValid(s, sender, now, key, loanHash, borrower, total);
      case ConfirmCall(sender, now, key, number, receipt, digital, external) =>
        ConfirmKeepsValid(s, sender, now, key, number, receipt, digital, external);
    }
  }

  /** Whatever transactions anyone sends, in any order, storage stays valid and only grows. */
  lemma {:induction false} EveryRunIsValid(s: Storage, calls: seq<Call>)
    requires Valid(s)
    requires forall i :: 0 <= i < |calls| ==> calls[i].now > 0
    ensures Valid(ExecuteAll(s, calls)) && Extends(s, ExecuteAll(s, calls))
    decreases |calls|
  {
    if calls != [] {
      ExecuteKeepsValid(s, calls[0]);
      EveryRunIsValid(Execute(s, calls[0]), calls[1..]);
      ExtendsTransitive(s, Execute(s, calls[0]), ExecuteAll(s, calls));
    }
  }

  lemma ExtendsTransitive(s: Storage, t: Storage, u: Storage)
    requires Extends(s, t) && Extends(t, u)
    ensures Extends(s, u)
  {
    forall key: LoanKey ensures ProofsAt(s, key) <= ProofsAt(u, key) {
      assert ProofsAt(s, key) <= ProofsAt(t, key) <= ProofsAt(u, key);
    }
    forall key: LoanKey | LoanAt(s, key).createdAt != 0
      ensures LoanAt(u, key) == LoanAt(s, key).(paidInstallments := LoanAt(u, key).paidInstallments,
                                                loanHash := LoanAt(u, key).loanHash,
                                                completedAt := LoanAt(u, key).completedAt,
                                                status := LoanAt(u, key).status)
    {
      assert LoanAt(t, key).lender == LoanAt(s, key).lender;
    }
  }

  /** The contract as deployed, starting from empty storage. */
  lemma DeployedContract(calls: seq<Call>, key: LoanKey)
    requires forall i :: 0 <= i < |calls| ==> calls[i].now > 0
    ensures var s := ExecuteAll(EMPTY, calls);
            && LoanAt(s, key).paidInstallments == |ProofsAt(s, key)| <= LoanAt(s, key).totalInstallments
            && (LoanAt(s, key).status == COMPLETED <==>
                  LoanAt(s, key).createdAt != 0 && |ProofsAt(s, key)| == LoanAt(s, key).totalInstallments)
            && (forall j :: 0 <= j < |ProofsAt(s, key)| ==> ProofsAt(s, key)[j].installmentNumber == j + 1)
            && (forall b: Address :: multiset(Listing(s, b))[key] ==
                  if LoanAt(s, key).createdAt != 0 && LoanAt(s, key).borrower == b then 1 else 0)
  {
    assert Valid(EMPTY);
    EveryRunIsValid(EMPTY, calls);
    var s := ExecuteAll(EMPTY, calls);
    if key in s.loans {
      assert LoanValid(s.loans[key], ProofsAt(s, key));
    }
  }

  /** One more installment is paid; with the last one the loan is COMPLETED at that time; nothing else changes. */
  predicate ConfirmedOnce(before: Loan, after: Loan, now: nat) {
    && after.loanHash == before.loanHash && after.lender == before.lender && after.borrower == before.borrower
    && after.totalInstallments == before.totalInstallments && after.createdAt == before.createdAt
    && after.paidInstallments == before.paidInstallments + 1
    && (after.paidInstallments == after.totalInstallments ==> after.status == COMPLETED && after.completedAt == now)
    && (after.paidInstallments != after.totalInstallments ==>
          after.status == before.status && after.completedAt == before.completedAt)
  }

  /** The contract object, its three mappings updated in place; a revert happens before any write. */
  class LibretaRegistry {
    var loans: map<LoanKey, Loan>
    var loanProofs: map<LoanKey, seq<Proof>>
    var borrowerLoans: map<Address, seq<LoanKey>>

    function View(): Storage
      reads this
    {
      Storage(loans, loanProofs, borrowerLoans)
    }

    constructor ()
      ensures View() == EMPTY && Valid(View())
    {
      loans, loanProofs, borrowerLoans := map[], map[], map[];
    }

    method RegisterLoan(sender: Address, now: nat, key: LoanKey, loanHash: Digest, borrower: Address, total: uint16)
      returns (r: Result<(), Revert>)
      requires Valid(View()) && now > 0
      modifies this
      ensures Valid(View()) && Extends(old(View()), View())
      ensures View() == Execute(old(View()), RegisterCall(sender, now, key, loanHash, borrower, total))
      ensures r.Success? <==> old(LoanAt(View(), key)).createdAt == 0 && total > 0 && borrower != 0
      ensures r.Success? ==>
        && key in loans && loans == old(loans)[key := loans[key]] && loanProofs == old(loanProofs)
        && loans[key].loanHash == loanHash && loans[key].lender == sender && loans[key].borrower == borrower
        && loans[key].totalInstallments == total && loans[key].paidInstallments == 0
        && loans[key].createdAt == now && loans[key].completedAt == 0 && loans[key].status == ACTIVE
        && borrowerLoans == old(borrowerLoans)[borrower := old(Listing(View(), borrower)) + [key]]
      ensures r.Failure? ==>
        View() == old(View())
          && r.error == if old(LoanAt(View(), key)).createdAt != 0 then AlreadyRegistered
             else if total == 0 then NoInstallments else NoBorrower
    {
      ExecuteKeepsValid(View(), RegisterCall(sender, now, key, loanHash, borrower, total));
      if key in loans && loans[key].createdAt != 0 { return Failure(AlreadyRegistered); }
      if total == 0 { return Failure(NoInstallments); }
      if borrower == 0 { return Failure(NoBorrower); }
      loans := loans[key := Loan(loanHash, sender, borrower, total, 0, now, 0, ACTIVE)];
      borrowerLoans := borrowerLoans[borrower := (if borrower in borrowerLoans then borrowerLoans[borrower] else [])
        + [key]];
      return Success(());
    }

    method ConfirmPayment(
          sender: Address, now: nat, key: LoanKey, number: uint16, receipt: Digest, digital: bool, external: Digest)
      returns (r: Result<(), Revert>)
      requires Valid(View()) && now > 0
      modifies this
      ensures Valid(View()) && Extends(old(View()), View())
      ensures View() == Execute(old(View()), ConfirmCall(sender, now, key, number, receipt, digital, external))
      ensures r.Success? <==>
        old(LoanAt(View(), key)).status == ACTIVE && sender == old(LoanAt(View(), key)).lender
        && number == |old(ProofsAt(View(), key))| + 1
      ensures r.Success? ==>
        && loanProofs == old(loanProofs)[key :=
             old(ProofsAt(View(), key)) + [Proof(receipt, number, now, digital, external)]]
        && key in loans && loans == old(loans)[key := loans[key]] && borrowerLoans == old(borrowerLoans)
        && ConfirmedOnce(old(LoanAt(View(), key)), loans[key], now)
      ensures r.Failure? ==>
        View() == old(View())
          && r.error == if old(LoanAt(View(), key)).status != ACTIVE then NotActive
             else if sender != old(LoanAt(View(), key)).lender then NotLender else BadSequence
    {
      ghost var before := View();
      ExecuteKeepsValid(before, ConfirmCall(sender, now, key, number, receipt, digital, external));
      ConfirmNeverPanics(before, sender, now, key, number, receipt, digital, external);
      if key !in loans || loans[key].status != ACTIVE { return Failure(NotActive); }
      assert LoanValid(loans[key], ProofsAt(before, key));
      var loan := loans[key];
      if sender != loan.lender { return Failure(NotLender); }
      if number != loan.paidInstallments + 1 { return Failure(BadSequence); }
      loan := loan.(paidInstallments := loan.paidInstallments + 1);
      var proofs := if key in loanProofs then loanProofs[key] else [];
      loanProofs := loanProofs[key := proofs + [Proof(receipt, number, now, digital, external)]];
      if loan.paidInstallments == loan.totalInstallments {
        loan := loan.(status := COMPLETED, completedAt := now);
      }
      loans := loans[key := loan];
      return Success(());
    }
  }
}
