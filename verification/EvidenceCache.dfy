/** SettlementAnchorService.evidence: a bounded, expiring cache in front of an append-only chain. */
module EvidenceCache {
  import opened Wrappers
  import opened Values
  import R = Registry

  datatype Receipt = Receipt(number: nat, hash: Digest)
  datatype Status = UNAVAILABLE | NOT_FOUND | VERIFIED
  datatype Evidence = Evidence(status: Status, receipts: seq<Receipt>)
  datatype Entry = Entry(until: Instant, value: Evidence)

  const CAPACITY: nat := 500

  function Ttl(status: Status): int {
    if status == UNAVAILABLE then 5_000 else 30_000
  }

  function ReceiptsOf(proofs: seq<R.Proof>): (receipts: seq<Receipt>)
    ensures |receipts| == |proofs|
    ensures forall j :: 0 <= j < |proofs| ==> receipts[j] == Receipt(proofs[j].installmentNumber, proofs[j].receiptHash)
  {
    seq(|proofs|, j requires 0 <= j < |proofs| => Receipt(proofs[j].installmentNumber, proofs[j].receiptHash))
  }

  /** The clear-then-set at the end of evidence(). */
  function Put(cache: map<LoanKey, Entry>, key: LoanKey, entry: Entry): map<LoanKey, Entry> {
    (if |cache| >= CAPACITY then map[] else cache)[key := entry]
  }

  /** Never more than 500 entries; below that the others stay, and only a full cache is emptied. */
  lemma PutKeepsBound(cache: map<LoanKey, Entry>, key: LoanKey, entry: Entry)
    requires |cache| <= 500
    ensures |Put(cache, key, entry)| <= 500
    ensures |cache| < 500 ==> Put(cache, key, entry) == cache[key := entry]
    ensures |cache| == 500 ==> Put(cache, key, entry) == map[key := entry]
  {
    var m := if |cache| >= CAPACITY then map[] else cache;
    assert m[key := entry].Keys == m.Keys + {key};
  }

  /** What a caller may rely on: the receipts are the first ones the loan has on chain, and no others. */
  predicate Sound(chain: R.Storage, key: LoanKey, value: Evidence) {
    && value.receipts <= ReceiptsOf(R.ProofsAt(chain, key))
    && (value.status != VERIFIED ==> value.receipts == [])
    && (value.status == VERIFIED ==> R.LoanAt(chain, key).createdAt != 0)
  }

  lemma PrefixOfReceipts(a: seq<R.Proof>, b: seq<R.Proof>)
    requires a <= b
    ensures ReceiptsOf(a) <= ReceiptsOf(b)
  {
    assert forall j :: 0 <= j < |a| ==> a[j] == b[j];
  }

  lemma SoundLasts(a: R.Storage, b: R.Storage, key: LoanKey, value: Evidence)
    requires R.Extends(a, b) && Sound(a, key, value)
    ensures Sound(b, key, value)
  {
    PrefixOfReceipts(R.ProofsAt(a, key), R.ProofsAt(b, key));
    assert R.LoanAt(b, key).createdAt != 0 || R.LoanAt(a, key).createdAt == 0;
  }

  /** list()'s hsk_verified flag for an installment. */
  predicate HskVerified(value: Evidence, number: nat, receipt: Option<Digest>) {
    value.status == VERIFIED && receipt.Some? && Receipt(number, receipt.value) in value.receipts
  }

  /** hsk_verified is never true without that very proof at that place on chain. */
  lemma VerifiedFlagIsProven(chain: R.Storage, key: LoanKey, value: Evidence, number: nat, receipt: Option<Digest>)
    requires R.Valid(chain) && Sound(chain, key, value) && HskVerified(value, number, receipt)
    ensures var proofs := R.ProofsAt(chain, key);
            && 1 <= number <= |proofs|
            && proofs[number - 1].installmentNumber == number && proofs[number - 1].receiptHash == receipt.value
  {
    var proofs := R.ProofsAt(chain, key);
    var j :| 0 <= j < |value.receipts| && value.receipts[j] == Receipt(number, receipt.value);
    assert ReceiptsOf(proofs)[j] == value.receipts[j];
    assert key in chain.loans && R.LoanValid(chain.loans[key], proofs);
  }

  /** An answer with all receipts of a chain sets the flag exactly for the proofs of that chain. */
  lemma FlagIsExact(chain: R.Storage, key: LoanKey, value: Evidence, number: nat, receipt: Option<Digest>)
    requires R.Valid(chain) && value == Evidence(VERIFIED, ReceiptsOf(R.ProofsAt(chain, key)))
    ensures var proofs := R.ProofsAt(chain, key);
            HskVerified(value, number, receipt) <==>
              1 <= number <= |proofs| && receipt == Some(proofs[number - 1].receiptHash)
  {
    var proofs := R.ProofsAt(chain, key);
    if HskVerified(value, number, receipt) { VerifiedFlagIsProven(chain, key, value, number, receipt); }
    if 1 <= number <= |proofs| && receipt == Some(proofs[number - 1].receiptHash) {
      assert key in chain.loans && R.LoanValid(chain.loans[key], proofs);
      assert value.receipts[number - 1] == Receipt(number, receipt.value);
    }
  }

  /**
   What happens while a call waits: time passes, blocks are made, and other calls read one thing after another. A call
   may store only what it has put together from its own reads, at any later time.
   */
  datatype Happening =
    | Tick(ms: nat)
    | Transaction(call: R.Call)
    | Block
    | FindLoan(key: LoanKey)
    | ReadHeight
    | ReadProofs(key: LoanKey, view: R.Storage)
    | GiveUp(key: LoanKey)
    | Stored(key: LoanKey, value: Evidence)

  /** What other calls know: loans seen on chain, the chain at the blocks they will read, and finished answers. */
  datatype Calls = Calls(found: set<LoanKey>, heights: set<R.Storage>, read: set<(LoanKey, Evidence)>)

  /** One RPC read of another call. */
  function Learn(calls: Calls, h: Happening, head: R.Storage, deep: R.Storage): Calls {
    match h
    case FindLoan(key) =>
      if R.LoanAt(head, key).createdAt == 0
      then calls.(read := calls.read + {(key, Evidence(NOT_FOUND, []))})
      else calls.(found := calls.found + {key})
    case ReadHeight => calls.(heights := calls.heights + {deep})
    case ReadProofs(key, view) =>
      if key in calls.found && view in calls.heights
      then calls.(read := calls.read + {(key, Evidence(VERIFIED, ReceiptsOf(R.ProofsAt(view, key))))})
      else calls
    case GiveUp(key) => calls.(read := calls.read + {(key, Evidence(UNAVAILABLE, []))})
    case _ => calls
  }

  ghost predicate FoundAt(calls: Calls, head: R.Storage, key: LoanKey) {
    key in calls.found ==> R.LoanAt(head, key).createdAt != 0
  }

  ghost predicate HeightAt(calls: Calls, deep: R.Storage, view: R.Storage) {
    view in calls.heights ==> R.Extends(view, deep)
  }

  ghost predicate ReadAt(calls: Calls, head: R.Storage, r: (LoanKey, Evidence)) {
    r in calls.read ==> Sound(head, r.0, r.1)
  }

  ghost predicate Informed(calls: Calls, head: R.Storage, deep: R.Storage) {
    && (forall key: LoanKey {:trigger FoundAt(calls, head, key)} :: FoundAt(calls, head, key))
    && (forall view: R.Storage {:trigger HeightAt(calls, deep, view)} :: HeightAt(calls, deep, view))
    && (forall r: (LoanKey, Evidence) {:trigger ReadAt(calls, head, r)} :: ReadAt(calls, head, r))
  }

  /** Every answer a call can put together from its reads is sound, however far apart they were. */
  lemma LearnKeeps(calls: Calls, h: Happening, head: R.Storage, deep: R.Storage)
    requires Informed(calls, head, deep) && R.Extends(deep, head)
    ensures Informed(Learn(calls, h, head, deep), head, deep)
  {
    var next := Learn(calls, h, head, deep);
    forall key: LoanKey ensures FoundAt(next, head, key) { assert FoundAt(calls, head, key); }
    forall view: R.Storage ensures HeightAt(next, deep, view) { assert HeightAt(calls, deep, view); Itself(deep); }
    forall r: (LoanKey, Evidence) ensures ReadAt(next, head, r) { AnswerIsSound(calls, h, head, deep, r); }
  }

  lemma AnswerIsSound(calls: Calls, h: Happening, head: R.Storage, deep: R.Storage, r: (LoanKey, Evidence))
    requires Informed(calls, head, deep) && R.Extends(deep, head)
    ensures ReadAt(Learn(calls, h, head, deep), head, r)
  {
    assert ReadAt(calls, head, r);
    if h.ReadProofs? && h.key in calls.found && h.view in calls.heights {
      assert FoundAt(calls, head, h.key) && HeightAt(calls, deep, h.view);
      R.ExtendsTransitive(h.view, deep, head);
      PrefixOfReceipts(R.ProofsAt(h.view, h.key), R.ProofsAt(head, h.key));
    }
  }

  /** What is known stays true while the chain grows. */
  lemma InformedLasts(calls: Calls, head: R.Storage, deep: R.Storage, newHead: R.Storage, newDeep: R.Storage)
    requires Informed(calls, head, deep) && R.Extends(head, newHead) && R.Extends(deep, newDeep)
    ensures Informed(calls, newHead, newDeep)
  {
    forall key: LoanKey ensures FoundAt(calls, newHead, key) {
      assert FoundAt(calls, head, key);
      assert R.LoanAt(newHead, key).createdAt == R.LoanAt(head, key).createdAt || key !in calls.found;
    }
    forall view: R.Storage ensures HeightAt(calls, newDeep, view) {
      assert HeightAt(calls, deep, view);
      if view in calls.heights { R.ExtendsTransitive(view, deep, newDeep); }
    }
    forall r: (LoanKey, Evidence) ensures ReadAt(calls, newHead, r) {
      assert ReadAt(calls, head, r);
      if r in calls.read { SoundLasts(head, newHead, r.0, r.1); }
    }
  }

  class EvidenceService {
    var cache: map<LoanKey, Entry>
    var clock: Instant
    var head: R.Storage   // the chain now
    var deep: R.Storage   // the chain one block ago
    var calls: Calls      // what the other calls in flight have read

    ghost predicate Valid()
      reads this
    {
      && R.Valid(head) && R.Extends(deep, head) && Informed(calls, head, deep)
      && |cache| <= 500
      && forall key: LoanKey {:trigger Cached(key)} :: Cached(key)
    }

    /** An entry is sound for the present chain and was stored within its time to live of its expiry. */
    ghost predicate Cached(key: LoanKey)
      reads this
    {
      key in cache ==>
        Sound(head, key, cache[key].value)
          && cache[key].until <= clock + if cache[key].value.status == UNAVAILABLE then 5_000 else 30_000
    }

    /**
     An answer just read: all receipts at the block the height named, or why there are none. `view` is the chain at
     that block, somewhere between the confirmed block when the call began and the one now.
     */
    ghost predicate Fresh(key: LoanKey, value: Evidence, view: R.Storage)
      reads this
    {
      && Sound(head, key, value)
      && (value.status == VERIFIED ==> R.Extends(view, deep) && value.receipts == ReceiptsOf(R.ProofsAt(view, key)))
      && (value.status == NOT_FOUND ==> R.LoanAt(head, key).createdAt == 0)
    }

    constructor ()
      ensures Valid() && cache == map[]
    {
      cache, clock, head, deep, calls := map[], 0, R.EMPTY, R.EMPTY, Calls({}, {}, {});
    }

    method Happen(h: Happening)
      requires Valid()
      modifies this
      ensures Valid() && R.Extends(old(head), head) && R.Extends(old(deep), deep) && old(clock) <= clock
    {
      Itself(head);
      Itself(deep);
      match h
      case Tick(ms) =>
        clock := clock + ms;
        forall key: LoanKey ensures Cached(key) { assert old(Cached(key)); }
      case Transaction(call) => Mine(call);
      case Block =>
        InformedLasts(calls, head, deep, head, head);
        deep := head;
        forall key: LoanKey ensures Cached(key) { assert old(Cached(key)); }
      case Stored(key, value) =>
        assert ReadAt(calls, head, (key, value));
        if (key, value) in calls.read { Store(key, value); }
      case _ =>
        LearnKeeps(calls, h, head, deep);
        calls := Learn(calls, h, head, deep);
        forall key: LoanKey ensures Cached(key) { assert old(Cached(key)); }
    }

    method Mine(call: R.Call)
      requires Valid()
      modifies this`head
      ensures Valid() && R.Extends(old(head), head)
    {
      Itself(head);
      Itself(deep);
      if call.now > 0 {
        R.ExecuteKeepsValid(head, call);
        R.ExtendsTransitive(deep, head, R.Execute(head, call));
        InformedLasts(calls, head, deep, R.Execute(head, call), deep);
        head := R.Execute(head, call);
        forall key: LoanKey ensures Cached(key) {
          assert old(Cached(key));
          if key in cache { SoundLasts(old(head), head, key, cache[key].value); }
        }
      }
    }

    method Elsewhere()
      requires Valid()
      modifies this
      ensures Valid() && R.Extends(old(head), head) && R.Extends(old(deep), deep) && old(clock) <= clock
    {
      var others: seq<Happening> := *;
      Itself(head);
      Itself(deep);
      for i := 0 to |others|
        invariant Valid() && R.Extends(old(head), head) && R.Extends(old(deep), deep) && old(clock) <= clock
      {
        ghost var h, d := head, deep;
        Happen(others[i]);
        R.ExtendsTransitive(old(head), h, head);
        R.ExtendsTransitive(old(deep), d, deep);
      }
    }

    method Store(key: LoanKey, value: Evidence)
      requires Valid() && Sound(head, key, value)
      modifies this`cache
      ensures Valid()
      ensures cache == Put(old(cache), key, Entry(clock + Ttl(value.status), value))
    {
      PutKeepsBound(cache, key, Entry(clock + Ttl(value.status), value));
      cache := Put(cache, key, Entry(clock + Ttl(value.status), value));
      forall k: LoanKey ensures Cached(k) { assert old(Cached(k)); }
    }

    /**
     Whatever hits, expiries, evictions and other calls came before, the answer is sound for the chain as it is now;
     what is not served from the cache has at least all receipts that were confirmed when the call began, and is kept
     for five seconds if a request failed and for thirty otherwise.
     */
    method Lookup(key: LoanKey, net: nat -> bool) returns (value: Evidence, ghost view: R.Storage)
      requires Valid()
      modifies this
      ensures Valid() && Sound(head, key, value)
      ensures old(key in cache && cache[key].until > clock) ==>
        value == old(cache[key].value) && cache == old(cache) && clock < old(cache[key].until)
      ensures !old(key in cache && cache[key].until > clock) ==>
        && key in cache && cache[key].value == value
        && cache[key].until == clock + (if value.status == UNAVAILABLE then 5_000 else 30_000)
        && |cache| <= 500 && Fresh(key, value, view) && R.Extends(old(deep), view)
        && (net(0) && net(1) && net(2) ==> value.status != UNAVAILABLE)
        && (R.LoanAt(old(head), key).createdAt != 0 ==> value.status != NOT_FOUND)
    {
      assert Cached(key);
      view := deep;
      if key in cache && cache[key].until > clock { return cache[key].value, view; }
      value, view := Fetch(key, net);
      Store(key, value);
    }

    /**
     The RPC reads, each after an await: the loan, the height, the proofs at the block before. UNAVAILABLE needs a read
     that failed, and NOT_FOUND a loan that was not there when the call began.
     */
    method Fetch(key: LoanKey, net: nat -> bool) returns (value: Evidence, ghost view: R.Storage)
      requires Valid()
      modifies this
      ensures Valid() && Fresh(key, value, view) && R.Extends(old(deep), view)
      ensures value.status == UNAVAILABLE ==> !net(0) || !net(1) || !net(2)
      ensures value.status == NOT_FOUND ==> R.LoanAt(old(head), key).createdAt == 0
    {
      value := Evidence(UNAVAILABLE, []);
      Elsewhere();
      view := deep;
      if !net(0) { return; }
      if R.LoanAt(head, key).createdAt == 0 {
        value := Evidence(NOT_FOUND, []);
        return;
      }
      ghost var shown := head;
      Elsewhere();
      R.ExtendsTransitive(old(deep), view, deep);
      view := deep;
      var confirmed := R.ProofsAt(deep, key);  // settled once the height is known
      if !net(1) { return; }
      ghost var counted := head;
      Elsewhere();
      R.ExtendsTransitive(view, deep, head);
      R.ExtendsTransitive(shown, counted, head);
      if !net(2) { return; }
      value := Evidence(VERIFIED, ReceiptsOf(confirmed));
      PrefixOfReceipts(confirmed, R.ProofsAt(head, key));
      assert R.LoanAt(head, key).createdAt == R.LoanAt(shown, key).createdAt;
    }
  }

  lemma Itself(s: R.Storage)
    ensures R.Extends(s, s)
  {
  }
}
