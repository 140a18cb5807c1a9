/** The audit log and its durable outbox: delivery that is retried, and logs each keyed event once at most. */
module Outbox {
  import opened Wrappers
  import opened Values

  type Key = nat

  /** An event as recorded; `payload` stands for all its other columns. */
  datatype Entry = Entry(payload: nat, key: Option<Key>)

  datatype Row = Row(payload: nat, key: Key, createdAt: Instant, attempts: nat, nextAttemptAt: Instant)

  /**
   The two tables, the row ids ever generated (gen_random_uuid() repeats none), and what flushing processes know:
   which rows they have read, and which row's event they were told is recorded.
   */
  datatype Store = Store(
    log: seq<Entry>, outbox: map<Uuid, Row>, issued: set<Uuid>, taken: set<(Uuid, Entry)>, recorded: set<Uuid>)

  const EMPTY: Store := Store([], map[], {}, {}, {})

  const OUTBOX_BATCH: nat := 50
  const MAX_ATTEMPTS: nat := 3

  /** How often a key is in the log. */
  function Copies(log: seq<Entry>, key: Key): nat {
    if log == [] then 0
    else Copies(log[..|log| - 1], key) + (if log[|log| - 1].key == Some(key) then 1 else 0)
  }

  predicate Logged(log: seq<Entry>, key: Key) {
    Copies(log, key) > 0
  }

  /** The entry that stands in the log under a key. */
  function Find(log: seq<Entry>, key: Key): Option<Entry> {
    if log == [] then None
    else
      var before := Find(log[..|log| - 1], key);
      if before.Some? then before else if log[|log| - 1].key == Some(key) then Some(log[|log| - 1]) else None
  }

  predicate Queued(outbox: map<Uuid, Row>, key: Key) {
    exists id <- outbox :: outbox[id].key == key
  }

  /** The system has taken responsibility for the key. */
  predicate Accepted(s: Store, key: Key) {
    Logged(s.log, key) || Queued(s.outbox, key)
  }

  function EventOf(row: Row): Entry {
    Entry(row.payload, Some(row.key))
  }

  // ---------- one SQL statement

  datatype Statement =
    | Upsert(entry: Entry)                      // a direct write: ON CONFLICT (idempotency_key) DO NOTHING
    | Enqueue(id: Uuid, entry: Entry, key: Key, at: Instant)  // key: the entry's own, or a fresh one
    | Take(ids: set<Uuid>)                      // the SELECT of a flush
    | Record(id: Uuid, entry: Entry, answered: bool)  // the upsert of a row that was read; its reply may be lost
    | Delete(id: Uuid)                          // only for a row whose record was answered
    | Postpone(id: Uuid, attempts: nat, at: Instant)

  function AddEntry(log: seq<Entry>, entry: Entry): seq<Entry> {
    if entry.key.Some? && Logged(log, entry.key.value) then log else log + [entry]
  }

  /** The unique indexes of the outbox answer with an error. */
  predicate Refused(s: Store, c: Statement) {
    c.Enqueue? && (c.id in s.issued || Queued(s.outbox, c.key))
  }

  /** A process acts only on rows it has read, and deletes only a row whose record was answered. */
  predicate Informed(s: Store, c: Statement) {
    match c
    case Record(id, entry, _) => (id, entry) in s.taken
    case Delete(id) => id in s.recorded
    case _ => true
  }

  function Step(s: Store, c: Statement): Store {
    if !Informed(s, c) || Refused(s, c) then s
    else
      match c
      case Upsert(entry) => s.(log := AddEntry(s.log, entry))
      case Enqueue(id, entry, key, at) =>
        s.(outbox := s.outbox[id := Row(entry.payload, key, at, 0, at)], issued := s.issued + {id})
      case Take(ids) => s.(taken := s.taken + set id | id in ids && id in s.outbox :: (id, EventOf(s.outbox[id])))
      case Record(id, entry, answered) =>
        s.(log := AddEntry(s.log, entry), recorded := if answered then s.recorded + {id} else s.recorded)
      case Delete(id) => s.(outbox := s.outbox - {id})
      case Postpone(id, attempts, at) =>
        if id in s.outbox
        then s.(outbox := s.outbox[id := s.outbox[id].(attempts := attempts, nextAttemptAt := at)])
        else s
  }

  /** Statements of any number of processes, in the order the database runs them. */
  function Run(s: Store, cs: seq<Statement>): Store
    decreases |cs|
  {
    if cs == [] then s else Run(Step(s, cs[0]), cs[1..])
  }

  // ---------- what every reachable store satisfies

  /** A row that was read still holds the event that was read, as long as it is there. */
  ghost predicate TakenAt(s: Store, t: (Uuid, Entry)) {
    t in s.taken ==> t.0 in s.issued && t.1.key.Some? && (t.0 in s.outbox ==> EventOf(s.outbox[t.0]) == t.1)
  }

  /** A row whose record was answered has its event in the log. */
  ghost predicate RecordedAt(s: Store, id: Uuid) {
    id in s.recorded ==> id in s.issued && (id in s.outbox ==> Logged(s.log, s.outbox[id].key))
  }

  ghost predicate Valid(s: Store) {
    && (forall key: Key {:trigger Copies(s.log, key)} :: Copies(s.log, key) <= 1)
    && s.outbox.Keys <= s.issued
    && (forall a: Uuid, b: Uuid :: a in s.outbox && b in s.outbox && a != b ==> s.outbox[a].key != s.outbox[b].key)
    && (forall t: (Uuid, Entry) {:trigger TakenAt(s, t)} :: TakenAt(s, t))
    && (forall id: Uuid {:trigger RecordedAt(s, id)} :: RecordedAt(s, id))
  }

  /** The log only grows, rows never change their event, and a row that is gone left its key in the log. */
  ghost predicate Follows(s: Store, t: Store) {
    && s.log <= t.log && s.outbox.Keys <= s.issued <= t.issued && s.taken <= t.taken && s.recorded <= t.recorded
    && forall id: Uuid {:trigger RowFollows(s, t, id)} :: RowFollows(s, t, id)
  }

  ghost predicate RowFollows(s: Store, t: Store, id: Uuid) {
    && (id in s.outbox && id !in t.outbox ==> Logged(t.log, s.outbox[id].key))
    && (id in t.outbox && id in s.issued ==> id in s.outbox && EventOf(s.outbox[id]) == EventOf(t.outbox[id]))
  }

  lemma {:induction false} LoggedLasts(a: seq<Entry>, b: seq<Entry>, key: Key)
    requires a <= b && Logged(a, key)
    ensures Logged(b, key)
    decreases |b|
  {
    if |a| < |b| {
      LoggedLasts(a, b[..|b| - 1], key);
    } else {
      assert a == b;
    }
  }

  lemma {:induction false} AddEntryKeeps(log: seq<Entry>, entry: Entry, key: Key)
    requires Copies(log, key) <= 1
    ensures log <= AddEntry(log, entry)
    ensures Copies(log, key) <= Copies(AddEntry(log, entry), key) <= 1
    ensures entry.key == Some(key) ==> Copies(AddEntry(log, entry), key) == 1
    ensures entry.key != Some(key) ==> Copies(AddEntry(log, entry), key) == Copies(log, key)
  {
    assert (log + [entry])[..|log|] == log;
  }

  /** What a statement may change in the log: it adds one entry, or nothing. */
  lemma {:induction false} LogKeeps(s: Store, c: Statement, key: Key)
    requires Copies(s.log, key) <= 1
    ensures s.log <= Step(s, c).log
    ensures Copies(s.log, key) <= Copies(Step(s, c).log, key) <= 1
  {
    match c
    case Upsert(entry) => AddEntryKeeps(s.log, entry, key);
    case Record(id, entry, _) => AddEntryKeeps(s.log, entry, key);
    case _ =>
  }

  /** The tokens stay true: this is why a deletion never loses an event. */
  lemma {:induction false} TokensKeep(s: Store, c: Statement, t: (Uuid, Entry))
    requires Valid(s)
    ensures TakenAt(Step(s, c), t) && RecordedAt(Step(s, c), t.0)
  {
    assert TakenAt(s, t) && RecordedAt(s, t.0);
    if t.0 in s.outbox { LogKeeps(s, c, s.outbox[t.0].key); }
    if c.Record? && c.id == t.0 && (c.id, c.entry) in s.taken {
      assert TakenAt(s, (c.id, c.entry));
      AddEntryKeeps(s.log, c.entry, c.entry.key.value);
    }
  }

  lemma {:induction false} StepKeeps(s: Store, c: Statement)
    requires Valid(s)
    ensures Valid(Step(s, c)) && Follows(s, Step(s, c))
  {
    var t := Step(s, c);
    forall key: Key ensures Copies(t.log, key) <= 1 { LogKeeps(s, c, key); }
    forall k: (Uuid, Entry) ensures TakenAt(t, k) { TokensKeep(s, c, k); }
    forall id: Uuid ensures RecordedAt(t, id) { TokensKeep(s, c, (id, Entry(0, None))); }
    LogKeeps(s, c, 0);
    forall id: Uuid ensures RowFollows(s, t, id) { assert RecordedAt(s, id); }
  }

  lemma {:induction false} FollowsTransitive(a: Store, b: Store, c: Store)
    requires Follows(a, b) && Follows(b, c)
    ensures Follows(a, c)
  {
    forall id: Uuid ensures RowFollows(a, c, id) {
      assert RowFollows(a, b, id) && RowFollows(b, c, id);
      if id in a.outbox && Logged(b.log, a.outbox[id].key) { LoggedLasts(b.log, c.log, a.outbox[id].key); }
    }
  }

  /** Over every interleaving, each keyed event is logged at most once and nothing accepted is dropped. */
  lemma {:induction false} RunKeeps(s: Store, cs: seq<Statement>)
    requires Valid(s)
    ensures Valid(Run(s, cs)) && Follows(s, Run(s, cs))
    decreases |cs|
  {
    if cs != [] {
      StepKeeps(s, cs[0]);
      RunKeeps(Step(s, cs[0]), cs[1..]);
      FollowsTransitive(s, Step(s, cs[0]), Run(s, cs));
    }
  }

  lemma AcceptedLasts(s: Store, t: Store, key: Key)
    requires Valid(s) && Follows(s, t) && Accepted(s, key)
    ensures Accepted(t, key)
    ensures Logged(s.log, key) ==> Logged(t.log, key)
  {
    if Logged(s.log, key) {
      LoggedLasts(s.log, t.log, key);
    } else {
      var id :| id in s.outbox && s.outbox[id].key == key;
      assert RowFollows(s, t, id) && id in s.issued;
      if id in t.outbox { assert EventOf(t.outbox[id]) == EventOf(s.outbox[id]); }
    }
  }

  /**
   Once accepted, a key is in the log or the outbox in every later state; once logged, it is there exactly once, with
   the same event for ever.
   */
  lemma AcceptedIsKept(s: Store, cs: seq<Statement>, key: Key)
    requires Valid(s) && Accepted(s, key)
    ensures Accepted(Run(s, cs), key)
    ensures Logged(s.log, key) ==> Copies(Run(s, cs).log, key) == 1 && Find(Run(s, cs).log, key) == Find(s.log, key)
    ensures Copies(Run(s, cs).log, key) <= 1
  {
    RunKeeps(s, cs);
    AcceptedLasts(s, Run(s, cs), key);
    assert Copies(Run(s, cs).log, key) <= 1;
    if Logged(s.log, key) {
      FoundIsLogged(s.log, key);
      FoundLasts(s.log, Run(s, cs).log, key);
    }
  }

  // ---------- which event stands in the log

  lemma {:induction false} FoundIsLogged(log: seq<Entry>, key: Key)
    ensures Logged(log, key) <==> Find(log, key).Some?
    ensures Find(log, key).Some? ==> Find(log, key).value in log && Find(log, key).value.key == Some(key)
  {
    if log != [] {
      FoundIsLogged(log[..|log| - 1], key);
    }
  }

  lemma {:induction false} FoundLasts(a: seq<Entry>, b: seq<Entry>, key: Key)
    requires a <= b && Find(a, key).Some?
    ensures Find(b, key) == Find(a, key)
    decreases |b|
  {
    if |a| < |b| {
      FoundLasts(a, b[..|b| - 1], key);
    } else {
      assert a == b;
    }
  }

  /** A write leaves its own event under its key, unless one was there; one without a key is always appended. */
  lemma AddEntryFound(log: seq<Entry>, entry: Entry)
    ensures entry.key.None? ==> AddEntry(log, entry) == log + [entry]
    ensures entry.key.Some? ==>
      Find(AddEntry(log, entry), entry.key.value) ==
      if Find(log, entry.key.value).Some? then Find(log, entry.key.value) else Some(entry)
  {
    if entry.key.Some? {
      FoundIsLogged(log, entry.key.value);
      assert (log + [entry])[..|log|] == log;
    }
  }

  /** The statement writes this very event into the log. */
  predicate Writes(c: Statement, e: Entry) {
    c == Upsert(e) || (c.Record? && c.entry == e)
  }

  predicate WrittenBy(cs: seq<Statement>, e: Entry) {
    exists k | 0 <= k < |cs| :: Writes(cs[k], e)
  }

  /** Nothing stands in the log but what was there and what some statement wrote. */
  lemma {:induction false} LogOrigin(s: Store, cs: seq<Statement>, e: Entry)
    requires e in Run(s, cs).log
    ensures e in s.log || WrittenBy(cs, e)
    decreases |cs|
  {
    if cs != [] {
      LogOrigin(Step(s, cs[0]), cs[1..], e);
      if WrittenBy(cs[1..], e) {
        var k :| 0 <= k < |cs[1..]| && Writes(cs[1..][k], e);
        assert Writes(cs[k + 1], e);
      } else if e !in s.log {
        OneWrite(s, cs[0], e);
        assert Writes(cs[0], e);
      }
    }
  }

  lemma OneWrite(s: Store, c: Statement, e: Entry)
    requires e !in s.log && e in Step(s, c).log
    ensures Writes(c, e)
  {
  }

  /** The event stands under its key; or another one does, which was there before or which some statement wrote. */
  predicate InPlace(s: Store, cs: seq<Statement>, e: Entry) {
    && e.key.Some?
    && var found := Find(Run(s, cs).log, e.key.value);
       found.Some? && (found.value == e || found.value in s.log || WrittenBy(cs, found.value))
  }

  /** All statements about the key carry one event, as an idempotency key promises. */
  predicate Agree(s: Store, cs: seq<Statement>, e: Entry) {
    && (forall f <- s.log :: f.key == e.key ==> f == e)
    && (forall c <- cs :: (c.Upsert? || c.Record?) && c.entry.key == e.key ==> c.entry == e)
  }

  lemma LoggedIsInPlace(s: Store, cs: seq<Statement>, e: Entry)
    requires e.key.Some? && Logged(Run(s, cs).log, e.key.value)
    ensures InPlace(s, cs, e)
    ensures Agree(s, cs, e) ==> Find(Run(s, cs).log, e.key.value) == Some(e) && e in Run(s, cs).log
  {
    FoundIsLogged(Run(s, cs).log, e.key.value);
    var f := Find(Run(s, cs).log, e.key.value).value;
    LogOrigin(s, cs, f);
    if Agree(s, cs, e) && WrittenBy(cs, f) {
      var k :| 0 <= k < |cs| && Writes(cs[k], f);
    }
  }

  /**
   A row disappears only when an event stands in the log under its key, exactly once: its own one, unless another event
   was recorded under the same key.
   */
  lemma RowLeavesLogged(s: Store, cs: seq<Statement>, id: Uuid)
    requires Valid(s) && id in s.outbox && id !in Run(s, cs).outbox
    ensures Copies(Run(s, cs).log, s.outbox[id].key) == 1 && InPlace(s, cs, EventOf(s.outbox[id]))
    ensures Agree(s, cs, EventOf(s.outbox[id])) ==> EventOf(s.outbox[id]) in Run(s, cs).log
  {
    RunKeeps(s, cs);
    assert RowFollows(s, Run(s, cs), id);
    assert Copies(Run(s, cs).log, s.outbox[id].key) <= 1;
    LoggedIsInPlace(s, cs, EventOf(s.outbox[id]));
  }

  /**
   From empty tables, whatever any processes do: an answered record means a logged event, exactly once, the row's own
   one unless another event was recorded under the same key.
   */
  lemma RecordedIsLogged(cs: seq<Statement>, id: Uuid)
    requires id in Run(EMPTY, cs).recorded && id in Run(EMPTY, cs).outbox
    ensures var t := Run(EMPTY, cs);
            && Copies(t.log, t.outbox[id].key) == 1 && InPlace(EMPTY, cs, EventOf(t.outbox[id]))
            && (Agree(EMPTY, cs, EventOf(t.outbox[id])) ==> EventOf(t.outbox[id]) in t.log)
  {
    EmptyIsValid();
    RunKeeps(EMPTY, cs);
    assert RecordedAt(Run(EMPTY, cs), id);
    assert Copies(Run(EMPTY, cs).log, Run(EMPTY, cs).outbox[id].key) <= 1;
    LoggedIsInPlace(EMPTY, cs, EventOf(Run(EMPTY, cs).outbox[id]));
  }

  /** The statement put this event into the outbox. */
  predicate Queues(c: Statement, e: Entry) {
    c.Enqueue? && e == Entry(c.entry.payload, Some(c.key))
  }

  /**
   From empty tables nothing stands in the log or the outbox but events that record() was given: written directly, or
   queued under their own or a fresh key and recorded from the row.
   */
  lemma {:induction false} EventOrigin(cs: seq<Statement>, e: Entry)
    ensures e in Run(EMPTY, cs).log ==> exists k | 0 <= k < |cs| :: cs[k] == Upsert(e) || Queues(cs[k], e)
    ensures forall id :: id in Run(EMPTY, cs).outbox && EventOf(Run(EMPTY, cs).outbox[id]) == e ==>
      exists k | 0 <= k < |cs| :: Queues(cs[k], e)
    ensures forall id :: (id, e) in Run(EMPTY, cs).taken ==> exists k | 0 <= k < |cs| :: Queues(cs[k], e)
    decreases |cs|
  {
    if cs != [] {
      var n := |cs| - 1;
      var before := cs[..n];
      EventOrigin(before, e);
      assert cs == before + [cs[n]];
      RunConcat(EMPTY, before, [cs[n]]);
      assert Run(Run(EMPTY, before), [cs[n]]) == Step(Run(EMPTY, before), cs[n]);
      assert forall k :: 0 <= k < n ==> before[k] == cs[k];
      EventStep(Run(EMPTY, before), cs[n], e);
    }
  }

  lemma EventStep(s: Store, c: Statement, e: Entry)
    ensures e in Step(s, c).log ==> e in s.log || c == Upsert(e) || exists id :: (id, e) in s.taken
    ensures forall id :: id in Step(s, c).outbox && EventOf(Step(s, c).outbox[id]) == e ==>
      (id in s.outbox && EventOf(s.outbox[id]) == e) || Queues(c, e)
    ensures forall id :: (id, e) in Step(s, c).taken ==>
      (id, e) in s.taken || (id in s.outbox && EventOf(s.outbox[id]) == e)
  {
  }

  lemma EmptyIsValid()
    ensures Valid(EMPTY)
  {
  }

  lemma {:induction false} RunConcat(s: Store, a: seq<Statement>, b: seq<Statement>)
    ensures Run(s, a + b) == Run(Run(s, a), b)
    decreases |a|
  {
    if a == [] {
      assert a + b == b;
    } else {
      assert (a + b)[1..] == a[1..] + b;
      RunConcat(Step(s, a[0]), a[1..], b);
    }
  }

  /** With a key any number of repetitions leaves the log as the first one did. */
  lemma {:induction false} KeyedNeverRepeats(s: Store, entry: Entry, cs: seq<Statement>)
    requires entry.key.Some? && Logged(s.log, entry.key.value)
    requires forall k :: 0 <= k < |cs| ==> cs[k] == Upsert(entry)
    ensures Run(s, cs) == s
    decreases |cs|
  {
    if cs != [] { KeyedNeverRepeats(s, entry, cs[1..]); }
  }

  // ---------- when an event is lost

  /** What becomes of one statement on its way. */
  datatype Fate = NOT_REACHED | REPLY_LOST | ANSWERED

  function Deliver(s: Store, c: Statement, fate: Fate): Store {
    if fate == NOT_REACHED then s else Step(s, c)
  }

  /** writeDirectWithRetry on its own: attempts until one is answered. */
  function WriteDirect(s: Store, entry: Entry, fates: seq<Fate>): (Store, bool)
    decreases |fates|
  {
    if fates == [] then (s, false)
    else if fates[0] == ANSWERED then (Step(s, Upsert(entry)), true)
    else WriteDirect(Deliver(s, Upsert(entry), fates[0]), entry, fates[1..])
  }

  /** record() on its own: the direct attempts, then the outbox insert. */
  function RecordOn(s: Store, entry: Entry, id: Uuid, key: Key, at: Instant, direct: seq<Fate>, queue: Fate): Store {
    var w := WriteDirect(s, entry, direct);
    if w.1 then w.0 else Deliver(w.0, Enqueue(id, entry, key, at), queue)
  }

  predicate Reached(fates: seq<Fate>) {
    exists k | 0 <= k < |fates| :: fates[k] != NOT_REACHED
  }

  lemma {:induction false} WriteDirectReaches(s: Store, entry: Entry, fates: seq<Fate>, key: Key)
    requires Valid(s) && entry.key == Some(key)
    ensures var w := WriteDirect(s, entry, fates);
            && Valid(w.0) && Follows(s, w.0) && (w.1 ==> Reached(fates))
            && (Reached(fates) ==> Logged(w.0.log, key)) && (!Reached(fates) ==> w.0 == s)
            && (Reached(fates) && !Logged(s.log, key) ==> Find(w.0.log, key) == Some(entry))
    decreases |fates|
  {
    RunKeeps(s, []);
    if fates != [] {
      var t := Deliver(s, Upsert(entry), fates[0]);
      StepKeeps(s, Upsert(entry));
      AddEntryKeeps(s.log, entry, key);
      AddEntryFound(s.log, entry);
      FoundIsLogged(s.log, key);
      if fates[0] != ANSWERED {
        WriteDirectReaches(t, entry, fates[1..], key);
        var w := WriteDirect(t, entry, fates[1..]);
        FollowsTransitive(s, t, w.0);
        if fates[0] != NOT_REACHED {
          LoggedLasts(t.log, w.0.log, key);
          FoundLasts(t.log, w.0.log, key);
        }
        assert Reached(fates) <==> fates[0] != NOT_REACHED || Reached(fates[1..]) by {
          if k :| 0 <= k < |fates| && fates[k] != NOT_REACHED && k > 0 { assert fates[1..][k - 1] == fates[k]; }
          if k :| 0 <= k < |fates[1..]| && fates[1..][k] != NOT_REACHED { assert fates[k + 1] == fates[1..][k]; }
        }
      }
    }
  }

  /** How many attempts take effect, up to the first one that is answered. */
  function Effects(fates: seq<Fate>): nat {
    if fates == [] then 0
    else if fates[0] == ANSWERED then 1
    else (if fates[0] == REPLY_LOST then 1 else 0) + Effects(fates[1..])
  }

  predicate Answered(fates: seq<Fate>) {
    fates != [] && (fates[0] == ANSWERED || Answered(fates[1..]))
  }

  function Times(entry: Entry, n: nat): seq<Entry> {
    seq(n, _ => entry)
  }

  /** Without a key nothing is recognised: the log gets one copy for each attempt that took effect. */
  lemma {:induction false} UnkeyedWrites(s: Store, entry: Entry, fates: seq<Fate>)
    requires Valid(s) && entry.key.None?
    ensures var w := WriteDirect(s, entry, fates);
            && Valid(w.0) && w.1 == Answered(fates)
            && w.0 == s.(log := s.log + Times(entry, Effects(fates)))
    decreases |fates|
  {
    if fates == [] {
      assert s.log + Times(entry, 0) == s.log;
    } else {
      StepKeeps(s, Upsert(entry));
      if fates[0] == ANSWERED {
        assert Times(entry, 1) == [entry];
      } else {
        UnkeyedWrites(Deliver(s, Upsert(entry), fates[0]), entry, fates[1..]);
        var n := Effects(fates[1..]);
        assert [entry] + Times(entry, n) == Times(entry, n + 1);
        assert s.log + [entry] + Times(entry, n) == s.log + ([entry] + Times(entry, n));
      }
    }
  }

  /**
   record() of an unkeyed event, exactly: one copy for each direct attempt that took effect, and, when none was answered
   and the insert arrived, a row under the fresh key, which leaves one more copy in the log before it goes away.
   */
  lemma UnkeyedMayRepeat(
      s: Store, entry: Entry, id: Uuid, freshKey: Key, at: Instant, direct: seq<Fate>, queue: Fate,
        later: seq<Statement>)
    requires Valid(s) && entry.key.None? && id !in s.issued && !Queued(s.outbox, freshKey)
    ensures var t := RecordOn(s, entry, id, freshKey, at, direct, queue);
            && t.log == s.log + Times(entry, Effects(direct))
            && (id in t.outbox <==> !Answered(direct) && queue != NOT_REACHED)
            && (id in t.outbox ==>
                  && EventOf(t.outbox[id]) == Entry(entry.payload, Some(freshKey))
                  && (id !in Run(t, later).outbox ==>
                        && Copies(Run(t, later).log, freshKey) == 1
                        && (Agree(t, later, EventOf(t.outbox[id])) ==> EventOf(t.outbox[id]) in Run(t, later).log)))
  {
    UnkeyedWrites(s, entry, direct);
    var w := WriteDirect(s, entry, direct).0;
    var t := RecordOn(s, entry, id, freshKey, at, direct, queue);
    StepKeeps(w, Enqueue(id, entry, freshKey, at));
    if id in t.outbox && id !in Run(t, later).outbox { RowLeavesLogged(t, later, id); }
  }

  /**
   A keyed event is lost exactly when none of the call's statements reaches the database and it was not there before; if
   one does and the key is new, it is this very event that is kept.
   */
  lemma LostExactly(s: Store, entry: Entry, id: Uuid, key: Key, at: Instant, direct: seq<Fate>, queue: Fate)
    requires Valid(s) && entry.key == Some(key) && id !in s.issued
    ensures Accepted(RecordOn(s, entry, id, key, at, direct, queue), key) <==>
      Accepted(s, key) || Reached(direct) || queue != NOT_REACHED
    ensures var t := RecordOn(s, entry, id, key, at, direct, queue);
            !Accepted(s, key) && (Reached(direct) || queue != NOT_REACHED) ==>
              entry in t.log || (id in t.outbox && EventOf(t.outbox[id]) == entry)
  {
    if !Accepted(s, key) && Reached(direct) {
      WriteDirectReaches(s, entry, direct, key);
      FoundIsLogged(WriteDirect(s, entry, direct).0.log, key);
    }
    WriteDirectReaches(s, entry, direct, key);
    var w := WriteDirect(s, entry, direct).0;
    var t := Deliver(w, Enqueue(id, entry, key, at), queue);
    StepKeeps(w, Enqueue(id, entry, key, at));
    if !Reached(direct) && queue != NOT_REACHED && !Queued(s.outbox, key) {
      assert id in t.outbox && t.outbox[id].key == key;
    }
    if Accepted(s, key) { AcceptedLasts(s, w, key); }
    if Accepted(w, key) && queue != NOT_REACHED { AcceptedLasts(w, t, key); }
  }

  /** The losing run: three writes and the insert never arrive, and the store is as it was. */
  lemma LosingRun(s: Store, entry: Entry, id: Uuid, key: Key, at: Instant)
    requires Valid(s) && entry.key == Some(key) && !Accepted(s, key)
    ensures RecordOn(s, entry, id, key, at, [NOT_REACHED, NOT_REACHED, NOT_REACHED], NOT_REACHED) == s
    ensures !Accepted(RecordOn(s, entry, id, key, at, [NOT_REACHED, NOT_REACHED, NOT_REACHED], NOT_REACHED), key)
  {
    WriteDirectReaches(s, entry, [NOT_REACHED, NOT_REACHED, NOT_REACHED], key);
  }

  // ---------- AuditService

  type Fates = nat -> Fate

  /** What a flush reads: the oldest fifty of the rows that are due. */
  predicate OldestDue(outbox: map<Uuid, Row>, batch: seq<Uuid>, now: Instant) {
    && |batch| <= 50
    && (forall id <- batch :: id in outbox && outbox[id].nextAttemptAt < now)
    && (forall i, j :: 0 <= i < j < |batch| ==> batch[i] != batch[j])
    && (forall i, j :: 0 <= i < j < |batch| ==> outbox[batch[i]].createdAt <= outbox[batch[j]].createdAt)
    && (forall id <- outbox :: outbox[id].nextAttemptAt < now && id !in batch ==>
          |batch| == 50 && forall b <- batch :: outbox[b].createdAt <= outbox[id].createdAt)
  }

  /** In the middle of choosing: the rows chosen are the oldest, in order, and the other due ones remain. */
  predicate Chosen(outbox: map<Uuid, Row>, batch: seq<Uuid>, rest: set<Uuid>, now: Instant) {
    && |batch| <= 50
    && (forall id <- outbox :: id in rest <==> outbox[id].nextAttemptAt < now && id !in batch)
    && (forall id <- rest :: id in outbox)
    && (forall id <- batch :: id in outbox && outbox[id].nextAttemptAt < now)
    && (forall i, j :: 0 <= i < j < |batch| ==> batch[i] != batch[j])
    && (forall i, j :: 0 <= i < j < |batch| ==> outbox[batch[i]].createdAt <= outbox[batch[j]].createdAt)
    && (forall b <- batch, id <- rest :: outbox[b].createdAt <= outbox[id].createdAt)
  }

  lemma OneMoreChosen(outbox: map<Uuid, Row>, batch: seq<Uuid>, rest: set<Uuid>, now: Instant, next: Uuid)
    requires Chosen(outbox, batch, rest, now) && |batch| < 50 && next in rest
    requires forall id <- rest :: outbox[next].createdAt <= outbox[id].createdAt
    ensures Chosen(outbox, batch + [next], rest - {next}, now)
  {
  }

  /** The statements of writeDirectWithRetry that take effect: at most three attempts, up to the first answered one. */
  function Attempts(entry: Entry, fates: Fates, attempt: nat): seq<Statement>
    requires 1 <= attempt <= 4
    decreases 4 - attempt
  {
    if attempt == 4 then []
    else if fates(attempt) == ANSWERED then [Upsert(entry)]
    else (if fates(attempt) == REPLY_LOST then [Upsert(entry)] else []) + Attempts(entry, fates, attempt + 1)
  }

  lemma OneMoreAttempt(before: seq<Statement>, sent: seq<Statement>, entry: Entry, fates: Fates, attempt: nat)
    requires 1 <= attempt <= 3
    requires sent == if fates(attempt) == NOT_REACHED then before else before + [Upsert(entry)]
    ensures before + Attempts(entry, fates, attempt) ==
      if fates(attempt) == ANSWERED then sent else sent + Attempts(entry, fates, attempt + 1)
  {
  }

  /** The statements that take effect for a row: the record, and then the deletion or the postponement. */
  function RowStatements(id: Uuid, row: Row, record: Fate, last: Fate, now: Instant): seq<Statement> {
    (if record == NOT_REACHED then []
     else [Statement.Record(id, Entry(row.payload, Some(row.key)), record == ANSWERED)])
    + (if last == NOT_REACHED then []
       else if record == ANSWERED then [Delete(id)]
       else [Postpone(id, row.attempts + 1, now + Backoff(row.attempts + 1))])
  }

  lemma SentForRow(start: seq<Statement>, recorded: seq<Statement>, sent: seq<Statement>, id: Uuid, row: Row,
      record: Fate, last: Fate, now: Instant)
    requires recorded ==
      if record == NOT_REACHED then start else start + [Statement.Record(id, EventOf(row), record == ANSWERED)]
    requires sent ==
      if last == NOT_REACHED then recorded
      else if record == ANSWERED then recorded + [Delete(id)]
      else recorded + [Postpone(id, row.attempts + 1, now + Backoff(row.attempts + 1))]
    ensures sent == start + RowStatements(id, row, record, last, now)
  {
  }

  /** Row k of a batch has its record at fate 2k + 1 and what follows at fate 2k + 2. */
  function BatchStatements(
      rows: map<Uuid, Row>, batch: seq<Uuid>, fates: Fates, clock: nat -> Instant): seq<Statement>
    requires forall id <- batch :: id in rows
  {
    if batch == [] then []
    else
      var n := |batch| - 1;
      BatchStatements(rows, batch[..n], fates, clock)
      + RowStatements(batch[n], rows[batch[n]], fates(2 * n + 1), fates(2 * n + 2), clock(n))
  }

  /** The rows of a batch whose record was answered have an event in the log. */
  predicate DoneLogged(log: seq<Entry>, rows: map<Uuid, Row>, batch: seq<Uuid>, fates: Fates) {
    forall k :: 0 <= k < |batch| && fates(2 * k + 1) == ANSWERED ==>
        batch[k] in rows && Logged(log, rows[batch[k]].key)
  }

  lemma OneMoreRow(
      start: seq<Statement>, rows: map<Uuid, Row>, batch: seq<Uuid>, fates: Fates, clock: nat -> Instant, n: nat)
    requires n < |batch| && forall id <- batch :: id in rows
    ensures start + BatchStatements(rows, batch[..n + 1], fates, clock) ==
      start + BatchStatements(rows, batch[..n], fates, clock)
      + RowStatements(batch[n], rows[batch[n]], fates(2 * n + 1), fates(2 * n + 2), clock(n))
  {
    assert batch[..n + 1][..n] == batch[..n];
  }

  lemma OneMoreDone(
      before: seq<Entry>, after: seq<Entry>, rows: map<Uuid, Row>, batch: seq<Uuid>, fates: Fates, n: nat)
    requires before <= after && n < |batch| && DoneLogged(before, rows, batch[..n], fates) && batch[n] in rows
    requires fates(2 * n + 1) == ANSWERED ==> Logged(after, rows[batch[n]].key)
    ensures DoneLogged(after, rows, batch[..n + 1], fates)
  {
    forall k | 0 <= k < n && fates(2 * k + 1) == ANSWERED
      ensures batch[k] in rows && Logged(after, rows[batch[k]].key)
    {
      assert batch[..n][k] == batch[k];
      LoggedLasts(before, after, rows[batch[k]].key);
    }
  }

  /**
   One process. `history` holds every statement that took effect, `sent` this process's own ones; `fates` says what
   becomes of each statement of a call, counted from 1 (or, for the SELECT of a flush, 0).
   */
  class AuditService {
    var db: Store
    var flushing: bool
    ghost var history: seq<Statement>
    ghost var sent: seq<Statement>

    ghost predicate Consistent()
      reads this
    {
      Valid(db) && db == Run(EMPTY, history)
    }

    constructor ()
      ensures Consistent() && db == EMPTY && !flushing && history == [] && sent == []
    {
      db, flushing, history, sent := EMPTY, false, [], [];
      new;
      EmptyIsValid();
    }

    /** An await: other processes run their statements. */
    method Elsewhere()
      requires Consistent()
      modifies this`db, this`history
      ensures Consistent() && Follows(old(db), db) && old(history) <= history
    {
      var cs: seq<Statement> := *;
      RunKeeps(db, cs);
      RunConcat(EMPTY, history, cs);
      db, history := Run(db, cs), history + cs;
    }

    /** One statement: not arrived, refused by an index, run with its reply lost, or run and answered. */
    method Execute(c: Statement, fate: Fate) returns (answered: bool)
      requires Consistent() && Informed(db, c)
      modifies this`db, this`history, this`sent
      ensures Consistent() && Follows(old(db), db)
      ensures answered <==> fate == ANSWERED && !Refused(old(db), c)
      ensures if fate == NOT_REACHED || Refused(old(db), c)
              then db == old(db) && history == old(history) && sent == old(sent)
              else db == Step(old(db), c) && history == old(history) + [c] && sent == old(sent) + [c]
    {
      RunKeeps(db, []);
      StepKeeps(db, c);
      if fate == NOT_REACHED || Refused(db, c) { return false; }
      RunConcat(EMPTY, history, [c]);
      assert Run(db, [c]) == Step(db, c);
      db, history, sent := Step(db, c), history + [c], sent + [c];
      return fate == ANSWERED;
    }

    /**
     Three attempts at most, each an upsert of this very entry. The answer and the statements are settled by the fates
     alone; if one arrived, the key is in the log, with this event unless another one was logged under it.
     */
    method WriteDirectWithRetry(entry: Entry, fates: Fates) returns (ok: bool)
      requires Consistent()
      modifies this`db, this`history, this`sent
      ensures Consistent() && Follows(old(db), db) && old(history) <= history
      ensures ok <==> fates(1) == ANSWERED || fates(2) == ANSWERED || fates(3) == ANSWERED
      ensures sent == old(sent) + Attempts(entry, fates, 1)
      ensures sent != old(sent) && entry.key.Some? ==> Logged(db.log, entry.key.value) && InPlace(EMPTY, history, entry)
    {
      RunKeeps(db, []);
      for attempt := 1 to MAX_ATTEMPTS + 1
        invariant Consistent() && Follows(old(db), db) && old(history) <= history
        invariant forall k :: 1 <= k < attempt ==> fates(k) != ANSWERED
        invariant sent + Attempts(entry, fates, attempt) == old(sent) + Attempts(entry, fates, 1)
        invariant sent != old(sent) && entry.key.Some? ==> Logged(db.log, entry.key.value)
      {
        ghost var before := sent;
        ok := Attempt(entry, fates(attempt), old(db), entry.key.Some? && sent != old(sent));
        OneMoreAttempt(before, sent, entry, fates, attempt);
        if ok {
          if entry.key.Some? { LoggedIsInPlace(EMPTY, history, entry); }
          return;
        }
      }
      ok := false;
      assert sent + Attempts(entry, fates, 4) == sent;
      if sent != old(sent) && entry.key.Some? { LoggedIsInPlace(EMPTY, history, entry); }
    }

    /** One direct attempt, after whatever others did while waiting for it. */
    method Attempt(entry: Entry, fate: Fate, ghost start: Store, ghost already: bool) returns (answered: bool)
      requires Consistent() && Follows(start, db)
      requires already ==> entry.key.Some? && Logged(db.log, entry.key.value)
      modifies this`db, this`history, this`sent
      ensures Consistent() && Follows(start, db) && old(history) <= history
      ensures answered <==> fate == ANSWERED
      ensures sent == if fate == NOT_REACHED then old(sent) else old(sent) + [Upsert(entry)]
      ensures (already || fate != NOT_REACHED) && entry.key.Some? ==> Logged(db.log, entry.key.value)
    {
      ghost var waited := db;
      Elsewhere();
      FollowsTransitive(start, waited, db);
      ghost var reached := db;
      answered := Execute(Upsert(entry), fate);
      FollowsTransitive(start, reached, db);
      if entry.key.Some? {
        var key := entry.key.value;
        AddEntryKeeps(reached.log, entry, key);
        if already {
          LoggedLasts(waited.log, reached.log, key);
          LoggedLasts(reached.log, db.log, key);
        }
      }
    }

    /**
     The insert into the outbox, under a row id that the database makes up. Unless it was lost, the event is queued with
     its payload under its own key or the fresh one; only a key that is queued already is refused.
     */
    method EnqueueOutbox(entry: Entry, freshKey: Key, at: Instant, fate: Fate) returns (ok: bool, ghost id: Uuid)
      requires Consistent()
      modifies this`db, this`history, this`sent
      ensures Consistent() && Follows(old(db), db) && old(history) <= history
      ensures var key := if entry.key.Some? then entry.key.value else freshKey;
              && (fate != NOT_REACHED ==> Queued(db.outbox, key))
              && (ok ==> fate == ANSWERED)
              && (sent == old(sent)
                  || (sent == old(sent) + [Enqueue(id, entry, key, at)] && id in db.outbox
                      && db.outbox[id] == Row(entry.payload, key, at, 0, at)))
              && (fate == NOT_REACHED ==> sent == old(sent))
              && (fate == ANSWERED ==> (ok <==> sent != old(sent)))
    {
      Elsewhere();
      ghost var reached := db;
      var key := if entry.key.Some? then entry.key.value else freshKey;
      SomeFreshId(db.issued);
      var made: Uuid :| made !in db.issued;
      id := made;
      ok := Execute(Enqueue(made, entry, key, at), fate);
      FollowsTransitive(old(db), reached, db);
      if fate != NOT_REACHED && !Refused(reached, Enqueue(made, entry, key, at)) {
        assert made in db.outbox && db.outbox[made].key == key;
      }
    }

    /**
     record() returns to its caller in every case; `ok` is what only its log tells. Its statements are the attempts
     and, exactly when none of them was answered, the insert. A keyed event is accepted afterwards unless none of them
     arrived, and then this call has done nothing; if it is logged, it is this very event, unless another one was
     recorded under its key.
     */
    method Record(entry: Entry, freshKey: Key, at: Instant, fates: Fates) returns (ok: bool, ghost id: Uuid)
      requires Consistent()
      modifies this`db, this`history, this`sent
      ensures Consistent() && Follows(old(db), db) && old(history) <= history
      ensures var direct := fates(1) == ANSWERED || fates(2) == ANSWERED || fates(3) == ANSWERED;
              var key := if entry.key.Some? then entry.key.value else freshKey;
              && (ok ==> direct || fates(4) == ANSWERED)
              && (sent == old(sent) + Attempts(entry, fates, 1)
                  || (!direct && fates(4) != NOT_REACHED
                      && sent == old(sent) + Attempts(entry, fates, 1) + [Enqueue(id, entry, key, at)]))
              && (!direct && fates(4) != NOT_REACHED ==> Queued(db.outbox, key))
      ensures entry.key.Some? ==>
        && ((exists k :: 1 <= k <= 4 && fates(k) != NOT_REACHED) ==> Accepted(db, entry.key.value))
        && (Logged(db.log, entry.key.value) ==> InPlace(EMPTY, history, entry))
    {
      ok := WriteDirectWithRetry(entry, fates);
      id := 0;
      if !ok {
        ghost var tried := db;
        ok, id := EnqueueOutbox(entry, freshKey, at, fates(4));
        FollowsTransitive(old(db), tried, db);
        if sent != old(sent) && entry.key.Some? && Logged(tried.log, entry.key.value) {
          LoggedLasts(tried.log, db.log, entry.key.value);
        }
      }
      if entry.key.Some? {
        if Logged(db.log, entry.key.value) { LoggedIsInPlace(EMPTY, history, entry); }
        AttemptsArrive(entry, fates);
      }
    }

    /**
     One row of a batch: record, then delete; a failed record postpones the row by the delay of its next attempt, a
     failed delete is ignored. What is recorded is the row's own event.
     */
    method Drain(id: Uuid, row: Row, now: Instant, record: Fate, last: Fate)
      requires Consistent() && (id, EventOf(row)) in db.taken
      modifies this`db, this`history, this`sent
      ensures Consistent() && Follows(old(db), db) && old(history) <= history
      ensures record == ANSWERED ==> Logged(db.log, row.key) && (last != NOT_REACHED ==> id !in db.outbox)
      ensures record != ANSWERED && last != NOT_REACHED && id in db.outbox ==>
        && db.outbox[id].attempts == row.attempts + 1
        && db.outbox[id].nextAttemptAt == now + Backoff(row.attempts + 1)
      ensures sent == old(sent) + RowStatements(id, row, record, last, now)
    {
      ghost var start := db;
      var ok := RecordRow(id, row, record);
      ghost var recorded, tried := sent, db;
      Elsewhere();
      FollowsTransitive(start, tried, db);
      if ok { LoggedLasts(tried.log, db.log, row.key); }
      ghost var waited := db;
      if ok {
        var _ := Execute(Delete(id), last);
        LoggedLasts(waited.log, db.log, row.key);
      } else {
        var _ := Execute(Postpone(id, row.attempts + 1, now + Backoff(row.attempts + 1)), last);
      }
      FollowsTransitive(start, waited, db);
      SentForRow(old(sent), recorded, sent, id, row, record, last, now);
    }

    /** The upsert of a row's own event: its process learns that it is recorded only from an answer. */
    method RecordRow(id: Uuid, row: Row, record: Fate) returns (ok: bool)
      requires Consistent() && (id, EventOf(row)) in db.taken
      modifies this`db, this`history, this`sent
      ensures Consistent() && Follows(old(db), db) && old(history) <= history
      ensures ok <==> record == ANSWERED
      ensures ok ==> id in db.recorded && Logged(db.log, row.key)
      ensures sent ==
        if record == NOT_REACHED then old(sent)
        else old(sent) + [Statement.Record(id, Entry(row.payload, Some(row.key)), record == ANSWERED)]
    {
      ghost var start := db;
      Elsewhere();
      ghost var reached := db;
      AddEntryKeeps(db.log, EventOf(row), row.key);
      ok := Execute(Statement.Record(id, EventOf(row), record == ANSWERED), record);
      FollowsTransitive(start, reached, db);
    }

    /**
     The SELECT of a flush, as the database runs it: the oldest row that is due and not yet chosen, fifty times at most.
     */
    method SelectDue(now: Instant) returns (batch: seq<Uuid>)
      requires Valid(db)
      ensures OldestDue(db.outbox, batch, now)
    {
      batch := [];
      var rest := set id <- db.outbox | db.outbox[id].nextAttemptAt < now;
      while |batch| < OUTBOX_BATCH && rest != {}
        invariant Chosen(db.outbox, batch, rest, now)
        decreases |rest|
      {
        SomeOldest(db.outbox, rest);
        var next :| next in rest && forall id <- rest :: db.outbox[next].createdAt <= db.outbox[id].createdAt;
        OneMoreChosen(db.outbox, batch, rest, now, next);
        batch, rest := batch + [next], rest - {next};
      }
    }

    /**
     flushOutbox(): at most one flush per process at a time, over the oldest fifty rows that are due when they are read
     (`read`), if they can be read. Nothing accepted is dropped; every row whose record is answered is in the log, and
     the statements are each row's own.
     */
    method FlushOutbox(now: Instant, clock: nat -> Instant, fates: Fates)
      returns (ghost read: Store, ghost batch: seq<Uuid>)
      requires Consistent()
      modifies this
      ensures Consistent() && Follows(old(db), db) && old(history) <= history && flushing == old(flushing)
      ensures old(flushing) ==> batch == [] && db == old(db) && sent == old(sent)
      ensures old(flushing) || fates(0) != ANSWERED ==> batch == []
      ensures !old(flushing) && fates(0) == ANSWERED ==> OldestDue(read.outbox, batch, now)
      ensures Follows(old(db), read) && Follows(read, db)
      ensures forall id <- batch :: id in read.outbox
      ensures DoneLogged(db.log, read.outbox, batch, fates)
      ensures sent == old(sent) + BatchStatements(read.outbox, batch, fates, clock)
    {
      RunKeeps(db, []);
      read, batch := db, [];
      if flushing { return; }
      flushing := true;
      Elsewhere();
      read := db;
      RunKeeps(db, []);
      if fates(0) == ANSWERED {
        var rows := SelectDue(now);
        batch := rows;
        DrainAll(rows, clock, fates);
        FollowsTransitive(old(db), read, db);
      }
      flushing := false;
    }

    method DrainAll(batch: seq<Uuid>, clock: nat -> Instant, fates: Fates)
      requires Consistent() && forall id <- batch :: id in db.outbox
      modifies this`db, this`history, this`sent
      ensures Consistent() && Follows(old(db), db) && old(history) <= history
      ensures DoneLogged(db.log, old(db).outbox, batch, fates)
      ensures sent == old(sent) + BatchStatements(old(db).outbox, batch, fates, clock)
    {
      var rows := db.outbox;
      StepKeeps(db, Take(set id <- batch));
      RunConcat(EMPTY, history, [Take(set id <- batch)]);
      assert Run(db, [Take(set id <- batch)]) == Step(db, Take(set id <- batch));
      db, history := Step(db, Take(set id <- batch)), history + [Take(set id <- batch)];
      for i := 0 to |batch|
        invariant Consistent() && Follows(old(db), db) && old(history) <= history
        invariant forall k :: 0 <= k < |batch| ==> (batch[k], EventOf(rows[batch[k]])) in db.taken
        invariant DoneLogged(db.log, rows, batch[..i], fates)
        invariant sent == old(sent) + BatchStatements(rows, batch[..i], fates, clock)
      {
        ghost var before := db;
        OneMoreRow(old(sent), rows, batch, fates, clock, i);
        Drain(batch[i], rows[batch[i]], clock(i), fates(2 * i + 1), fates(2 * i + 2));
        FollowsTransitive(old(db), before, db);
        OneMoreDone(before.log, db.log, rows, batch, fates, i);
      }
      assert batch[..|batch|] == batch;
    }
  }

  /** Attempts took effect exactly when one of the three arrived. */
  lemma AttemptsArrive(entry: Entry, fates: Fates)
    ensures Attempts(entry, fates, 1) == [] <==>
      fates(1) == NOT_REACHED && fates(2) == NOT_REACHED && fates(3) == NOT_REACHED
  {
    assert Attempts(entry, fates, 4) == [];
    assert Attempts(entry, fates, 3) == [] <==> fates(3) == NOT_REACHED;
    assert Attempts(entry, fates, 2) == [] <==> fates(2) == NOT_REACHED && fates(3) == NOT_REACHED;
  }

  /** gen_random_uuid() can always make up an id that was not used yet. */
  lemma {:induction false} SomeFreshId(ids: set<Uuid>)
    ensures exists id: Uuid :: id !in ids
  {
    var n := BoundOf(ids);
    assert n !in ids;
  }

  lemma {:induction false} BoundOf(ids: set<Uuid>) returns (n: nat)
    ensures forall id <- ids :: id < n
    decreases |ids|
  {
    if ids == {} {
      n := 0;
    } else {
      var a :| a in ids;
      var m := BoundOf(ids - {a});
      n := if a < m then m else a + 1;
      forall id | id in ids ensures id < n {
        assert id == a || id in ids - {a};
      }
    }
  }

  /** ORDER BY created_at: some row is the oldest. */
  lemma {:induction false} SomeOldest(outbox: map<Uuid, Row>, ids: set<Uuid>)
    requires ids != {} && forall id <- ids :: id in outbox
    ensures exists a :: a in ids && forall b <- ids :: outbox[a].createdAt <= outbox[b].createdAt
    decreases |ids|
  {
    var a :| a in ids;
    var rest := ids - {a};
    if rest == {} {
      assert ids == {a};
    } else {
      SomeOldest(outbox, rest);
      var b :| b in rest && forall c <- rest :: outbox[b].createdAt <= outbox[c].createdAt;
      var m := if outbox[a].createdAt <= outbox[b].createdAt then a else b;
      assert m in ids && forall c <- ids :: outbox[m].createdAt <= outbox[c].createdAt;
    }
  }

  function Power3(n: nat): nat {
    if n == 0 then 1 else 3 * Power3(n - 1)
  }

  /** Five seconds, three times as long each time, at most five minutes. */
  function Backoff(attempt: nat): int
    requires attempt >= 1
  {
    1000 * (if 5 * Power3(attempt - 1) < 300 then 5 * Power3(attempt - 1) else 300)
  }

  /** The delay never shrinks, starts at five seconds, and is five minutes from the fifth failure on. */
  lemma BackoffGrows(attempt: nat)
    requires attempt >= 1
    ensures 5_000 <= Backoff(attempt) <= Backoff(attempt + 1) <= 300_000
    ensures Backoff(attempt) == 300_000 <==> attempt >= 5
  {
    PowersGrow(attempt - 1);
  }

  /** Five, fifteen, forty-five and one hundred and thirty-five seconds, and then always three hundred. */
  lemma BackoffTable(attempt: nat)
    requires attempt >= 1
    ensures Backoff(1) == 5_000 && Backoff(2) == 15_000 && Backoff(3) == 45_000 && Backoff(4) == 135_000
    ensures attempt >= 5 ==> Backoff(attempt) == 300_000
  {
    assert Power3(1) == 3 && Power3(2) == 9 && Power3(3) == 27;
    PowersGrow(attempt - 1);
  }

  lemma {:induction false} PowersGrow(n: nat)
    ensures Power3(n) >= 1 && (n >= 4 ==> Power3(n) >= 81) && (n <= 3 ==> Power3(n) <= 27)
  {
    if n > 0 { PowersGrow(n - 1); }
  }
}
