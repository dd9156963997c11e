/** The Linux timer queue: a map from reusable 32-bit keys to pending events,
    filled by addEvent, emptied by type with cancelEvent, and by key when a timer
    signal arrives.  An event is identified by the order in which it was added. */
module TimerQueue {
  import opened MachineInts

  const KEYS: int := 0x1_0000_0000
  type Key = k: int | -0x8000_0000 <= k < 0x8000_0000

  datatype Kind =
    | StateChange | SyncInterval | PDelayInterval | SyncReceipt | AnnounceReceipt
    | AnnounceInterval | PDelayDeferred | PDelayRespReceipt | PeerMisbehaving | SyncRate

  datatype Entry = Entry(id: nat, kind: Kind)

  /** The queue and the history of what left it. */
  datatype Queue = Queue(pending: map<Key, Entry>, key: Key, added: nat, fired: seq<nat>, cancelled: set<nat>)

  const EMPTY: Queue := Queue(map[], 0, 0, [], {})

  /** n increments of a wrapping 32-bit key. */
  function Advance(k: Key, n: nat): Key { (k + n + 0x8000_0000) % KEYS - 0x8000_0000 }

  // ---- the key search ------------------------------------------------------

  ghost predicate AllTaken(pending: map<Key, Entry>, from: Key, n: nat) {
    forall j: nat :: j < n ==> Advance(from, j) in pending
  }

  ghost predicate NextFree(pending: map<Key, Entry>, from: Key, k: Key) {
    k !in pending && exists n: nat :: n < KEYS && k == Advance(from, n) && AllTaken(pending, from, n)
  }

  lemma AdvanceInjective(k: Key, i: nat, j: nat)
    requires i < j < KEYS
    ensures Advance(k, i) != Advance(k, j)
  {
    var a := k + 0x8000_0000;
    assert (a + i) % KEYS == if a + i < KEYS then a + i else a + i - KEYS;
    assert (a + j) % KEYS == if a + j < KEYS then a + j else a + j - KEYS;
  }

  /** n consecutive taken keys need n entries. */
  lemma {:induction false} TakenBound(pending: map<Key, Entry>, from: Key, n: nat) returns (keys: set<Key>)
    requires n <= KEYS && AllTaken(pending, from, n)
    ensures keys == (set j: nat | j < n :: Advance(from, j)) && |keys| == n <= |pending|
    decreases n
  {
    if n == 0 {
      keys := {};
    } else {
      var rest := TakenBound(pending, from, n - 1);
      var k := Advance(from, n - 1);
      forall j: nat | j < n - 1
        ensures Advance(from, j) != k
      {
        AdvanceInjective(from, j, n - 1);
      }
      keys := rest + {k};
      assert keys <= pending.Keys;
      SubsetSize(keys, pending.Keys);
    }
  }

  lemma {:induction false} SubsetSize<T>(a: set<T>, b: set<T>)
    requires a <= b
    ensures |a| <= |b|
    decreases |a|
  {
    if a == {} {
    } else {
      var x :| x in a;
      SubsetSize(a - {x}, b - {x});
    }
  }

  lemma AdvanceOne(from: Key, n: nat)
    ensures Advance(Advance(from, n), 1) == Advance(from, n + 1)
  {
    var x := from + n + 0x8000_0000;
    assert (x % KEYS + 1) % KEYS == (x + 1) % KEYS;
  }

  lemma NextFreeUnique(pending: map<Key, Entry>, from: Key, a: Key, b: Key)
    requires NextFree(pending, from, a) && NextFree(pending, from, b)
    ensures a == b
  {
    var i: nat :| i < KEYS && a == Advance(from, i) && AllTaken(pending, from, i);
    var j: nat :| j < KEYS && b == Advance(from, j) && AllTaken(pending, from, j);
    assert !(i < j) && !(j < i);
  }

  /** The loop that steps the key past taken ones; it ends on a free key as long
      as one exists, however often the 32-bit counter has wrapped. */
  method FindKey(pending: map<Key, Entry>, from: Key) returns (key: Key)
    requires |pending| < KEYS
    ensures NextFree(pending, from, key)
  {
    key := from;
    ghost var n: nat := 0;
    while key in pending
      invariant n <= |pending| && key == Advance(from, n) && AllTaken(pending, from, n)
      decreases |pending| - n
    {
      AdvanceOne(from, n);
      key := Advance(key, 1);
      n := n + 1;
      assert AllTaken(pending, from, n);
      var keys := TakenBound(pending, from, n);
    }
  }

  /** The same key as a function. */
  function FreeKey(pending: map<Key, Entry>, from: Key, n: nat): (key: Key)
    requires |pending| < KEYS && n < KEYS && AllTaken(pending, from, n)
    ensures NextFree(pending, from, key)
    decreases KEYS - n
  {
    if Advance(from, n) !in pending then Advance(from, n)
    else
      assert AllTaken(pending, from, n + 1);
      assert n + 1 < KEYS by { var keys := TakenBound(pending, from, n + 1); }
      FreeKey(pending, from, n + 1)
  }

  // ---- the operations --------------------------------------------------------

  predicate HasRoom(q: Queue) { |q.pending| < KEYS }

  function Add(q: Queue, kind: Kind): Queue
    requires HasRoom(q)
  {
    var k := FreeKey(q.pending, q.key, 0);
    q.(pending := q.pending[k := Entry(q.added, kind)], key := k, added := q.added + 1)
  }

  function OfKind(q: Queue, kind: Kind): set<Key> {
    set k | k in q.pending && q.pending[k].kind == kind
  }

  function IdsOf(pending: map<Key, Entry>, keys: set<Key>): set<nat> {
    set k | k in keys && k in pending :: pending[k].id
  }

  lemma IdsOfAdd(pending: map<Key, Entry>, keys: set<Key>, k: Key)
    requires k in pending
    ensures IdsOf(pending, keys + {k}) == IdsOf(pending, keys) + {pending[k].id}
  {
    assert k in keys + {k};
  }

  function Ids(pending: map<Key, Entry>): set<nat> { IdsOf(pending, pending.Keys) }

  function Cancel(q: Queue, kind: Kind): Queue {
    var gone := OfKind(q, kind);
    q.(pending := q.pending - gone, cancelled := q.cancelled + IdsOf(q.pending, gone))
  }

  /** A signal for a key: the entry, if still there, is erased before its callback runs. */
  function Expire(q: Queue, k: Key): Queue {
    if k in q.pending then q.(pending := q.pending - {k}, fired := q.fired + [q.pending[k].id]) else q
  }

  /** A cancellation sweep that still has to look at the keys in todo. */
  ghost predicate Swept(q: Queue, kind: Kind, todo: set<Key>, kept: map<Key, Entry>, dropped: set<nat>) {
    kept == q.pending - (OfKind(q, kind) - todo) && dropped == IdsOf(q.pending, OfKind(q, kind) - todo)
  }

  lemma SweepOne(q: Queue, kind: Kind, todo: set<Key>, kept: map<Key, Entry>, dropped: set<nat>, k: Key)
    requires Swept(q, kind, todo, kept, dropped) && k in todo && todo <= q.pending.Keys
    ensures k in kept && kept[k] == q.pending[k]
    ensures if kept[k].kind == kind then Swept(q, kind, todo - {k}, kept - {k}, dropped + {kept[k].id})
            else Swept(q, kind, todo - {k}, kept, dropped)
  {
    var gone, gone' := OfKind(q, kind) - todo, OfKind(q, kind) - (todo - {k});
    assert gone' == if q.pending[k].kind == kind then gone + {k} else gone;
    IdsOfAdd(q.pending, gone, k);
  }

  class LinuxTimerQueue {
    var pending: map<Key, Entry>
    var key: Key
    var added: nat
    ghost var fired: seq<nat>
    ghost var cancelled: set<nat>

    ghost function View(): Queue
      reads this
    {
      Queue(pending, key, added, fired, cancelled)
    }

    constructor ()
      ensures View() == EMPTY
    {
      pending, key, added := map[], 0, 0;
      fired, cancelled := [], {};
    }

    method AddEvent(kind: Kind)
      requires HasRoom(View())
      modifies this
      ensures View() == Add(old(View()), kind)
    {
      var k := FindKey(pending, key);
      NextFreeUnique(pending, key, k, FreeKey(pending, key, 0));
      key := k;
      pending := pending[k := Entry(added, kind)];
      added := added + 1;
    }

    method CancelEvent(kind: Kind)
      modifies this
      ensures View() == Cancel(old(View()), kind)
    {
      var todo, kept := pending.Keys, pending;
      ghost var dropped: set<nat> := {};
      while todo != {}
        invariant View() == old(View())
        invariant todo <= pending.Keys && Swept(View(), kind, todo, kept, dropped)
        decreases |todo|
      {
        var k :| k in todo;
        SweepOne(View(), kind, todo, kept, dropped, k);
        todo := todo - {k};
        if kept[k].kind == kind {
          dropped := dropped + {kept[k].id};
          kept := kept - {k};
        }
      }
      assert OfKind(View(), kind) - {} == OfKind(View(), kind);
      pending, cancelled := kept, cancelled + dropped;
    }

    /** The handler's part under the queue lock; the caller then runs the callback. */
    method TakeExpired(k: Key) returns (found: bool)
      modifies this
      ensures View() == Expire(old(View()), k) && (found <==> k in old(pending))
    {
      found := k in pending;
      if found {
        fired := fired + [pending[k].id];
        pending := pending - {k};
      }
    }
  }

  // ---- conservation -----------------------------------------------------------

  ghost predicate Distinct(s: seq<nat>) { forall i, j :: 0 <= i < j < |s| ==> s[i] != s[j] }

  /** Every event ever added is pending, fired or cancelled, exactly one of the three and once. */
  ghost predicate Conserved(q: Queue) {
    UniqueIds(q.pending) && Partition(q.added, q.fired, q.cancelled, Ids(q.pending))
  }

  ghost predicate UniqueIds(pending: map<Key, Entry>) {
    forall k, l :: k in pending && l in pending && k != l ==> pending[k].id != pending[l].id
  }

  ghost predicate Partition(added: nat, fired: seq<nat>, cancelled: set<nat>, ids: set<nat>) {
    && Distinct(fired)
    && (forall i :: i in fired ==> i !in cancelled && i !in ids)
    && ids !! cancelled
    && (forall i: nat :: i < added <==> i in fired || i in cancelled || i in ids)
  }

  lemma PartitionAdd(added: nat, fired: seq<nat>, cancelled: set<nat>, ids: set<nat>)
    requires Partition(added, fired, cancelled, ids)
    ensures Partition(added + 1, fired, cancelled, ids + {added})
  {
  }

  lemma IdsBelow(q: Queue)
    requires Conserved(q)
    ensures q.added !in Ids(q.pending) && forall k :: k in q.pending ==> q.pending[k].id < q.added
  {
    forall k | k in q.pending
      ensures q.pending[k].id < q.added
    {
      assert q.pending[k].id in Ids(q.pending);
    }
  }

  lemma IdsAfterAdd(pending: map<Key, Entry>, k: Key, e: Entry)
    requires k !in pending
    ensures Ids(pending[k := e]) == Ids(pending) + {e.id}
  {
    var after := pending[k := e];
    assert after[k].id == e.id;
    forall l | l in pending
      ensures pending[l].id in Ids(after)
    {
      assert after[l] == pending[l];
    }
  }

  lemma AddsUnique(pending: map<Key, Entry>, k: Key, e: Entry)
    requires UniqueIds(pending) && k !in pending && e.id !in Ids(pending)
    ensures UniqueIds(pending[k := e])
  {
    assert forall l :: l in pending ==> pending[l].id in Ids(pending);
  }

  lemma AddConserves(q: Queue, kind: Kind)
    requires Conserved(q) && HasRoom(q)
    ensures Conserved(Add(q, kind))
  {
    var q' := Add(q, kind);
    IdsBelow(q);
    AddsUnique(q.pending, q'.key, Entry(q.added, kind));
    PartitionAdd(q.added, q.fired, q.cancelled, Ids(q.pending));
    IdsAfterAdd(q.pending, q'.key, Entry(q.added, kind));
  }

  lemma CancelConserves(q: Queue, kind: Kind)
    requires Conserved(q)
    ensures Conserved(Cancel(q, kind))
  {
    var q' := Cancel(q, kind);
    var gone := IdsOf(q.pending, OfKind(q, kind));
    forall i | i in Ids(q.pending)
      ensures i in Ids(q'.pending) <==> i !in gone
    {
      var k :| k in q.pending && q.pending[k].id == i;
      if i in gone {
        var l :| l in OfKind(q, kind) && q.pending[l].id == i;
      } else {
        assert k in q'.pending;
      }
    }
    forall i | i in Ids(q'.pending) || i in gone
      ensures i in Ids(q.pending)
    {
    }
  }

  lemma ExpireConserves(q: Queue, k: Key)
    requires Conserved(q)
    ensures Conserved(Expire(q, k))
  {
    if k in q.pending {
      var q' := Expire(q, k);
      assert q.pending[k].id in Ids(q.pending);
      assert forall i :: i in q'.fired <==> i in q.fired || i == q.pending[k].id;
      assert Ids(q'.pending) == Ids(q.pending) - {q.pending[k].id} by {
        forall l | l in q.pending && l != k
          ensures q.pending[l].id in Ids(q'.pending)
        {
          assert q'.pending[l] == q.pending[l];
        }
      }
    }
  }

  lemma {:induction false} SeqSize(s: seq<nat>) returns (elems: set<nat>)
    requires Distinct(s)
    ensures |elems| == |s| && forall i :: i in elems <==> i in s
    decreases |s|
  {
    if s == [] {
      elems := {};
    } else {
      var rest := SeqSize(s[1..]);
      elems := rest + {s[0]};
      assert s == [s[0]] + s[1..];
    }
  }

  lemma {:induction false} IdsSize(pending: map<Key, Entry>, keys: set<Key>)
    requires keys <= pending.Keys
    requires forall k, l :: k in pending && l in pending && k != l ==> pending[k].id != pending[l].id
    ensures |IdsOf(pending, keys)| == |keys|
    decreases |keys|
  {
    if keys == {} {
    } else {
      var k :| k in keys;
      IdsSize(pending, keys - {k});
      IdsOfAdd(pending, keys - {k}, k);
      assert keys - {k} + {k} == keys;
      assert pending[k].id !in IdsOf(pending, keys - {k});
    }
  }

  lemma {:induction false} Below(n: nat) returns (s: set<nat>)
    ensures |s| == n && forall i: nat :: i in s <==> i < n
  {
    if n == 0 {
      s := {};
    } else {
      var r := Below(n - 1);
      s := r + {n - 1};
    }
  }

  /** Three disjoint sets that together are the numbers below n. */
  lemma PartitionSize(x: set<nat>, y: set<nat>, z: set<nat>, n: nat)
    requires x !! y && x !! z && y !! z && forall i: nat :: i < n <==> i in x || i in y || i in z
    ensures n == |x| + |y| + |z|
  {
    var all := Below(n);
    assert all == x + y + z;
  }

  /** The count form: added = pending + fired + cancelled. */
  lemma ConservedCounts(q: Queue)
    requires Conserved(q)
    ensures q.added == |q.pending| + |q.fired| + |q.cancelled|
  {
    var fired := SeqSize(q.fired);
    IdsSize(q.pending, q.pending.Keys);
    PartitionSize(Ids(q.pending), fired, q.cancelled, q.added);
  }

  // ---- runs ---------------------------------------------------------------------

  /** Kinds that are only ever scheduled by a cancel-then-add under their own lock. */
  predicate Guarded(kind: Kind) { kind in {PDelayInterval, SyncReceipt, AnnounceInterval} }

  /** A callback's own calls appear as the events after its Expire. */
  datatype Event =
    | Schedule(kind: Kind) | Drop(kind: Kind) | Signal(key: Key)
    | BeginRestart(kind: Kind) | EndRestart(kind: Kind)

  datatype System = System(q: Queue, restarting: set<Kind>)

  predicate Enabled(s: System, e: Event) {
    match e
    case Schedule(kind) => !Guarded(kind) && HasRoom(s.q)
    case BeginRestart(kind) => Guarded(kind) && kind !in s.restarting
    case EndRestart(kind) => kind in s.restarting && HasRoom(s.q)
    case _ => true
  }

  function Next(s: System, e: Event): System
    requires Enabled(s, e)
  {
    match e
    case Schedule(kind) => s.(q := Add(s.q, kind))
    case Drop(kind) => s.(q := Cancel(s.q, kind))
    case Signal(k) => s.(q := Expire(s.q, k))
    case BeginRestart(kind) => System(Cancel(s.q, kind), s.restarting + {kind})
    case EndRestart(kind) => System(Add(s.q, kind), s.restarting - {kind})
  }

  predicate Runs(s: System, es: seq<Event>)
    decreases |es|
  {
    es != [] ==> Enabled(s, es[0]) && Runs(Next(s, es[0]), es[1..])
  }

  function After(s: System, es: seq<Event>): System
    requires Runs(s, es)
    decreases |es|
  {
    if es == [] then s else After(Next(s, es[0]), es[1..])
  }

  ghost predicate AtMostOne(q: Queue, kind: Kind) {
    forall k, l :: k in OfKind(q, kind) && l in OfKind(q, kind) ==> k == l
  }

  /** The kinds restarted under a lock, whatever else is in the queue. */
  ghost predicate Single(q: Queue, restarting: set<Kind>) {
    && (forall kind :: Guarded(kind) ==> AtMostOne(q, kind))
    && (forall kind :: kind in restarting ==> Guarded(kind) && OfKind(q, kind) == {})
  }

  ghost predicate Invariant(s: System) { Conserved(s.q) && Single(s.q, s.restarting) }

  lemma KindsAfter(q: Queue, kind: Kind)
    ensures HasRoom(q) ==>
              forall other :: OfKind(Add(q, kind), other)
                           == OfKind(q, other) + if other == kind then {Add(q, kind).key} else {}
    ensures forall other :: OfKind(Cancel(q, kind), other) == if other == kind then {} else OfKind(q, other)
  {
  }

  lemma AddKeeps(q: Queue, restarting: set<Kind>, kind: Kind)
    requires Single(q, restarting) && HasRoom(q) && (Guarded(kind) ==> kind in restarting)
    ensures Single(Add(q, kind), restarting - {kind})
  {
    KindsAfter(q, kind);
  }

  lemma CancelKeeps(q: Queue, restarting: set<Kind>, kind: Kind)
    requires Single(q, restarting)
    ensures Single(Cancel(q, kind), restarting) && OfKind(Cancel(q, kind), kind) == {}
  {
    KindsAfter(q, kind);
  }

  lemma ExpireKeeps(q: Queue, restarting: set<Kind>, k: Key)
    requires Single(q, restarting)
    ensures Single(Expire(q, k), restarting)
  {
    assert forall kind :: OfKind(Expire(q, k), kind) <= OfKind(q, kind);
  }

  lemma StepKeeps(s: System, e: Event)
    requires Invariant(s) && Enabled(s, e)
    ensures Invariant(Next(s, e))
    ensures Fates(s.q, Next(s, e).q)
  {
    match e {
      case Schedule(kind) =>
        AddConserves(s.q, kind);
        AddKeeps(s.q, s.restarting, kind);
        assert kind !in s.restarting;
      case Drop(kind) =>
        CancelConserves(s.q, kind);
        CancelKeeps(s.q, s.restarting, kind);
      case Signal(k) =>
        ExpireConserves(s.q, k);
        ExpireKeeps(s.q, s.restarting, k);
      case BeginRestart(kind) =>
        CancelConserves(s.q, kind);
        CancelKeeps(s.q, s.restarting, kind);
      case EndRestart(kind) =>
        AddConserves(s.q, kind);
        AddKeeps(s.q, s.restarting, kind);
    }
  }

  /** What happened to an event is never undone or redone. */
  ghost predicate Fates(before: Queue, after: Queue) {
    && before.fired <= after.fired && before.cancelled <= after.cancelled && before.added <= after.added
  }

  /** Over every run of any length, from the empty queue or any good state, events
      are conserved, what happened to an event stays as it was, and no guarded kind
      is ever pending twice. */
  lemma {:induction false} RunKeeps(s: System, es: seq<Event>)
    requires Invariant(s) && Runs(s, es)
    ensures Invariant(After(s, es))
    ensures Fates(s.q, After(s, es).q)
    ensures var q := After(s, es).q; q.added == |q.pending| + |q.fired| + |q.cancelled|
    decreases |es|
  {
    if es == [] {
      ConservedCounts(s.q);
    } else {
      StepKeeps(s, es[0]);
      RunKeeps(Next(s, es[0]), es[1..]);
    }
  }
}
