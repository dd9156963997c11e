/** The network lock: a ticket lock whose two counters are 8 bits wide and wrap.
    Each mutex-protected section of lock() and unlock() is one atomic step; the
    condition wait splits a blocking lock into taking a ticket and re-checking it
    after each wake-up. */
module TicketLock {
  import opened MachineInts

  function Up(x: uint8): uint8 { (x + 1) % TWO_8 }
  function Down(x: uint8): uint8 { (x - 1) % TWO_8 }

  datatype Counters = Counters(issue: uint8, serving: uint8) {
    function Taken(): Counters { Counters(Up(issue), serving) }
    function GivenBack(): Counters { Counters(Down(issue), serving) }
    function Released(): Counters { Counters(issue, Up(serving)) }
  }

  /** What a caller that took a ticket sees after being woken i times. */
  function Seen(before: Counters, wakes: seq<Counters>, i: nat): Counters
    requires i <= |wakes|
  {
    if i == 0 then before.Taken() else wakes[i - 1]
  }

  class TicketingLock {
    var issue: uint8
    var serving: uint8

    function View(): Counters
      reads this
    {
      Counters(issue, serving)
    }

    constructor ()
      ensures View() == Counters(0, 0)
    {
      issue, serving := 0, 0;
    }

    /** First section of a blocking lock: take a ticket and compare it once. */
    method Take() returns (ticket: uint8, served: bool)
      modifies this
      ensures ticket == old(issue) && View() == old(View()).Taken()
      ensures served <==> ticket == serving
    {
      ticket := issue;
      issue := Up(issue);
      served := ticket == serving;
    }

    /** The non-blocking form: hand the ticket back when it is not served. */
    method TryLock() returns (got: bool)
      modifies this
      ensures got <==> old(issue == serving)
      ensures View() == if got then old(View()).Taken() else old(View())
    {
      var ticket := issue;
      issue := Up(issue);
      if ticket != serving {
        issue := Down(issue);
        return false;
      }
      got := true;
    }

    /** The blocking form.  Each wake-up finds the counters as the other threads left
        them; the caller sleeps on exactly while its own ticket is not served, and holds
        the lock if it is served before the wake-ups run out. */
    method Lock(wakes: seq<Counters>) returns (ticket: uint8, slept: nat, got: bool)
      modifies this
      ensures ticket == old(issue) && slept <= |wakes|
      ensures View() == Seen(old(View()), wakes, slept)
      ensures forall i :: 0 <= i < slept ==> Seen(old(View()), wakes, i).serving != ticket
      ensures got <==> serving == ticket
      ensures got || slept == |wakes|
    {
      var served;
      ticket, served := Take();
      slept := 0;
      while ticket != serving && slept < |wakes|
        invariant slept <= |wakes| && View() == Seen(old(View()), wakes, slept)
        invariant forall i :: 0 <= i < slept ==> Seen(old(View()), wakes, i).serving != ticket
        decreases |wakes| - slept
      {
        issue, serving := wakes[slept].issue, wakes[slept].serving;
        slept := slept + 1;
      }
      got := ticket == serving;
    }

    method Unlock()
      modifies this
      ensures View() == old(View()).Released()
    {
      serving := Up(serving);
    }
  }

  // ---- any number of threads, any interleaving of the sections ------------

  type Thread = nat
  datatype Phase = Idle | Waiting(ticket: uint8) | Holding
  datatype System = System(lock: Counters, phase: map<Thread, Phase>)
  datatype Event = Lock(t: Thread) | Try(t: Thread) | Wake(t: Thread) | Unlock(t: Thread)

  function Start(threads: set<Thread>): System {
    System(Counters(0, 0), map t | t in threads :: Idle)
  }

  /** A thread calls lock only when it holds no ticket, unlock only when it holds the lock. */
  predicate Enabled(s: System, e: Event) {
    && e.t in s.phase
    && match e
       case Lock(t) => s.phase[t] == Idle
       case Try(t) => s.phase[t] == Idle
       case Wake(t) => s.phase[t].Waiting?
       case Unlock(t) => s.phase[t] == Holding
  }

  function Granted(ticket: uint8, serving: uint8): Phase {
    if ticket == serving then Holding else Waiting(ticket)
  }

  function Next(s: System, e: Event): System
    requires Enabled(s, e)
  {
    var Counters(issue, serving) := s.lock;
    match e
    case Lock(t) => System(s.lock.Taken(), s.phase[t := Granted(issue, serving)])
    case Try(t) =>
      if issue == serving then System(s.lock.Taken(), s.phase[t := Holding])
      else System(s.lock.Taken().GivenBack(), s.phase)
    case Wake(t) => System(s.lock, s.phase[t := Granted(s.phase[t].ticket, serving)])
    case Unlock(t) => System(s.lock.Released(), s.phase[t := Idle])
  }

  predicate Runs(threads: set<Thread>, es: seq<Event>)
    decreases |es|, 0
  {
    es == [] || (Runs(threads, es[..|es| - 1]) && Enabled(After(threads, es[..|es| - 1]), es[|es| - 1]))
  }

  function After(threads: set<Thread>, es: seq<Event>): System
    requires Runs(threads, es)
    decreases |es|, 1
  {
    if es == [] then Start(threads) else Next(After(threads, es[..|es| - 1]), es[|es| - 1])
  }

  /** Threads in the order in which they got a ticket they kept. */
  function Arrivals(threads: set<Thread>, es: seq<Event>): seq<Thread>
    requires Runs(threads, es)
  {
    if es == [] then []
    else
      var before, e := Arrivals(threads, es[..|es| - 1]), es[|es| - 1];
      if e.Lock? || (e.Try? && After(threads, es).phase[e.t] == Holding) then before + [e.t] else before
  }

  /** Threads in the order in which they came to hold the lock. */
  function Grants(threads: set<Thread>, es: seq<Event>): seq<Thread>
    requires Runs(threads, es)
  {
    if es == [] then []
    else
      var before, e := Grants(threads, es[..|es| - 1]), es[|es| - 1];
      if !e.Unlock? && After(threads, es).phase[e.t] == Holding then before + [e.t] else before
  }

  // ---- the unbounded first-in-first-out queue it refines -------------------

  /** Everyone who ever queued, in order: a thread's unbounded ticket is its index.
      The first left of them are gone, and held tells whether the next is let in. */
  datatype Fifo = Fifo(arrived: seq<Thread>, left: nat, held: bool) {
    ghost predicate Ok() { left <= |arrived| && (held ==> left < |arrived|) }
    ghost predicate Queues(t: Thread) { exists j :: left <= j < |arrived| && arrived[j] == t }
    ghost predicate Holder(t: Thread) { held && left < |arrived| && arrived[left] == t }
    ghost function Let(): seq<Thread>
      requires Ok()
    {
      arrived[..left + if held then 1 else 0]
    }
  }

  ghost function FifoNext(f: Fifo, e: Event): (r: Fifo)
    requires f.Ok()
    ensures r.Ok()
  {
    var empty := f.left == |f.arrived|;
    match e
    case Lock(t) => Fifo(f.arrived + [t], f.left, f.held || empty)
    case Try(t) => if empty then Fifo(f.arrived + [t], f.left, true) else f
    case Wake(t) => if !empty && f.arrived[f.left] == t then f.(held := true) else f
    case Unlock(t) => if f.held then Fifo(f.arrived, f.left + 1, false) else f
  }

  ghost function FifoAfter(es: seq<Event>): (r: Fifo)
    ensures r.Ok()
  {
    if es == [] then Fifo([], 0, false) else FifoNext(FifoAfter(es[..|es| - 1]), es[|es| - 1])
  }

  /** The 8-bit counters are the unbounded ones modulo 256. */
  ghost predicate Represents(s: System, f: Fifo) {
    && f.Ok()
    && s.lock == Counters(|f.arrived| % TWO_8, f.left % TWO_8)
    && (forall i, j :: f.left <= i < j < |f.arrived| ==> f.arrived[i] != f.arrived[j])
    && (forall j :: f.left <= j < |f.arrived| ==>
          && f.arrived[j] in s.phase
          && s.phase[f.arrived[j]] == if j == f.left && f.held then Holding else Waiting(j % TWO_8))
    && (forall t :: t in s.phase && !f.Queues(t) ==> s.phase[t] == Idle)
  }

  lemma {:induction false} DistinctIsSmall(q: seq<Thread>, s: set<Thread>)
    requires Distinct(q) && forall i :: 0 <= i < |q| ==> q[i] in s
    ensures |q| <= |s|
    decreases |q|
  {
    if q == [] {
    } else {
      DistinctIsSmall(q[1..], s - {q[0]});
    }
  }

  ghost predicate Distinct(q: seq<Thread>) { forall i, j :: 0 <= i < j < |q| ==> q[i] != q[j] }

  lemma QueueIsSmall(s: System, f: Fifo, t: Thread)
    requires Represents(s, f) && |s.phase| <= TWO_8 && t in s.phase
    ensures |f.arrived| - f.left <= TWO_8
    ensures !f.Queues(t) ==> |f.arrived| - f.left < TWO_8
  {
    var q := f.arrived[f.left..];
    DistinctIsSmall(q, s.phase.Keys);
    if !f.Queues(t) {
      DistinctIsSmall(q, s.phase.Keys - {t});
    }
  }

  /** Within 256 places, equal 8-bit tickets are equal tickets. */
  lemma SameTicket(i: nat, j: nat)
    requires i <= j < i + TWO_8
    ensures i % TWO_8 == j % TWO_8 <==> i == j
  {
  }

  lemma UpMod(n: nat)
    ensures Up(n % TWO_8) == (n + 1) % TWO_8
  {
  }

  lemma LockCounters(s: System, f: Fifo, t: Thread)
    requires Represents(s, f) && Enabled(s, Lock(t)) && |s.phase| <= TWO_8
    ensures !f.Queues(t)
    ensures Next(s, Lock(t)).lock == Counters((|f.arrived| + 1) % TWO_8, f.left % TWO_8)
    ensures Next(s, Lock(t)).phase[t] == if f.left == |f.arrived| then Holding else Waiting(|f.arrived| % TWO_8)
  {
    assert !f.Queues(t);
    QueueIsSmall(s, f, t);
    SameTicket(f.left, |f.arrived|);
    UpMod(|f.arrived|);
  }

  lemma LockRefines(s: System, f: Fifo, t: Thread)
    requires Represents(s, f) && Enabled(s, Lock(t)) && |s.phase| <= TWO_8
    ensures Represents(Next(s, Lock(t)), FifoNext(f, Lock(t)))
    ensures Next(s, Lock(t)).phase[t] == Holding <==> FifoNext(f, Lock(t)).Holder(t)
  {
    LockCounters(s, f, t);
    var n := |f.arrived|;
    var s', f' := Next(s, Lock(t)), FifoNext(f, Lock(t));
    forall j | f'.left <= j < n + 1
      ensures f'.arrived[j] in s'.phase
      ensures s'.phase[f'.arrived[j]] == if j == f'.left && f'.held then Holding else Waiting(j % TWO_8)
    {
      if j < n { assert f'.arrived[j] == f.arrived[j] != t; }
    }
    forall u | u in s'.phase && !f'.Queues(u)
      ensures s'.phase[u] == Idle
    {
      assert f'.arrived[n] == t;
      assert forall j :: 0 <= j < n ==> f'.arrived[j] == f.arrived[j];
      assert u != t && !f.Queues(u);
    }
  }

  lemma WakeRefines(s: System, f: Fifo, t: Thread)
    requires Represents(s, f) && Enabled(s, Wake(t)) && |s.phase| <= TWO_8
    ensures Represents(Next(s, Wake(t)), FifoNext(f, Wake(t)))
    ensures Next(s, Wake(t)).phase[t] == Holding <==> FifoNext(f, Wake(t)).Holder(t)
  {
    assert f.Queues(t);
    var i :| f.left <= i < |f.arrived| && f.arrived[i] == t;
    QueueIsSmall(s, f, t);
    SameTicket(f.left, i);
    assert forall u :: f.Queues(u) ==> FifoNext(f, Wake(t)).Queues(u);
  }

  lemma UnlockRefines(s: System, f: Fifo, t: Thread)
    requires Represents(s, f) && Enabled(s, Unlock(t)) && |s.phase| <= TWO_8
    ensures Represents(Next(s, Unlock(t)), FifoNext(f, Unlock(t)))
    ensures f.Holder(t) && Next(s, Unlock(t)).phase[t] != Holding && !FifoNext(f, Unlock(t)).held
  {
    assert f.Queues(t);
    assert f.arrived[f.left] == t;
    UpMod(f.left);
    var s', f' := Next(s, Unlock(t)), FifoNext(f, Unlock(t));
    forall u | u in s'.phase && !f'.Queues(u)
      ensures s'.phase[u] == Idle
    {
      assert u != t ==> !f.Queues(u);
    }
  }

  /** One step of the wrapping counters is one step of the queue, and the caller
      holds the lock afterwards in one exactly when it does in the other. */
  lemma StepRefines(s: System, f: Fifo, e: Event)
    requires Represents(s, f) && Enabled(s, e) && |s.phase| <= TWO_8
    ensures Represents(Next(s, e), FifoNext(f, e))
    ensures Next(s, e).phase[e.t] == Holding <==> FifoNext(f, e).Holder(e.t)
    ensures e.Unlock? ==> f.held
    ensures e.Wake? ==> !f.Holder(e.t)
  {
    match e {
      case Lock(t) => LockRefines(s, f, t);
      case Try(t) =>
        assert !f.Queues(t);
        QueueIsSmall(s, f, t);
        SameTicket(f.left, |f.arrived|);
        if f.left == |f.arrived| {
          LockRefines(s, f, t);
        } else {
          DownUp(s.lock.issue);
        }
      case Wake(t) => WakeRefines(s, f, t);
      case Unlock(t) => UnlockRefines(s, f, t);
    }
  }

  lemma DownUp(x: uint8)
    ensures Down(Up(x)) == x
  {
  }

  lemma AfterThreads(threads: set<Thread>, es: seq<Event>)
    requires Runs(threads, es)
    ensures After(threads, es).phase.Keys == threads
  {
    if es == [] {
    } else {
      AfterThreads(threads, es[..|es| - 1]);
    }
  }

  /** For at most 256 threads, every run of the counters is the run of the queue,
      with the same arrivals and the same grants. */
  lemma {:induction false} RunRefines(threads: set<Thread>, es: seq<Event>)
    requires |threads| <= TWO_8 && Runs(threads, es)
    ensures Represents(After(threads, es), FifoAfter(es))
    ensures Arrivals(threads, es) == FifoAfter(es).arrived
    ensures Grants(threads, es) == FifoAfter(es).Let()
    decreases |es|
  {
    if es == [] {
    } else {
      var before, e := es[..|es| - 1], es[|es| - 1];
      RunRefines(threads, before);
      AfterThreads(threads, before);
      var s, f := After(threads, before), FifoAfter(before);
      StepRefines(s, f, e);
      StepLogs(s, f, e);
    }
  }

  /** How one step extends the two histories of the queue. */
  lemma StepLogs(s: System, f: Fifo, e: Event)
    requires Represents(s, f) && Enabled(s, e) && |s.phase| <= TWO_8
    ensures var f', holds := FifoNext(f, e), Next(s, e).phase[e.t] == Holding;
            && f'.arrived == (if e.Lock? || (e.Try? && holds) then f.arrived + [e.t] else f.arrived)
            && f'.Let() == (if !e.Unlock? && holds then f.Let() + [e.t] else f.Let())
  {
    StepRefines(s, f, e);
    if e.Lock? || e.Try? {
      assert !f.Queues(e.t);
      assert !f.Holder(e.t);
    }
  }

  ghost predicate MutualExclusion(s: System) {
    forall t, u :: t in s.phase && u in s.phase && s.phase[t] == Holding && s.phase[u] == Holding ==> t == u
  }

  /** What the queue means for the counters: one holder at a time, service in
      arrival order, and while nobody holds the lock the only ticket being served
      is that of the earliest arrival not yet let in. */
  lemma LockIsFair(threads: set<Thread>, es: seq<Event>)
    requires |threads| <= TWO_8 && Runs(threads, es)
    ensures MutualExclusion(After(threads, es))
    ensures Grants(threads, es) <= Arrivals(threads, es)
    ensures var s, g := After(threads, es), |Grants(threads, es)|;
            (forall t :: t in s.phase ==> s.phase[t] != Holding) ==>
            forall t :: t in s.phase && s.phase[t].Waiting? ==>
              (s.phase[t].ticket == s.lock.serving <==> g < |Arrivals(threads, es)| && Arrivals(threads, es)[g] == t)
  {
    RunRefines(threads, es);
    AfterThreads(threads, es);
    var s, f := After(threads, es), FifoAfter(es);
    forall t | t in s.phase && s.phase[t] != Idle
      ensures s.phase[t] == Holding <==> f.Holder(t)
      ensures s.phase[t].Waiting? ==> (s.phase[t].ticket == s.lock.serving <==> f.arrived[f.left] == t)
    {
      assert f.Queues(t);
      var i :| f.left <= i < |f.arrived| && f.arrived[i] == t;
      QueueIsSmall(s, f, t);
      SameTicket(f.left, i);
    }
  }

  /** A failed non-blocking attempt leaves everything as it was. */
  lemma FailedTryChangesNothing(s: System, t: Thread)
    requires Enabled(s, Try(t)) && Next(s, Try(t)).phase[t] != Holding
    ensures Next(s, Try(t)) == s
  {
    DownUp(s.lock.issue);
  }

  // ---- 256 is the limit -----------------------------------------------------

  lemma {:induction false} Enumerate(threads: set<Thread>, n: nat) returns (q: seq<Thread>)
    requires n <= |threads|
    ensures |q| == n && Distinct(q) && forall i :: 0 <= i < n ==> q[i] in threads
    decreases n
  {
    if n == 0 {
      q := [];
    } else {
      var t :| t in threads;
      var rest := Enumerate(threads - {t}, n - 1);
      q := [t] + rest;
    }
  }

  ghost function LockAll(q: seq<Thread>): (es: seq<Event>)
    ensures |es| == |q|
  {
    if q == [] then [] else LockAll(q[..|q| - 1]) + [Lock(q[|q| - 1])]
  }

  /** The threads of q drew the tickets, the first holds the lock, the others are idle. */
  ghost predicate Drawn(s: System, threads: set<Thread>, q: seq<Thread>) {
    && s.lock == Counters(|q| % TWO_8, 0) && s.phase.Keys == threads
    && (q != [] ==> q[0] in threads && s.phase[q[0]] == Holding)
    && (forall t :: t in threads && t !in q ==> s.phase[t] == Idle)
  }

  lemma DrawOne(s: System, threads: set<Thread>, front: seq<Thread>, last: Thread)
    requires Drawn(s, threads, front) && |front| < TWO_8 && last in threads && last !in front
    ensures Enabled(s, Lock(last)) && Drawn(Next(s, Lock(last)), threads, front + [last])
  {
    UpMod(|front|);
    SameTicket(0, |front|);
  }

  /** n threads calling lock in turn: the first gets it, the others wait. */
  lemma {:induction false} LockAllWaits(threads: set<Thread>, q: seq<Thread>)
    requires |q| <= TWO_8 && Distinct(q) && forall i :: 0 <= i < |q| ==> q[i] in threads
    ensures Runs(threads, LockAll(q)) && Drawn(After(threads, LockAll(q)), threads, q)
    decreases |q|
  {
    if q == [] {
    } else {
      var front, last := q[..|q| - 1], q[|q| - 1];
      LockAllWaits(threads, front);
      DrawOne(After(threads, LockAll(front)), threads, front, last);
      assert LockAll(q)[..|q| - 1] == LockAll(front);
      assert q == front + [last];
    }
  }

  /** The 257th concurrent ticket is the first one again. */
  lemma TooManyThreads(threads: set<Thread>) returns (es: seq<Event>)
    requires |threads| > TWO_8
    ensures Runs(threads, es) && !MutualExclusion(After(threads, es))
  {
    var q := Enumerate(threads, TWO_8 + 1);
    var front, last := q[..TWO_8], q[TWO_8];
    LockAllWaits(threads, front);
    var s := After(threads, LockAll(front));
    assert last !in front;
    es := LockAll(front) + [Lock(last)];
    assert es[..|es| - 1] == LockAll(front);
    assert After(threads, es) == Next(s, Lock(last));
    assert Next(s, Lock(last)).phase[last] == Holding && Next(s, Lock(last)).phase[q[0]] == Holding;
  }

  /** Mutual exclusion holds on every run exactly when at most 256 threads use the lock. */
  lemma ThreadLimit(threads: set<Thread>)
    ensures (forall es :: Runs(threads, es) ==> MutualExclusion(After(threads, es))) <==> |threads| <= TWO_8
  {
    if |threads| <= TWO_8 {
      forall es | Runs(threads, es)
        ensures MutualExclusion(After(threads, es))
      {
        LockIsFair(threads, es);
      }
    } else {
      var es := TooManyThreads(threads);
    }
  }
}
