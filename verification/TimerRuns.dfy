/** What a call does to the numbers of pending timers when nothing else runs, and with it
    which kinds of timer the daemon can leave pending twice. */
module TimerRuns {
  import opened MachineInts
  import opened PortTimers
  import D = PeerDelay
  import Q = TimerQueue
  import Timestamps

  // ---- counting pending timers -----------------------------------------------------------

  /** How many timers of each kind are pending. */
  ghost predicate Matches(q: Q.Queue, n: multiset<Q.Kind>) {
    |q.pending| == |n| && forall kind :: |Q.OfKind(q, kind)| == n[kind]
  }

  /** The counts after one step of a program. */
  function Counted(n: multiset<Q.Kind>, op: Op): multiset<Q.Kind> {
    if Queued(op).None? then n
    else
      var e := Queued(op).value;
      if op.Renew? then n[e.kind := 1]
      else if e.Schedule? || e.EndRestart? then n[e.kind := n[e.kind] + 1]
      else n[e.kind := 0]
  }

  lemma KindCount(s: set<Q.Key>, k: Q.Key, n: multiset<Q.Kind>, kind: Q.Kind, other: Q.Kind, s': set<Q.Key>)
    requires |s| == n[other] && k !in s && s' == s + if other == kind then {k} else {}
    ensures |s'| == n[kind := n[kind] + 1][other]
  {
  }

  lemma OneMore(q: Q.Queue, n: multiset<Q.Kind>, kind: Q.Kind, k: Q.Key, q': Q.Queue)
    requires Matches(q, n) && k !in q.pending && q'.pending.Keys == q.pending.Keys + {k}
    requires forall other :: Q.OfKind(q', other) == Q.OfKind(q, other) + if other == kind then {k} else {}
    ensures Matches(q', n[kind := n[kind] + 1])
  {
    forall other
      ensures |Q.OfKind(q', other)| == n[kind := n[kind] + 1][other]
    {
      KindCount(Q.OfKind(q, other), k, n, kind, other, Q.OfKind(q', other));
    }
    assert |q'.pending.Keys| == |q.pending.Keys| + 1;
  }

  lemma AddMatches(q: Q.Queue, n: multiset<Q.Kind>, kind: Q.Kind)
    requires Matches(q, n) && Q.HasRoom(q)
    ensures Matches(Q.Add(q, kind), n[kind := n[kind] + 1])
  {
    Q.KindsAfter(q, kind);
    OneMore(q, n, kind, Q.Add(q, kind).key, Q.Add(q, kind));
  }

  lemma CancelMatches(q: Q.Queue, n: multiset<Q.Kind>, kind: Q.Kind)
    requires Matches(q, n)
    ensures Matches(Q.Cancel(q, kind), n[kind := 0])
  {
    Q.KindsAfter(q, kind);
    var gone := Q.OfKind(q, kind);
    assert gone <= q.pending.Keys && Q.Cancel(q, kind).pending.Keys == q.pending.Keys - gone;
  }

  lemma ExpireMatches(q: Q.Queue, n: multiset<Q.Kind>, k: Q.Key)
    requires Matches(q, n) && k in q.pending
    ensures var kind := q.pending[k].kind; n[kind] > 0 && Matches(Q.Expire(q, k), n[kind := n[kind] - 1])
  {
    var kind, q' := q.pending[k].kind, Q.Expire(q, k);
    assert k in Q.OfKind(q, kind) && q'.pending.Keys == q.pending.Keys - {k};
    assert forall other :: Q.OfKind(q', other) == Q.OfKind(q, other) - if other == kind then {k} else {};
  }

  lemma StepMatches(t: Q.System, n: multiset<Q.Kind>, op: Op)
    requires QueueReady(t, op) && Matches(t.q, n)
    ensures Matches(QueueNext(t, op).q, Counted(n, op))
  {
    if Queued(op).None? {
    } else {
      var e := Queued(op).value;
      if e.Schedule? || e.EndRestart? {
        AddMatches(t.q, n, e.kind);
      } else if op.Renew? {
        RenewMatches(t, n);
      } else {
        CancelMatches(t.q, n, e.kind);
      }
    }
  }

  lemma RenewMatches(t: Q.System, n: multiset<Q.Kind>)
    requires QueueReady(t, Renew) && Matches(t.q, n)
    ensures Matches(QueueNext(t, Renew).q, n[Q.SyncReceipt := 1])
  {
    var kind := Q.SyncReceipt;
    CancelMatches(t.q, n, kind);
    AddMatches(Q.Next(t, Q.BeginRestart(kind)).q, n[kind := 0], kind);
    assert n[kind := 0][kind := 1] == n[kind := 1];
  }

  lemma HeadReady(t: Q.System, op: Op)
    requires FineHead(op) && Q.HasRoom(t.q) && Q.SyncReceipt !in t.restarting
    requires op.Reset? ==> op.kind !in t.restarting
    requires op.Finish? ==> op.kind in t.restarting
    ensures QueueReady(t, op)
  {
    if op.Renew? {
      CancelRoom(t.q);
    }
  }

  lemma QueueIsReady(w: World, th: Thread)
    requires Shape(w) && w.s.At(th) != [] && Q.HasRoom(w.t.q)
    ensures QueueReady(w.t, w.s.At(th)[0])
  {
    var op := w.s.At(th)[0];
    FineAt(w.s, w.t.restarting, th);
    DueApart(w.s, th);
    if op.Reset? {
      DueElsewhere(w.s, th, op.kind);
    }
    HeadReady(w.t, op);
  }

  lemma CancelRoom(q: Q.Queue)
    requires Q.HasRoom(q)
    ensures Q.HasRoom(Q.Cancel(q, Q.SyncReceipt))
  {
    Q.SubsetSize(Q.Cancel(q, Q.SyncReceipt).pending.Keys, q.pending.Keys);
  }

  lemma DueElsewhere(s: Port, th: Thread, kind: Q.Kind)
    requires Own(kind) !in s.Others(th)
    ensures kind !in OtherDue(s, th)
  {
    DueHeld(s.timer);
    DueHeld(s.listener);
    DueHeld(s.link);
    DueHeld(s.main);
  }

  lemma RenewOnce(q: Q.Queue, n: multiset<Q.Kind>)
    requires Matches(q, n) && Q.AtMostOne(q, Q.SyncReceipt)
    ensures n[Q.SyncReceipt] <= 1
  {
    var keys := Q.OfKind(q, Q.SyncReceipt);
    if |keys| > 0 {
      var k :| k in keys;
      assert keys == {k};
    }
  }

  // ---- runs, step by step ---------------------------------------------------------------

  ghost predicate Linked(ws: seq<World>, es: seq<Event>, i: nat, calm: bool)
    requires |ws| == |es| + 1 && i < |es|
  {
    Enabled(ws[i], es[i]) && ws[i + 1] == Next(ws[i], es[i]) && (calm ==> es[i].Step? || ws[i].s.Quiet())
  }

  /** The states of a run; if calm, one call at a time. */
  ghost predicate Path(ws: seq<World>, es: seq<Event>, calm: bool) {
    |ws| == |es| + 1 && forall i {:trigger Linked(ws, es, i, calm)} :: 0 <= i < |es| ==> Linked(ws, es, i, calm)
  }

  ghost predicate Reaches(w0: World, es: seq<Event>, w: World, calm: bool) {
    Shape(w0) && exists ws :: Path(ws, es, calm) && ws[0] == w0 && ws[|es|] == w
  }

  lemma {:induction false} PathRuns(ws: seq<World>, es: seq<Event>, calm: bool)
    requires Path(ws, es, calm)
    ensures Runs(ws[0], es) && After(ws[0], es) == ws[|es|] && (calm ==> Sequential(ws[0], es))
    decreases |es|
  {
    if es == [] {
    } else {
      assert Linked(ws, es, 0, calm);
      forall i | 0 <= i < |es| - 1
        ensures Linked(ws[1..], es[1..], i, calm)
      {
        assert Linked(ws, es, i + 1, calm);
      }
      PathRuns(ws[1..], es[1..], calm);
    }
  }

  lemma IsRun(w0: World, es: seq<Event>, w: World, calm: bool)
    requires Reaches(w0, es, w, calm)
    ensures Runs(w0, es) && After(w0, es) == w && (calm ==> Sequential(w0, es))
  {
    var ws :| Path(ws, es, calm) && ws[0] == w0 && ws[|es|] == w;
    PathRuns(ws, es, calm);
  }

  lemma ReachedShape(w0: World, es: seq<Event>, w: World, calm: bool)
    requires Reaches(w0, es, w, calm)
    ensures Shape(w)
  {
    IsRun(w0, es, w, calm);
    RunKeeps(w0, es);
  }

  lemma Extend(w0: World, es: seq<Event>, w: World, calm: bool, e: Event)
    requires Reaches(w0, es, w, calm) && Enabled(w, e) && (calm ==> e.Step? || w.s.Quiet())
    ensures Reaches(w0, es + [e], Next(w, e), calm)
  {
    var ws :| Path(ws, es, calm) && ws[0] == w0 && ws[|es|] == w;
    var ws', es' := ws + [Next(w, e)], es + [e];
    forall i | 0 <= i < |es'|
      ensures Linked(ws', es', i, calm)
    {
      if i < |es| {
        assert Linked(ws, es, i, calm);
      }
    }
    assert Path(ws', es', calm);
  }

  /** The calls of a run. */
  function Calls(es: seq<Event>): seq<Call> {
    if es == [] then [] else Calls(es[..|es| - 1]) + CallOf(es[|es| - 1])
  }

  function CallOf(e: Event): seq<Call> { if e.Begin? then [e.c] else [] }

  lemma CallsOn(es: seq<Event>, e: Event)
    ensures Calls(es + [e]) == Calls(es) + CallOf(e)
  {
    assert (es + [e])[..|es|] == es;
  }

  /** A run to a state with this port and these numbers of timers. */
  ghost predicate Shows(w0: World, es: seq<Event>, s: Port, n: multiset<Q.Kind>, calm: bool) {
    exists w :: Reaches(w0, es, w, calm) && w.s == s && Matches(w.t.q, n)
  }

  lemma Went(w0: World, es: seq<Event>, s: Port, n: multiset<Q.Kind>, calm: bool, th: Thread)
    requires Shows(w0, es, s, n, calm) && !s.f.dead && Ready(s, th) && |n| < Q.KEYS
    ensures Shows(w0, es + [Step(th)], Stepped(s, th), Counted(n, s.At(th)[0]), calm)
  {
    var w :| Reaches(w0, es, w, calm) && w.s == s && Matches(w.t.q, n);
    ReachedShape(w0, es, w, calm);
    QueueIsReady(w, th);
    RenewOnce(w.t.q, n);
    StepMatches(w.t, n, s.At(th)[0]);
    Extend(w0, es, w, calm, Step(th));
    assert Reaches(w0, es + [Step(th)], Next(w, Step(th)), calm);
  }

  lemma Called(w0: World, es: seq<Event>, s: Port, n: multiset<Q.Kind>, calm: bool, c: Call)
    requires Shows(w0, es, s, n, calm) && !s.f.dead && MayBegin(s, c) && (calm ==> s.Quiet())
    ensures Shows(w0, es + [Begin(c)], Begun(s, c), n, calm)
  {
    var w :| Reaches(w0, es, w, calm) && w.s == s && Matches(w.t.q, n);
    Extend(w0, es, w, calm, Begin(c));
    assert Reaches(w0, es + [Begin(c)], Next(w, Begin(c)), calm);
  }

  lemma KeyOf(q: Q.Queue, n: multiset<Q.Kind>, kind: Q.Kind) returns (k: Q.Key)
    requires Matches(q, n) && kind in n
    ensures k in q.pending && q.pending[k].kind == kind
  {
    assert |Q.OfKind(q, kind)| > 0;
    k :| k in Q.OfKind(q, kind);
  }

  lemma Signalled(w0: World, es: seq<Event>, s: Port, n: multiset<Q.Kind>, calm: bool, kind: Q.Kind, d: Detail)
    returns (e: Event)
    requires Shows(w0, es, s, n, calm) && !s.f.dead && s.timer == [] && (calm ==> s.Quiet()) && kind in n
    ensures e.Signal? && Shows(w0, es + [e], Expired(s, kind, d), n[kind := n[kind] - 1], calm)
  {
    var w :| Reaches(w0, es, w, calm) && w.s == s && Matches(w.t.q, n);
    var k := KeyOf(w.t.q, n, kind);
    e := Signal(k, d);
    ExpireMatches(w.t.q, n, k);
    Extend(w0, es, w, calm, e);
    assert Reaches(w0, es + [e], Next(w, e), calm);
  }

  // ---- a thread alone ---------------------------------------------------------------------

  /** A port at rest and its timers. */
  datatype Calm = Calm(f: Flags, n: multiset<Q.Kind>)

  function Rest(f: Flags): Port { Port(f, [], [], [], []) }

  /** One step of a program, if nothing else runs. */
  function Hop(a: Calm, op: Op): Calm { Calm(Changed(a.f, op), Counted(a.n, op)) }

  /** A port whose one busy thread has this program. */
  datatype Spot = Spot(a: Calm, p: seq<Op>)

  predicate Hops(x: Spot, y: Spot) {
    && x.p != [] && !x.a.f.dead && |x.a.n| < Q.KEYS
    && y == Spot(Hop(x.a, x.p[0]), Continue(x.a.f, {}, x.p[0]) + x.p[1..])
  }

  predicate HopsAt(tr: seq<Spot>, i: nat)
    requires i < |tr| - 1
  {
    Hops(tr[i], tr[i + 1])
  }

  /** A program run alone, from x to y. */
  ghost predicate Trace(tr: seq<Spot>, x: Spot, y: Spot) {
    && |tr| > 0 && tr[0] == x && tr[|tr| - 1] == y
    && forall i {:trigger HopsAt(tr, i)} :: 0 <= i < |tr| - 1 ==> HopsAt(tr, i)
  }

  /** The port s with other flags and another program for one thread. */
  function Put(s: Port, th: Thread, x: Spot): Port { s.(f := x.a.f).With(th, x.p) }

  /** The other threads hold no lock, and none is in a callback. */
  predicate Idle(s: Port, th: Thread) { s.Others(th) == {} && (th != Timer ==> s.timer == []) }

  lemma PutReady(s: Port, th: Thread, x: Spot)
    requires Idle(s, th) && x.p != []
    ensures var r := Put(s, th, x);
            && r.At(th) == x.p && r.f == x.a.f && Ready(r, th)
            && Stepped(r, th) == Put(s, th, Spot(Hop(x.a, x.p[0]), Continue(x.a.f, {}, x.p[0]) + x.p[1..]))
  {
    assert Put(s, th, x).Others(th) == s.Others(th);
  }

  lemma TraceTail(tr: seq<Spot>, x: Spot, y: Spot)
    requires Trace(tr, x, y) && |tr| > 1
    ensures Hops(x, tr[1]) && Trace(tr[1..], tr[1], y)
  {
    assert HopsAt(tr, 0);
    forall i | 0 <= i < |tr| - 2
      ensures HopsAt(tr[1..], i)
    {
      assert HopsAt(tr, i + 1);
    }
  }

  /** A program that runs so alone does so on the port. */
  lemma {:induction false} TraceRuns(
    w0: World, es: seq<Event>, calm: bool, s: Port, th: Thread, tr: seq<Spot>, x: Spot, y: Spot)
    returns (es': seq<Event>)
    requires Idle(s, th) && Trace(tr, x, y) && Shows(w0, es, Put(s, th, x), x.a.n, calm)
    ensures Shows(w0, es', Put(s, th, y), y.a.n, calm) && Calls(es') == Calls(es)
    decreases |tr|
  {
    if |tr| == 1 {
      es' := es;
    } else {
      TraceTail(tr, x, y);
      HopRuns(w0, es, calm, s, th, x, tr[1]);
      CallsOn(es, Step(th));
      es' := TraceRuns(w0, es + [Step(th)], calm, s, th, tr[1..], tr[1], y);
    }
  }

  lemma HopRuns(w0: World, es: seq<Event>, calm: bool, s: Port, th: Thread, x: Spot, y: Spot)
    requires Idle(s, th) && Hops(x, y) && Shows(w0, es, Put(s, th, x), x.a.n, calm)
    ensures Shows(w0, es + [Step(th)], Put(s, th, y), y.a.n, calm)
  {
    PutReady(s, th, x);
    Went(w0, es, Put(s, th, x), x.a.n, calm, th);
  }

  lemma TraceJoin(tr: seq<Spot>, x: Spot, y: Spot, tr': seq<Spot>, z: Spot) returns (all: seq<Spot>)
    requires Trace(tr, x, y) && Trace(tr', y, z)
    ensures Trace(all, x, z)
  {
    all := tr + tr'[1..];
    forall i | 0 <= i < |all| - 1
      ensures HopsAt(all, i)
    {
      if i < |tr| - 1 {
        assert HopsAt(tr, i);
      } else {
        assert HopsAt(tr', i - (|tr| - 1));
      }
    }
  }

  lemma OneHop(a: Calm, op: Op, rest: seq<Op>)
    requires !a.f.dead && |a.n| < Q.KEYS
    ensures Hops(Spot(a, [op] + rest), Spot(Hop(a, op), Continue(a.f, {}, op) + rest))
    ensures Continue(a.f, {}, op) == [] ==> Continue(a.f, {}, op) + rest == rest
  {
    assert ([op] + rest)[1..] == rest;
  }

  // ---- whole calls --------------------------------------------------------------------------

  function Restarted(a: Calm, kind: Q.Kind): Calm { a.(n := a.n[kind := 1]) }

  function Started(a: Calm): Calm {
    if a.f.x.halted then a else Restarted(a.(f := a.f.(x := a.f.x.(started := true))), Q.PDelayInterval)
  }

  function Added(a: Calm, kind: Q.Kind): Calm { a.(n := a.n[kind := a.n[kind] + 1]) }

  function Dropped(a: Calm, kind: Q.Kind): Calm { a.(n := a.n[kind := 0]) }

  function Responded(a: Calm, misbehaved: bool): Calm {
    if misbehaved then
      var x := a.f.x.(halted := true, started := false, responded := true);
      Added(Dropped(a.(f := a.f.(x := x)), Q.PDelayInterval), Q.PeerMisbehaving)
    else a.(f := a.f.(x := a.f.x.(responded := true)))
  }

  function Followed(a: Calm, matched: bool): Calm {
    if Finds(a.f.x, matched) then
      if a.f.x.unstamped then
        Added(Dropped(a.(f := a.f.(x := a.f.x.(kept := true))), Q.PDelayRespReceipt), Q.PDelayDeferred)
      else Dropped(a.(f := a.f.(x := a.f.x.(responded := false))), Q.PDelayRespReceipt)
    else a.(f := a.f.(x := a.f.x.(responded := false)))
  }

  /** What a step and all it leads to do, if nothing else runs. */
  function Perform(a: Calm, op: Op): Calm {
    match op
    case Restart(kind) => Restarted(a, kind)
    case StartSync => Restarted(a, Q.SyncInterval)
    case TestRate => if a.f.rateStarted then a else Added(a.(f := a.f.(rateStarted := true)), Q.SyncRate)
    case StartPDelay => Started(a)
    case BootPDelay => if a.f.cfg.automotive || a.f.role == Initializing then Started(a) else a
    case EnsurePDelay => if a.f.x.started then a else Started(a)
    case TryResponse(misbehaved) => Responded(a, misbehaved)
    case TryFollowUp(matched) => Followed(a, matched)
    case _ => Hop(a, op)
  }

  function PerformAll(a: Calm, p: seq<Op>): Calm
    decreases |p|
  {
    if p == [] then a else PerformAll(Perform(a, p[0]), p[1..])
  }

  /** A step followed by what the trace does. */
  lemma Before(a: Calm, op: Op, rest: seq<Op>, tr: seq<Spot>, y: Spot) returns (all: seq<Spot>)
    requires !a.f.dead && |a.n| < Q.KEYS
    requires Trace(tr, Spot(Hop(a, op), Continue(a.f, {}, op) + rest), y)
    ensures Trace(all, Spot(a, [op] + rest), y)
  {
    OneHop(a, op, rest);
    var x, x' := Spot(a, [op] + rest), Spot(Hop(a, op), Continue(a.f, {}, op) + rest);
    assert HopsAt([x, x'], 0);
    all := TraceJoin([x, x'], x, x', tr, y);
  }

  /** A step that leads to nothing else. */
  lemma DirectTrace(a: Calm, op: Op, rest: seq<Op>) returns (tr: seq<Spot>)
    requires !a.f.dead && |a.n| < Q.KEYS && Continue(a.f, {}, op) == []
    ensures Trace(tr, Spot(a, [op] + rest), Spot(Hop(a, op), rest))
  {
    OneHop(a, op, rest);
    tr := Before(a, op, rest, [Spot(Hop(a, op), rest)], Spot(Hop(a, op), rest));
  }

  lemma RestartTrace(a: Calm, kind: Q.Kind, rest: seq<Op>) returns (tr: seq<Spot>)
    requires !a.f.dead && |a.n| < Q.KEYS
    ensures Trace(tr, Spot(a, [Restart(kind)] + rest), Spot(Restarted(a, kind), rest))
  {
    assert Added(Dropped(a, kind), kind) == Restarted(a, kind);
    var y := Spot(Restarted(a, kind), rest);
    tr := DirectTrace(Dropped(a, kind), Finish(kind), rest);
    tr := Before(a, Reset(kind), rest, tr, y);
    tr := Before(a, Restart(kind), rest, tr, y);
  }

  lemma SyncAddTrace(a: Calm, rest: seq<Op>) returns (tr: seq<Spot>)
    requires !a.f.dead && |a.n| + 1 < Q.KEYS
    ensures Trace(tr, Spot(a, [SyncInsert] + rest), Spot(Added(a, Q.SyncInterval), rest))
  {
    tr := DirectTrace(Added(a, Q.SyncInterval), SyncRelease, rest);
    tr := Before(a, SyncInsert, rest, tr, Spot(Added(a, Q.SyncInterval), rest));
  }

  lemma SyncTrace(a: Calm, rest: seq<Op>) returns (tr: seq<Spot>)
    requires !a.f.dead && |a.n| + 1 < Q.KEYS
    ensures Trace(tr, Spot(a, [StartSync] + rest), Spot(Restarted(a, Q.SyncInterval), rest))
  {
    var y := Spot(Restarted(a, Q.SyncInterval), rest);
    assert Added(Dropped(a, Q.SyncInterval), Q.SyncInterval) == y.a;
    tr := SyncAddTrace(Dropped(a, Q.SyncInterval), rest);
    tr := Before(a, SyncRemove, rest, tr, y);
    tr := Before(a, StartSync, rest, tr, y);
  }

  lemma RateTrace(a: Calm, rest: seq<Op>) returns (tr: seq<Spot>)
    requires !a.f.dead && |a.n| < Q.KEYS
    ensures Trace(tr, Spot(a, [TestRate] + rest), Spot(Perform(a, TestRate), rest))
  {
    if a.f.rateStarted {
      tr := DirectTrace(a, TestRate, rest);
    } else {
      tr := DirectTrace(Hop(a, SetRate), InsertRate, rest);
      tr := Before(a, SetRate, rest, tr, Spot(Perform(a, TestRate), rest));
      tr := Before(a, TestRate, rest, tr, Spot(Perform(a, TestRate), rest));
    }
  }

  lemma StartTrace(a: Calm, rest: seq<Op>) returns (tr: seq<Spot>)
    requires !a.f.dead && |a.n| < Q.KEYS
    ensures Trace(tr, Spot(a, [StartPDelay] + rest), Spot(Started(a), rest))
  {
    if a.f.x.halted {
      tr := DirectTrace(a, StartPDelay, rest);
    } else {
      tr := RestartTrace(Hop(a, StartPDelay), Q.PDelayInterval, rest);
      tr := Before(a, StartPDelay, rest, tr, Spot(Started(a), rest));
    }
  }

  /** The two conditional starts. */
  lemma StartIfTrace(a: Calm, op: Op, rest: seq<Op>) returns (tr: seq<Spot>)
    requires !a.f.dead && |a.n| < Q.KEYS && (op.BootPDelay? || op.EnsurePDelay?)
    ensures Trace(tr, Spot(a, [op] + rest), Spot(Perform(a, op), rest))
  {
    if Continue(a.f, {}, op) == [] {
      tr := DirectTrace(a, op, rest);
    } else {
      tr := StartTrace(a, rest);
      tr := Before(a, op, rest, tr, Spot(Started(a), rest));
    }
  }

  lemma HoldTrace(a: Calm, rest: seq<Op>) returns (tr: seq<Spot>)
    requires !a.f.dead && |a.n| < Q.KEYS
    ensures Trace(tr, Spot(a, [HoldResponse, PutRx] + rest), Spot(Hop(a, HoldResponse), rest))
  {
    assert [HoldResponse, PutRx] + rest == [HoldResponse] + ([PutRx] + rest);
    tr := DirectTrace(Hop(a, HoldResponse), PutRx, rest);
    var first := DirectTrace(a, HoldResponse, [PutRx] + rest);
    tr := TraceJoin(first, Spot(a, [HoldResponse] + ([PutRx] + rest)), Spot(Hop(a, HoldResponse), [PutRx] + rest),
                    tr, Spot(Hop(a, HoldResponse), rest));
  }

  lemma HaltTrace(a: Calm, rest: seq<Op>) returns (tr: seq<Spot>)
    requires !a.f.dead && |a.n| < Q.KEYS
    ensures Trace(tr, Spot(a, [Halt, Remove(Q.PDelayInterval), Insert(Q.PeerMisbehaving)] + rest),
                  Spot(Added(Dropped(Hop(a, Halt), Q.PDelayInterval), Q.PeerMisbehaving), rest))
  {
    var p := [Insert(Q.PeerMisbehaving)] + rest;
    var b, c := Hop(a, Halt), Dropped(Hop(a, Halt), Q.PDelayInterval);
    var y := Spot(Added(c, Q.PeerMisbehaving), rest);
    tr := DirectTrace(c, Insert(Q.PeerMisbehaving), rest);
    var mid := DirectTrace(b, Remove(Q.PDelayInterval), p);
    tr := TraceJoin(mid, Spot(b, [Remove(Q.PDelayInterval)] + p), Spot(c, p), tr, y);
    var first := DirectTrace(a, Halt, [Remove(Q.PDelayInterval)] + p);
    tr := TraceJoin(first, Spot(a, [Halt] + ([Remove(Q.PDelayInterval)] + p)), Spot(b, [Remove(Q.PDelayInterval)] + p),
                    tr, y);
    assert [Halt] + ([Remove(Q.PDelayInterval)] + p)
        == [Halt, Remove(Q.PDelayInterval), Insert(Q.PeerMisbehaving)] + rest;
  }

  lemma HaltHoldTrace(a: Calm, p: seq<Op>, rest: seq<Op>) returns (tr: seq<Spot>)
    requires !a.f.dead && |a.n| + 1 < Q.KEYS && p == [HoldResponse, PutRx] + rest
    ensures Trace(tr, Spot(a, [Halt, Remove(Q.PDelayInterval), Insert(Q.PeerMisbehaving)] + p),
                  Spot(Responded(a, true), rest))
  {
    var b := Added(Dropped(Hop(a, Halt), Q.PDelayInterval), Q.PeerMisbehaving);
    var first := HaltTrace(a, p);
    tr := HoldTrace(b, rest);
    tr := TraceJoin(first, Spot(a, [Halt, Remove(Q.PDelayInterval), Insert(Q.PeerMisbehaving)] + p), Spot(b, p),
                    tr, Spot(Responded(a, true), rest));
  }

  lemma ResponseTrace(a: Calm, misbehaved: bool, rest: seq<Op>) returns (tr: seq<Spot>)
    requires !a.f.dead && |a.n| + 1 < Q.KEYS
    ensures Trace(tr, Spot(a, [TryResponse(misbehaved)] + rest), Spot(Responded(a, misbehaved), rest))
  {
    var p := [HoldResponse, PutRx] + rest;
    if misbehaved {
      tr := HaltHoldTrace(a, p, rest);
      assert [Halt, Remove(Q.PDelayInterval), Insert(Q.PeerMisbehaving)] + p
          == Continue(a.f, {}, TryResponse(misbehaved)) + rest;
    } else {
      tr := HoldTrace(a, rest);
      assert Continue(a.f, {}, TryResponse(misbehaved)) + rest == p;
    }
    tr := Before(a, TryResponse(misbehaved), rest, tr, Spot(Responded(a, misbehaved), rest));
  }

  lemma StampTrace(a: Calm, rest: seq<Op>) returns (tr: seq<Spot>)
    requires !a.f.dead && |a.n| < Q.KEYS
    ensures var x := a.f.x;
            Trace(tr, Spot(a, [TestStamp] + rest),
                  Spot(if x.unstamped then Added(a.(f := a.f.(x := x.(kept := true))), Q.PDelayDeferred)
                       else a.(f := a.f.(x := x.(responded := false))), rest))
  {
    if a.f.x.unstamped {
      tr := DirectTrace(a, DeferInsert, rest);
      tr := Before(a, TestStamp, rest, tr, Spot(Hop(a, DeferInsert), rest));
    } else {
      tr := DirectTrace(a, TestStamp, rest);
    }
  }

  lemma TakeTrace(a: Calm, matched: bool, rest: seq<Op>) returns (tr: seq<Spot>)
    requires !a.f.dead && |a.n| < Q.KEYS
    ensures Trace(tr, Spot(a, [TakeFollowUp(matched)] + rest), Spot(Followed(a, matched), rest))
  {
    if Finds(a.f.x, matched) {
      tr := StampTrace(Dropped(a, Q.PDelayRespReceipt), rest);
      tr := Before(a, RespRemove, rest, tr, Spot(Followed(a, matched), rest));
      tr := Before(a, TakeFollowUp(matched), rest, tr, Spot(Followed(a, matched), rest));
    } else {
      tr := DirectTrace(a, TakeFollowUp(matched), rest);
    }
  }

  lemma FollowTrace(a: Calm, matched: bool, rest: seq<Op>) returns (tr: seq<Spot>)
    requires !a.f.dead && |a.n| + 1 < Q.KEYS
    ensures Trace(tr, Spot(a, [TryFollowUp(matched)] + rest), Spot(Followed(a, matched), rest))
  {
    var b, p := Followed(a, matched), [PutRx] + rest;
    tr := DirectTrace(b, PutRx, rest);
    var first := TakeTrace(a, matched, p);
    tr := TraceJoin(first, Spot(a, [TakeFollowUp(matched)] + p), Spot(b, p), tr, Spot(b, rest));
    assert [TakeFollowUp(matched)] + p == Continue(a.f, {}, TryFollowUp(matched)) + rest;
    tr := Before(a, TryFollowUp(matched), rest, tr, Spot(b, rest));
  }

  /** The steps of calls and callbacks other than that of PDELAY_DEFERRED. */
  predicate Callable(op: Op) { Plain(op) || op.ClearRate? }

  predicate Leading(op: Op) {
    || op.Restart? || op.StartSync? || op.TestRate? || op.StartPDelay? || op.BootPDelay? || op.EnsurePDelay?
    || op.TryResponse? || op.TryFollowUp?
  }

  lemma NotLeading(a: Calm, op: Op)
    requires Callable(op) && !Leading(op)
    ensures Continue(a.f, {}, op) == [] && Perform(a, op) == Hop(a, op)
  {
  }

  /** The steps of one operation do what Perform says. */
  lemma PerformTrace(a: Calm, op: Op, rest: seq<Op>) returns (tr: seq<Spot>)
    requires !a.f.dead && |a.n| + 1 < Q.KEYS && Callable(op)
    ensures Trace(tr, Spot(a, [op] + rest), Spot(Perform(a, op), rest))
  {
    if !Leading(op) {
      NotLeading(a, op);
      tr := DirectTrace(a, op, rest);
    } else {
      match op {
        case Restart(kind) => tr := RestartTrace(a, kind, rest);
        case StartSync => tr := SyncTrace(a, rest);
        case TestRate => tr := RateTrace(a, rest);
        case StartPDelay => tr := StartTrace(a, rest);
        case BootPDelay => tr := StartIfTrace(a, op, rest);
        case EnsurePDelay => tr := StartIfTrace(a, op, rest);
        case TryResponse(misbehaved) => tr := ResponseTrace(a, misbehaved, rest);
        case TryFollowUp(matched) => tr := FollowTrace(a, matched, rest);
      }
    }
  }

  lemma PerformGrows(a: Calm, op: Op)
    requires Callable(op)
    ensures |Perform(a, op).n| <= |a.n| + 1 && Perform(a, op).f.dead == a.f.dead
  {
  }

  /** A program, if nothing else runs. */
  lemma {:induction false} ProgramTrace(a: Calm, p: seq<Op>, rest: seq<Op>) returns (tr: seq<Spot>)
    requires !a.f.dead && |a.n| + |p| < Q.KEYS && forall op :: op in p ==> Callable(op)
    ensures Trace(tr, Spot(a, p + rest), Spot(PerformAll(a, p), rest)) && !PerformAll(a, p).f.dead
    decreases |p|
  {
    if p == [] {
      assert p + rest == rest;
      tr := [Spot(a, rest)];
    } else {
      var b := Perform(a, p[0]);
      var first := PerformTrace(a, p[0], p[1..] + rest);
      PerformGrows(a, p[0]);
      var later := ProgramTrace(b, p[1..], rest);
      assert [p[0]] + (p[1..] + rest) == p + rest;
      tr := TraceJoin(first, Spot(a, p + rest), Spot(b, p[1..] + rest), later, Spot(PerformAll(a, p), rest));
    }
  }

  /** One call at a time, from w0 to a port at rest. */
  ghost predicate Rests(w0: World, es: seq<Event>, a: Calm) { Shows(w0, es, Rest(a.f), a.n, true) && !a.f.dead }

  function CallDone(a: Calm, c: Call): Calm {
    PerformAll(a.(f := Begun(Rest(a.f), c).f), Program(a.f.cfg, a.f.role, c))
  }

  function ExpiryDone(a: Calm, kind: Q.Kind, d: Detail): Calm
    requires kind in a.n
  {
    PerformAll(a.(n := a.n[kind := a.n[kind] - 1]), Callback(a.f.cfg, a.f.role, kind, d))
  }

  lemma ProgramCallable(cfg: Config, role: Role, c: Call)
    ensures var p := Program(cfg, role, c); |p| <= 8 && forall op :: op in p ==> Callable(op)
  {
    ProgramPlain(cfg, role, c);
  }

  lemma CallbackCallable(cfg: Config, role: Role, kind: Q.Kind, d: Detail)
    requires kind != Q.PDelayDeferred
    ensures var p := Callback(cfg, role, kind, d); |p| <= 8 && forall op :: op in p ==> Callable(op)
  {
    var p := Callback(cfg, role, kind, d);
    CallbackPlain(cfg, role, kind, d);
    assert kind == Q.SyncRate ==> p == [ClearRate] + p[1..];
  }

  lemma AtRest(cfg: Config, role: Role)
    ensures Rests(Start(cfg, role), [], Calm(Fresh(cfg, role).f, multiset{}))
  {
    var w := Start(cfg, role);
    StartShape(cfg, role);
    assert Path([w], [], true);
    assert Reaches(w, [], w, true) && Matches(w.t.q, multiset{});
  }

  /** A program that runs while no other thread holds a lock, on the port. */
  lemma ProgramRuns(w0: World, es: seq<Event>, calm: bool, s: Port, th: Thread, a: Calm, p: seq<Op>)
    returns (es': seq<Event>)
    requires Idle(s, th) && Shows(w0, es, Put(s, th, Spot(a, p)), a.n, calm)
    requires !a.f.dead && |a.n| + |p| < Q.KEYS && forall op :: op in p ==> Callable(op)
    ensures Shows(w0, es', Put(s, th, Spot(PerformAll(a, p), [])), PerformAll(a, p).n, calm)
    ensures !PerformAll(a, p).f.dead && Calls(es') == Calls(es)
  {
    var tr := ProgramTrace(a, p, []);
    assert p + [] == p;
    es' := TraceRuns(w0, es, calm, s, th, tr, Spot(a, p), Spot(PerformAll(a, p), []));
  }

  lemma RestIdle(f: Flags, th: Thread, a: Calm)
    ensures Idle(Rest(f), th) && Put(Rest(f), th, Spot(a, [])) == Rest(a.f)
  {
  }

  lemma BegunPut(f: Flags, c: Call)
    ensures Begun(Rest(f), c)
            == Put(Rest(f), Caller(c), Spot(Calm(Begun(Rest(f), c).f, multiset{}), Program(f.cfg, f.role, c)))
    ensures Begun(Rest(f), c).f == f.(phase := if c.PowerUp? then Starting else f.phase)
  {
  }

  lemma BeginRuns(w0: World, es: seq<Event>, a: Calm, c: Call)
    requires Rests(w0, es, a) && a.f.phase == (if c.PowerUp? then Off else Running)
    ensures Shows(w0, es + [Begin(c)], Begun(Rest(a.f), c), a.n, true)
  {
    Called(w0, es, Rest(a.f), a.n, true, c);
  }

  /** A call that runs alone, on the port. */
  lemma CallRuns(w0: World, es: seq<Event>, a: Calm, c: Call) returns (es': seq<Event>)
    requires Rests(w0, es, a) && a.f.phase == (if c.PowerUp? then Off else Running) && |a.n| + 8 < Q.KEYS
    ensures Rests(w0, es', CallDone(a, c)) && Calls(es') == Calls(es) + [c]
  {
    var p, b := Program(a.f.cfg, a.f.role, c), a.(f := Begun(Rest(a.f), c).f);
    ProgramCallable(a.f.cfg, a.f.role, c);
    BeginRuns(w0, es, a, c);
    CallsOn(es, Begin(c));
    BegunPut(a.f, c);
    RestIdle(a.f, Caller(c), PerformAll(b, p));
    es' := ProgramRuns(w0, es + [Begin(c)], true, Rest(a.f), Caller(c), b, p);
  }

  /** A callback that runs alone, on the port. */
  lemma ExpiryRuns(w0: World, es: seq<Event>, a: Calm, kind: Q.Kind, d: Detail) returns (es': seq<Event>)
    requires Rests(w0, es, a) && kind in a.n && kind != Q.PDelayDeferred && |a.n| + 8 < Q.KEYS
    ensures Rests(w0, es', ExpiryDone(a, kind, d)) && Calls(es') == Calls(es)
  {
    var p, b := Callback(a.f.cfg, a.f.role, kind, d), a.(n := a.n[kind := a.n[kind] - 1]);
    CallbackCallable(a.f.cfg, a.f.role, kind, d);
    var e := Signalled(w0, es, Rest(a.f), a.n, true, kind, d);
    CallsOn(es, e);
    RestIdle(a.f, Timer, PerformAll(b, p));
    es' := ProgramRuns(w0, es + [e], true, Rest(a.f), Timer, b, p);
  }

  lemma One(a: Calm, x: Op)
    ensures PerformAll(a, [x]) == Perform(a, x)
  {
    assert [x][1..] == [];
  }

  lemma Three(a: Calm, x: Op, y: Op, z: Op)
    ensures PerformAll(a, [x, y, z]) == Perform(Perform(Perform(a, x), y), z)
  {
    assert [x, y, z][1..] == [y, z] && [y, z][1..] == [z];
    One(Perform(Perform(a, x), y), z);
  }

  // ---- what a call leaves pending --------------------------------------------------------------

  lemma {:induction false} PerformSum(a: Calm, p: seq<Op>, p': seq<Op>)
    ensures PerformAll(a, p + p') == PerformAll(PerformAll(a, p), p')
    decreases |p|
  {
    if p == [] {
      assert p + p' == p';
    } else {
      assert (p + p')[1..] == p[1..] + p';
      PerformSum(Perform(a, p[0]), p[1..], p');
    }
  }

  /** No other kind is touched. */
  ghost predicate Elsewhere(n: multiset<Q.Kind>, n': multiset<Q.Kind>, kinds: set<Q.Kind>) {
    forall kind :: kind !in kinds ==> n'[kind] == n[kind]
  }

  lemma Peel(a: Calm, op: Op, rest: seq<Op>)
    ensures PerformAll(a, [op] + rest) == PerformAll(Perform(a, op), rest)
  {
    assert ([op] + rest)[1..] == rest;
  }

  lemma BasicSteps(a: Calm, kind: Q.Kind, role: Role)
    ensures Perform(a, Insert(kind)) == Added(a, kind) && Perform(a, Remove(kind)) == Dropped(a, kind)
    ensures Perform(a, Become(role)) == a.(f := a.f.(role := role))
  {
  }

  function MasterDone(a: Calm): Calm {
    var b := Dropped(Dropped(a.(f := a.f.(role := Master)), Q.AnnounceReceipt), Q.SyncReceipt);
    Restarted(if a.f.cfg.automotive then b else Restarted(b, Q.AnnounceInterval), Q.SyncInterval)
  }

  lemma LeavesReceipts(a: Calm)
    ensures PerformAll(a, [Become(Master), Remove(Q.AnnounceReceipt), Remove(Q.SyncReceipt)])
            == Dropped(Dropped(a.(f := a.f.(role := Master)), Q.AnnounceReceipt), Q.SyncReceipt)
  {
    Three(a, Become(Master), Remove(Q.AnnounceReceipt), Remove(Q.SyncReceipt));
    var b := a.(f := a.f.(role := Master));
    BasicSteps(a, Q.AnnounceReceipt, Master);
    BasicSteps(b, Q.AnnounceReceipt, Master);
    BasicSteps(Dropped(b, Q.AnnounceReceipt), Q.SyncReceipt, Master);
  }

  lemma MasterDoes(a: Calm)
    ensures PerformAll(a, ToMaster(a.f.cfg)) == MasterDone(a)
  {
    var p := [Become(Master), Remove(Q.AnnounceReceipt), Remove(Q.SyncReceipt)];
    var q := When(!a.f.cfg.automotive, [Restart(Q.AnnounceInterval)]);
    PerformSum(a, p + q, [StartSync]);
    PerformSum(a, p, q);
    LeavesReceipts(a);
    One(PerformAll(a, p), Restart(Q.AnnounceInterval));
    One(PerformAll(a, p + q), StartSync);
  }

  /** Becoming master leaves no receipt timer, and one timer for each message to send. */
  lemma MasterTimers(a: Calm)
    ensures var b := PerformAll(a, ToMaster(a.f.cfg));
            && b.f == a.f.(role := Master)
            && b.n[Q.AnnounceReceipt] == b.n[Q.SyncReceipt] == 0 && b.n[Q.SyncInterval] == 1
            && b.n[Q.AnnounceInterval] == (if a.f.cfg.automotive then a.n[Q.AnnounceInterval] else 1)
            && Elsewhere(a.n, b.n, {Q.AnnounceReceipt, Q.SyncReceipt, Q.SyncInterval, Q.AnnounceInterval})
  {
    MasterDoes(a);
  }

  function SlaveDone(a: Calm): Calm {
    var b := Dropped(Dropped(a, Q.AnnounceInterval), Q.SyncInterval).(f := a.f.(role := Slave));
    if a.f.cfg.automotive then b else Added(b, Q.AnnounceReceipt)
  }

  lemma StopsSending(a: Calm)
    ensures PerformAll(a, [Remove(Q.AnnounceInterval), Remove(Q.SyncInterval), Become(Slave)])
            == Dropped(Dropped(a, Q.AnnounceInterval), Q.SyncInterval).(f := a.f.(role := Slave))
  {
    Three(a, Remove(Q.AnnounceInterval), Remove(Q.SyncInterval), Become(Slave));
    BasicSteps(a, Q.AnnounceInterval, Slave);
    BasicSteps(Dropped(a, Q.AnnounceInterval), Q.SyncInterval, Slave);
    BasicSteps(Dropped(Dropped(a, Q.AnnounceInterval), Q.SyncInterval), Q.SyncInterval, Slave);
  }

  lemma SlaveDoes(a: Calm)
    ensures PerformAll(a, ToSlave(a.f.cfg)) == SlaveDone(a)
  {
    var p := [Remove(Q.AnnounceInterval), Remove(Q.SyncInterval), Become(Slave)];
    PerformSum(a, p, When(!a.f.cfg.automotive, [Insert(Q.AnnounceReceipt)]));
    StopsSending(a);
    One(PerformAll(a, p), Insert(Q.AnnounceReceipt));
    BasicSteps(PerformAll(a, p), Q.AnnounceReceipt, Slave);
  }

  /** Becoming slave leaves no timer for messages to send, and waits for an announce. */
  lemma SlaveTimers(a: Calm)
    ensures var b := PerformAll(a, ToSlave(a.f.cfg));
            && b.f == a.f.(role := Slave) && b.n[Q.AnnounceInterval] == b.n[Q.SyncInterval] == 0
            && b.n[Q.AnnounceReceipt] == a.n[Q.AnnounceReceipt] + (if a.f.cfg.automotive then 0 else 1)
            && Elsewhere(a.n, b.n, {Q.AnnounceInterval, Q.SyncInterval, Q.AnnounceReceipt})
  {
    SlaveDoes(a);
  }

  lemma HeardDoes(a: Calm, acceptable: bool)
    ensures var b := Dropped(a, Q.AnnounceReceipt);
            CallDone(a, Announce(acceptable))
            == Added(if acceptable then Added(b, Q.StateChange) else b, Q.AnnounceReceipt)
  {
    var p := When(acceptable, [Insert(Q.StateChange)]);
    var b := Dropped(a, Q.AnnounceReceipt);
    PerformSum(a, [Remove(Q.AnnounceReceipt)] + p, [Insert(Q.AnnounceReceipt)]);
    Peel(a, Remove(Q.AnnounceReceipt), p);
    BasicSteps(a, Q.AnnounceReceipt, Slave);
    One(b, Insert(Q.StateChange));
    BasicSteps(b, Q.StateChange, Slave);
    var c := if acceptable then Added(b, Q.StateChange) else b;
    One(c, Insert(Q.AnnounceReceipt));
    BasicSteps(c, Q.AnnounceReceipt, Slave);
  }

  /** An Announce leaves one ANNOUNCE_RECEIPT timer, and asks for an election if acceptable. */
  lemma AnnounceTimers(a: Calm, acceptable: bool)
    ensures var b := CallDone(a, Announce(acceptable));
            && b.f == a.f && b.n[Q.AnnounceReceipt] == 1
            && b.n[Q.StateChange] == a.n[Q.StateChange] + (if acceptable then 1 else 0)
            && Elsewhere(a.n, b.n, {Q.AnnounceReceipt, Q.StateChange})
  {
    HeardDoes(a, acceptable);
  }

  function Wanted(f: Flags, d: Detail): bool { f.cfg.automotive && d.differs && !f.rateStarted }

  lemma RateDoes(a: Calm, d: Detail)
    ensures PerformAll(a, When(a.f.cfg.automotive && d.differs, [TestRate]))
            == if Wanted(a.f, d) then Added(a.(f := a.f.(rateStarted := true)), Q.SyncRate) else a
  {
    One(a, TestRate);
  }

  lemma EnsureDoes(a: Calm)
    ensures var b := PerformAll(a, [EnsurePDelay]);
            Elsewhere(a.n, b.n, {Q.PDelayInterval}) && (b.f.x.started || b.f.x.halted) && b.f.role == a.f.role
  {
    One(a, EnsurePDelay);
  }

  /** syncDone: the SYNC_RATE timer if one is wanted and none was started, and requests. */
  lemma SyncDoneDoes(a: Calm, d: Detail)
    ensures var b := PerformAll(a, SyncDone(a.f.cfg, d));
            && Elsewhere(a.n, b.n, {Q.SyncRate, Q.PDelayInterval})
            && b.n[Q.SyncRate] == a.n[Q.SyncRate] + (if Wanted(a.f, d) then 1 else 0)
            && (b.f.x.started || b.f.x.halted) && b.f.role == a.f.role
  {
    var p := When(a.f.cfg.automotive && d.differs, [TestRate]);
    PerformSum(a, p, [EnsurePDelay]);
    RateDoes(a, d);
    EnsureDoes(PerformAll(a, p));
  }

  lemma UsedDoes(a: Calm, d: Detail)
    ensures CallDone(a, FollowUp(Unpaired, d)) == Dropped(a, Q.SyncReceipt)
    ensures CallDone(a, FollowUp(Used, d))
            == if a.f.role == Slave then
                 Restarted(PerformAll(Dropped(a, Q.SyncReceipt), SyncDone(a.f.cfg, d)), Q.SyncReceipt)
               else Dropped(a, Q.SyncReceipt)
  {
    var b, p := Dropped(a, Q.SyncReceipt), SyncDone(a.f.cfg, d);
    One(a, Remove(Q.SyncReceipt));
    BasicSteps(a, Q.SyncReceipt, Slave);
    Peel(a, Remove(Q.SyncReceipt), p + [Renew]);
    PerformSum(b, p, [Renew]);
    One(PerformAll(b, p), Renew);
  }

  /** A Follow_Up ends the wait for it; one that a slave uses begins the next, sees to the
      SYNC_RATE timer and starts requests. */
  lemma FollowUpTimers(a: Calm, d: Detail)
    ensures CallDone(a, FollowUp(Unpaired, d)) == Dropped(a, Q.SyncReceipt)
    ensures var b := CallDone(a, FollowUp(Used, d));
            if a.f.role != Slave then b == Dropped(a, Q.SyncReceipt)
            else
              && b.n[Q.SyncReceipt] == 1 && (b.f.x.started || b.f.x.halted)
              && b.n[Q.SyncRate] == a.n[Q.SyncRate] + (if Wanted(a.f, d) then 1 else 0)
              && Elsewhere(a.n, b.n, {Q.SyncReceipt, Q.SyncRate, Q.PDelayInterval})
  {
    UsedDoes(a, d);
    SyncDoneDoes(Dropped(a, Q.SyncReceipt), d);
  }

  function Less(a: Calm, kind: Q.Kind): Calm
    requires kind in a.n
  {
    a.(n := a.n[kind := a.n[kind] - 1])
  }

  lemma TakeOverTimers(a: Calm)
    ensures var b := PerformAll(a, TakeOver(a.f.role));
            if a.f.role == Master then b == a
            else
              && b.f == a.f.(role := Master)
              && b.n[Q.SyncInterval] == a.n[Q.SyncInterval] + 1 && b.n[Q.AnnounceInterval] == 1
              && Elsewhere(a.n, b.n, {Q.SyncInterval, Q.AnnounceInterval})
  {
    Three(a, Become(Master), Insert(Q.SyncInterval), Restart(Q.AnnounceInterval));
    BasicSteps(a, Q.SyncInterval, Master);
    BasicSteps(a.(f := a.f.(role := Master)), Q.SyncInterval, Master);
  }

  /** A receipt timeout of a port that may be master: it waits again, and takes over if it
      is not master, with a timer for each message to send. */
  lemma TimeoutTimers(a: Calm, kind: Q.Kind, d: Detail)
    requires kind in a.n && (kind == Q.SyncReceipt || kind == Q.AnnounceReceipt)
    requires !a.f.cfg.automotive && !a.f.cfg.slaveOnly
    ensures var b := ExpiryDone(a, kind, d);
            && b.f == a.f.(role := Master)
            && b.n[kind] == (if kind == Q.SyncReceipt then 1 else a.n[kind])
            && (a.f.role != Master ==>
                  b.n[Q.SyncInterval] == a.n[Q.SyncInterval] + 1 && b.n[Q.AnnounceInterval] == 1)
            && Elsewhere(a.n, b.n, {kind, Q.SyncInterval, Q.AnnounceInterval})
  {
    var op := if kind == Q.SyncReceipt then Renew else Insert(Q.AnnounceReceipt);
    Peel(Less(a, kind), op, TakeOver(a.f.role));
    BasicSteps(Less(a, kind), Q.AnnounceReceipt, Master);
    TakeOverTimers(Perform(Less(a, kind), op));
  }

  /** Otherwise nothing happens, but that the automotive profile waits for the next Sync. */
  lemma IdleTimeoutTimers(a: Calm, kind: Q.Kind, d: Detail)
    requires kind in a.n && (kind == Q.SyncReceipt || kind == Q.AnnounceReceipt)
    requires a.f.cfg.automotive || a.f.cfg.slaveOnly
    ensures ExpiryDone(a, kind, d)
            == if a.f.cfg.automotive && kind == Q.SyncReceipt then Restarted(a, Q.SyncReceipt) else Less(a, kind)
  {
    One(Less(a, kind), Renew);
  }

  /** The end of an interval begins the next one. */
  lemma IntervalTimers(a: Calm, kind: Q.Kind, d: Detail)
    requires kind in a.n && kind in {Q.SyncInterval, Q.AnnounceInterval, Q.PDelayInterval}
    ensures ExpiryDone(a, kind, d).n[kind] == 1
    ensures kind == Q.PDelayInterval ==>
              ExpiryDone(a, kind, d).n[Q.PDelayRespReceipt] == a.n[Q.PDelayRespReceipt] + 1
  {
    var b := Less(a, kind);
    if kind == Q.SyncInterval {
      PerformSum(b, SyncDone(a.f.cfg, d), [StartSync]);
      One(PerformAll(b, SyncDone(a.f.cfg, d)), StartSync);
    } else if kind == Q.AnnounceInterval {
      One(b, Restart(Q.AnnounceInterval));
    } else {
      Three(b, NewRequest, Insert(Q.PDelayRespReceipt), Restart(Q.PDelayInterval));
      BasicSteps(Perform(b, NewRequest), Q.PDelayRespReceipt, Master);
    }
  }

  /** The end of a halt lets requests be made again, and starts them on a port without a
      role. */
  lemma RecoveryTimers(a: Calm, d: Detail)
    requires Q.PeerMisbehaving in a.n
    ensures var b := ExpiryDone(a, Q.PeerMisbehaving, d);
            !b.f.x.halted && (a.f.role == Initializing ==> b.f.x.started && b.n[Q.PDelayInterval] == 1)
  {
    var b := Less(a, Q.PeerMisbehaving);
    Peel(b, Unhalt, When(a.f.role == Initializing, [StartPDelay]));
    One(Perform(b, Unhalt), StartPDelay);
  }

  /** The end of a SYNC_RATE timer lets another one be started. */
  lemma RateTimers(a: Calm, d: Detail)
    requires Q.SyncRate in a.n
    ensures ExpiryDone(a, Q.SyncRate, d).f == a.f.(rateStarted := false)
    ensures ExpiryDone(a, Q.SyncRate, d).n[Q.SyncReceipt]
            == if d.signals && !a.f.cfg.grandmaster then 1 else a.n[Q.SyncReceipt]
  {
    var b := Less(a, Q.SyncRate);
    Peel(b, ClearRate, When(d.signals && !a.f.cfg.grandmaster, [Renew]));
    One(Perform(b, ClearRate), Renew);
  }

  lemma ElectionProgram(cfg: Config, role: Role, d: Detail)
    requires !cfg.automotive
    ensures d.elected == Some(Master) ==> Callback(cfg, role, Q.StateChange, d) == ToMaster(cfg)
    ensures d.elected == Some(Slave) ==> Callback(cfg, role, Q.StateChange, d) == ToSlave(cfg)
  {
  }

  /** An election that ends with a role enters it. */
  lemma ElectionTimers(a: Calm, d: Detail)
    requires Q.StateChange in a.n && !a.f.cfg.automotive
    ensures d.elected == Some(Master) ==> ExpiryDone(a, Q.StateChange, d) == MasterDone(Less(a, Q.StateChange))
    ensures d.elected == Some(Slave) ==> ExpiryDone(a, Q.StateChange, d) == SlaveDone(Less(a, Q.StateChange))
  {
    var b := Less(a, Q.StateChange);
    ElectionProgram(a.f.cfg, a.f.role, d);
    if d.elected == Some(Master) {
      MasterDoes(b);
    } else if d.elected == Some(Slave) {
      SlaveDoes(b);
    }
  }

  /** Power-up and link-up enter the role of a slave if the port has it or may have no other,
      that of a master if the port has it, and else wait for an announce. */
  lemma EnterTimers(a: Calm)
    ensures PerformAll(a, EnterRole(a.f.cfg, a.f.role))
            == if a.f.cfg.slaveOnly || a.f.role == Slave then SlaveDone(a)
               else if a.f.role == Master then MasterDone(a)
               else Added(a, Q.AnnounceReceipt)
  {
    MasterDoes(a);
    SlaveDoes(a);
    One(a, Insert(Q.AnnounceReceipt));
    BasicSteps(a, Q.AnnounceReceipt, Master);
  }

  lemma EnterKeeps(a: Calm)
    ensures var b := PerformAll(a, EnterRole(a.f.cfg, a.f.role));
            b.f.x == a.f.x && b.f.cfg == a.f.cfg && b.n[Q.PDelayInterval] == a.n[Q.PDelayInterval]
  {
    EnterTimers(a);
  }

  lemma StartsRequests(a: Calm)
    ensures var b := PerformAll(a, [Unhalt, StartPDelay]);
            && !b.f.x.halted && b.f.x.started && b.n[Q.PDelayInterval] == 1
            && b.f.cfg == a.f.cfg && b.f.role == a.f.role
  {
    Peel(a, Unhalt, [StartPDelay]);
    One(Perform(a, Unhalt), StartPDelay);
    assert [Unhalt] + [StartPDelay] == [Unhalt, StartPDelay];
  }

  /** A link that goes down halts requests. */
  lemma LinkDownTimers(a: Calm)
    ensures var b := CallDone(a, LinkDown); b.f.x.halted && !b.f.x.started && b.n[Q.PDelayInterval] == 0
  {
    Peel(a, Halt, [Remove(Q.PDelayInterval)]);
    assert [Halt] + [Remove(Q.PDelayInterval)] == [Halt, Remove(Q.PDelayInterval)];
    One(Perform(a, Halt), Remove(Q.PDelayInterval));
  }

  lemma RenewKeeps(a: Calm, b: bool)
    ensures var c := PerformAll(a, When(b, [Renew])); c.f == a.f && Elsewhere(a.n, c.n, {Q.SyncReceipt})
  {
    One(a, Renew);
  }

  /** One that comes up starts them. */
  lemma LinkUpTimers(a: Calm)
    ensures var b := CallDone(a, LinkUp); !b.f.x.halted && b.f.x.started && b.n[Q.PDelayInterval] == 1
  {
    var p, renews := EnterRole(a.f.cfg, a.f.role), a.f.cfg.automotive && !a.f.cfg.grandmaster;
    PerformSum(a, [Unhalt, StartPDelay] + p, When(renews, [Renew]));
    PerformSum(a, [Unhalt, StartPDelay], p);
    StartsRequests(a);
    EnterKeeps(PerformAll(a, [Unhalt, StartPDelay]));
    RenewKeeps(PerformAll(a, [Unhalt, StartPDelay] + p), renews);
  }

  // ---- timers that are pending twice ------------------------------------------------------

  const STANDARD := Config(false, false, false)
  const AUTOMOTIVE := Config(true, false, false)
  const NOTHING := Detail(false, None, false, false)

  /** A standard port without a role, after power-up. */
  const UP_FLAGS := Flags(STANDARD, Initializing, Running, IDLE.(started := true), false, false)
  const UP := Calm(UP_FLAGS, multiset{Q.AnnounceReceipt, Q.PDelayInterval})

  function New(cfg: Config, role: Role): Calm { Calm(Fresh(cfg, role).f, multiset{}) }

  lemma StandardPrograms()
    ensures Program(STANDARD, Initializing, Announce(true))
            == [Remove(Q.AnnounceReceipt), Insert(Q.StateChange), Insert(Q.AnnounceReceipt)]
    ensures Program(STANDARD, Initializing, LinkUp) == [Unhalt, StartPDelay, Insert(Q.AnnounceReceipt)]
    ensures Program(STANDARD, Initializing, PowerUp) == [Insert(Q.AnnounceReceipt), BootPDelay, Open]
  {
  }

  lemma BootDoes(b: Calm)
    requires b == Calm(Fresh(STANDARD, Initializing).f.(phase := Starting), multiset{Q.AnnounceReceipt})
    ensures Perform(Perform(b, BootPDelay), Open) == UP
  {
  }

  lemma PowerUpDoes()
    ensures CallDone(New(STANDARD, Initializing), PowerUp) == UP
  {
    var a := Calm(Fresh(STANDARD, Initializing).f.(phase := Starting), multiset{});
    StandardPrograms();
    Three(a, Insert(Q.AnnounceReceipt), BootPDelay, Open);
    BasicSteps(a, Q.AnnounceReceipt, Master);
    BootDoes(Added(a, Q.AnnounceReceipt));
    BegunPut(Fresh(STANDARD, Initializing).f, PowerUp);
  }

  lemma PowersUp() returns (es: seq<Event>)
    ensures Rests(Start(STANDARD, Initializing), es, UP) && Calls(es) == [PowerUp]
  {
    AtRest(STANDARD, Initializing);
    PowerUpDoes();
    es := CallRuns(Start(STANDARD, Initializing), [], New(STANDARD, Initializing), PowerUp);
  }

  ghost predicate Twice(cfg: Config, role: Role, es: seq<Event>, kind: Q.Kind) {
    && Runs(Start(cfg, role), es) && Sequential(Start(cfg, role), es)
    && !Q.AtMostOne(After(Start(cfg, role), es).t.q, kind)
  }

  lemma TwoKeys<T>(s: set<T>) returns (x: T, y: T)
    requires |s| >= 2
    ensures x in s && y in s && x != y
  {
    x :| x in s;
    assert |s - {x}| >= 1;
    y :| y in s - {x};
  }

  lemma IsTwice(cfg: Config, role: Role, es: seq<Event>, a: Calm, kind: Q.Kind)
    requires Rests(Start(cfg, role), es, a) && a.n[kind] >= 2
    ensures Twice(cfg, role, es, kind)
  {
    var w :| Reaches(Start(cfg, role), es, w, true) && w.s == Rest(a.f) && Matches(w.t.q, a.n);
    IsRun(Start(cfg, role), es, w, true);
    var k, l := TwoKeys(Q.OfKind(w.t.q, kind));
  }

  lemma AnnounceDoes(n: multiset<Q.Kind>) returns (n': multiset<Q.Kind>)
    ensures CallDone(Calm(UP.f, n), Announce(true)) == Calm(UP.f, n')
    ensures n'[Q.StateChange] == n[Q.StateChange] + 1 && |n'| <= |n| + 2
  {
    var x, y, z := Remove(Q.AnnounceReceipt), Insert(Q.StateChange), Insert(Q.AnnounceReceipt);
    var a := Calm(UP.f, n);
    StandardPrograms();
    Three(a, x, y, z);
    var b := Dropped(a, Q.AnnounceReceipt);
    assert Perform(a, x) == b && Perform(b, y) == Added(b, Q.StateChange);
    n' := Added(Added(b, Q.StateChange), Q.AnnounceReceipt).n;
  }

  /** Two Announce messages leave two STATE_CHANGE timers. */
  lemma StateChangeTwice() returns (es: seq<Event>)
    ensures Twice(STANDARD, Initializing, es, Q.StateChange)
  {
    es := PowersUp();
    var n := AnnounceDoes(UP.n);
    es := CallRuns(Start(STANDARD, Initializing), es, UP, Announce(true));
    var n' := AnnounceDoes(n);
    es := CallRuns(Start(STANDARD, Initializing), es, Calm(UP.f, n), Announce(true));
    IsTwice(STANDARD, Initializing, es, Calm(UP.f, n'), Q.StateChange);
  }

  lemma Unchanged(a: Calm)
    requires !a.f.x.halted && a.f.x.started && a.n[Q.PDelayInterval] == 1
    ensures Perform(a, Unhalt) == a && Started(a) == a
  {
  }

  lemma LinkUpDoes(a: Calm)
    requires a.f == UP.f && a.n[Q.PDelayInterval] == 1
    ensures CallDone(a, LinkUp) == Added(a, Q.AnnounceReceipt)
  {
    StandardPrograms();
    Three(a, Unhalt, StartPDelay, Insert(Q.AnnounceReceipt));
    Unchanged(a);
  }

  /** Power-up and link-up both wait for an announce. */
  lemma AnnounceReceiptTwice() returns (es: seq<Event>)
    ensures Twice(STANDARD, Initializing, es, Q.AnnounceReceipt)
  {
    es := PowersUp();
    LinkUpDoes(UP);
    es := CallRuns(Start(STANDARD, Initializing), es, UP, LinkUp);
    IsTwice(STANDARD, Initializing, es, Added(UP, Q.AnnounceReceipt), Q.AnnounceReceipt);
  }

  lemma SignallingDoes(a: Calm, pdelay: bool)
    ensures CallDone(a, Signalling(pdelay, !pdelay, false))
            == Restarted(a, if pdelay then Q.PDelayInterval else Q.SyncInterval)
  {
    var op := if pdelay then Restart(Q.PDelayInterval) else StartSync;
    assert Program(a.f.cfg, a.f.role, Signalling(pdelay, !pdelay, false)) == [op];
    One(a, op);
  }

  lemma TakeOverDoes(n: multiset<Q.Kind>) returns (b: Calm)
    requires Q.AnnounceReceipt in n
    ensures ExpiryDone(Calm(UP.f, n), Q.AnnounceReceipt, NOTHING) == b
    ensures b.n[Q.SyncInterval] == n[Q.SyncInterval] + 1
  {
    var p := [Insert(Q.AnnounceReceipt), Become(Master), Insert(Q.SyncInterval), Restart(Q.AnnounceInterval)];
    assert Callback(STANDARD, Initializing, Q.AnnounceReceipt, NOTHING) == p;
    var a := Perform(Calm(UP.f, n[Q.AnnounceReceipt := n[Q.AnnounceReceipt] - 1]), p[0]);
    assert p[1..] == [p[1], p[2], p[3]];
    Three(a, p[1], p[2], p[3]);
    b := Perform(Perform(Perform(a, p[1]), p[2]), p[3]);
  }

  /** A port in signalled Sync sending that hears no announce: processSyncAnnounceTimeout
      adds a SYNC_INTERVAL timer to the one that signalling started. */
  lemma SyncIntervalTwice() returns (es: seq<Event>)
    ensures Twice(STANDARD, Initializing, es, Q.SyncInterval)
  {
    es := PowersUp();
    SignallingDoes(UP, false);
    es := CallRuns(Start(STANDARD, Initializing), es, UP, Signalling(false, true, false));
    var n := UP.n[Q.SyncInterval := 1];
    var b := TakeOverDoes(n);
    es := ExpiryRuns(Start(STANDARD, Initializing), es, Calm(UP.f, n), Q.AnnounceReceipt, NOTHING);
    IsTwice(STANDARD, Initializing, es, b, Q.SyncInterval);
  }

  /** A request whose response is awaited, sent and stamped unless halted. */
  lemma IntervalDoes(a: Calm) returns (b: Calm)
    requires Q.PDelayInterval in a.n && a.f.cfg == STANDARD
    ensures ExpiryDone(a, Q.PDelayInterval, NOTHING) == b
    ensures b.f == a.f.(x := a.f.x.(requested := true, unstamped := a.f.x.halted))
    ensures Q.PDelayInterval in b.n && b.n[Q.PDelayRespReceipt] == a.n[Q.PDelayRespReceipt] + 1 && |b.n| <= |a.n| + 2
    ensures b.n[Q.PeerMisbehaving] == a.n[Q.PeerMisbehaving] && b.n[Q.PDelayDeferred] == a.n[Q.PDelayDeferred]
  {
    var x, y, z := NewRequest, Insert(Q.PDelayRespReceipt), Restart(Q.PDelayInterval);
    assert Callback(STANDARD, a.f.role, Q.PDelayInterval, NOTHING) == [x, y, z];
    var a' := a.(n := a.n[Q.PDelayInterval := a.n[Q.PDelayInterval] - 1]);
    Three(a', x, y, z);
    b := Perform(Perform(Perform(a', x), y), z);
  }

  /** Two requests without a response. */
  lemma ResponseReceiptTwice() returns (es: seq<Event>)
    ensures Twice(STANDARD, Initializing, es, Q.PDelayRespReceipt)
  {
    es := PowersUp();
    var b := IntervalDoes(UP);
    es := ExpiryRuns(Start(STANDARD, Initializing), es, UP, Q.PDelayInterval, NOTHING);
    var c := IntervalDoes(b);
    es := ExpiryRuns(Start(STANDARD, Initializing), es, b, Q.PDelayInterval, NOTHING);
    IsTwice(STANDARD, Initializing, es, c, Q.PDelayRespReceipt);
  }

  lemma ResponseDoes(a: Calm, misbehaved: bool)
    ensures CallDone(a, Response(misbehaved)) == Responded(a, misbehaved)
  {
    One(a, TryResponse(misbehaved));
  }

  lemma RespFollowUpDoes(a: Calm, matched: bool)
    ensures CallDone(a, RespFollowUp(matched)) == Followed(a, matched)
  {
    One(a, TryFollowUp(matched));
  }

  /** A port that has a follow-up waiting for the timestamp of a request that a halt
      left unsent. */
  ghost predicate Deferring(a: Calm) {
    && a.f.cfg == STANDARD && a.f.phase == Running && !a.f.dead
    && a.f.x.requested && a.f.x.unstamped && a.f.x.responded
  }

  lemma LinkDownDoes(a: Calm)
    ensures CallDone(a, LinkDown) == Unlinked(a)
  {
    Peel(a, Halt, [Remove(Q.PDelayInterval)]);
    assert [Halt] + [Remove(Q.PDelayInterval)] == [Halt, Remove(Q.PDelayInterval)];
    One(Perform(a, Halt), Remove(Q.PDelayInterval));
  }

  function Unlinked(a: Calm): Calm {
    Dropped(a.(f := a.f.(x := a.f.x.(halted := true, started := false))), Q.PDelayInterval)
  }

  /** The link goes down, so that requests are halted; a signalling message restarts
      PDELAY_INTERVAL all the same; its expiry makes a request that is not sent; and a
      response to it arrives. */
  lemma ReachesDeferring() returns (es: seq<Event>, a: Calm)
    ensures Rests(Start(STANDARD, Initializing), es, a) && Deferring(a) && |a.n| <= 8
  {
    var w0 := Start(STANDARD, Initializing);
    es := PowersUp();
    LinkDownDoes(UP);
    es := CallRuns(w0, es, UP, LinkDown);
    var b := Unlinked(UP);
    SignallingDoes(b, true);
    es := CallRuns(w0, es, b, Signalling(true, false, false));
    var c := Restarted(b, Q.PDelayInterval);
    var d := IntervalDoes(c);
    es := ExpiryRuns(w0, es, c, Q.PDelayInterval, NOTHING);
    ResponseDoes(d, false);
    es := CallRuns(w0, es, d, Response(false));
    a := Responded(d, false);
  }

  /** Each follow-up of that response adds a PDELAY_DEFERRED timer. */
  lemma DeferredAgain(w0: World, es: seq<Event>, a: Calm) returns (es': seq<Event>, b: Calm)
    requires Rests(w0, es, a) && Deferring(a) && |a.n| + 8 < Q.KEYS
    ensures Rests(w0, es', b) && Deferring(b) && b.n[Q.PDelayDeferred] == a.n[Q.PDelayDeferred] + 1
    ensures |b.n| <= |a.n| + 1
  {
    RespFollowUpDoes(a, true);
    es' := CallRuns(w0, es, a, RespFollowUp(true));
    b := Followed(a, true);
  }

  lemma DeferredTwice() returns (es: seq<Event>)
    ensures Twice(STANDARD, Initializing, es, Q.PDelayDeferred)
  {
    var a, b;
    es, a := ReachesDeferring();
    es, b := DeferredAgain(Start(STANDARD, Initializing), es, a);
    es, a := DeferredAgain(Start(STANDARD, Initializing), es, b);
    IsTwice(STANDARD, Initializing, es, a, Q.PDelayDeferred);
  }

  // ---- the race for SYNC_RATE -----------------------------------------------------------------

  const DIFFERS := NOTHING.(differs := true)

  /** An automotive slave after power-up. */
  const SLAVE_FLAGS := Flags(AUTOMOTIVE, Slave, Running, IDLE.(started := true), false, false)
  const SLAVE := Calm(SLAVE_FLAGS, multiset{Q.PDelayInterval, Q.SyncReceipt})

  lemma NothingDropped(a: Calm, kind: Q.Kind)
    requires kind !in a.n
    ensures Perform(a, Remove(kind)) == a
  {
  }

  lemma SlaveEnters(a: Calm)
    requires a.f.role == Slave && a.n == multiset{}
    ensures PerformAll(a, ToSlave(AUTOMOTIVE)) == a
  {
    assert ToSlave(AUTOMOTIVE) == [Remove(Q.AnnounceInterval), Remove(Q.SyncInterval), Become(Slave)];
    Three(a, Remove(Q.AnnounceInterval), Remove(Q.SyncInterval), Become(Slave));
    NothingDropped(a, Q.AnnounceInterval);
    NothingDropped(a, Q.SyncInterval);
  }

  lemma SlaveProgram()
    ensures Program(AUTOMOTIVE, Slave, PowerUp) == ToSlave(AUTOMOTIVE) + [BootPDelay, Open, Renew]
  {
  }

  lemma SlaveBoots(a: Calm)
    requires a == Calm(SLAVE_FLAGS.(phase := Starting, x := IDLE), multiset{})
    ensures PerformAll(a, [BootPDelay, Open, Renew]) == SLAVE
  {
    var b := Calm(SLAVE_FLAGS, multiset{Q.PDelayInterval});
    Three(a, BootPDelay, Open, Renew);
    assert Perform(a, BootPDelay) == b.(f := SLAVE_FLAGS.(phase := Starting));
    assert Perform(b.(f := SLAVE_FLAGS.(phase := Starting)), Open) == b;
  }

  lemma SlaveUpDoes()
    ensures CallDone(New(AUTOMOTIVE, Slave), PowerUp) == SLAVE
  {
    var a := Calm(SLAVE_FLAGS.(phase := Starting, x := IDLE), multiset{});
    SlaveProgram();
    SlaveEnters(a);
    SlaveBoots(a);
    PerformSum(a, ToSlave(AUTOMOTIVE), [BootPDelay, Open, Renew]);
    BegunPut(Fresh(AUTOMOTIVE, Slave).f, PowerUp);
  }

  lemma SlavePowersUp() returns (es: seq<Event>)
    ensures Rests(Start(AUTOMOTIVE, Slave), es, SLAVE)
  {
    AtRest(AUTOMOTIVE, Slave);
    SlaveUpDoes();
    es := CallRuns(Start(AUTOMOTIVE, Slave), [], New(AUTOMOTIVE, Slave), PowerUp);
  }

  lemma AnyPace(w0: World, es: seq<Event>, s: Port, n: multiset<Q.Kind>)
    requires Shows(w0, es, s, n, true)
    ensures Shows(w0, es, s, n, false)
  {
    var w :| Reaches(w0, es, w, true) && w.s == s && Matches(w.t.q, n);
    var ws :| Path(ws, es, true) && ws[0] == w0 && ws[|es|] == w;
    forall i | 0 <= i < |es|
      ensures Linked(ws, es, i, false)
    {
      assert Linked(ws, es, i, true);
    }
    assert Path(ws, es, false);
    assert Reaches(w0, es, w, false);
  }

  const LOOKED := [SetRate, EnsurePDelay, Renew]
  const RACING := Calm(SLAVE_FLAGS, multiset{Q.PDelayInterval, Q.SyncInterval})
  const LOOKING: Port := Rest(SLAVE_FLAGS).(listener := LOOKED)

  lemma UsedProgram()
    ensures Program(AUTOMOTIVE, Slave, FollowUp(Used, DIFFERS))
            == [Remove(Q.SyncReceipt)] + [TestRate, EnsurePDelay, Renew]
  {
  }

  /** A slave that sends and receives Sync: its listening thread has seen that no
      SYNC_RATE timer was started. */
  lemma ListenerLooks() returns (es: seq<Event>)
    ensures Shows(Start(AUTOMOTIVE, Slave), es, LOOKING, RACING.n, false)
  {
    var w0, a := Start(AUTOMOTIVE, Slave), Restarted(SLAVE, Q.SyncInterval);
    es := SlavePowersUp();
    SignallingDoes(SLAVE, false);
    es := CallRuns(w0, es, SLAVE, Signalling(false, true, false));
    BeginRuns(w0, es, a, FollowUp(Used, DIFFERS));
    es := es + [Begin(FollowUp(Used, DIFFERS))];
    AnyPace(w0, es, Begun(Rest(a.f), FollowUp(Used, DIFFERS)), a.n);
    es := ListenerSteps(w0, es, a);
  }

  lemma LookTrace(a: Calm) returns (tr: seq<Spot>)
    requires a == Restarted(SLAVE, Q.SyncInterval)
    ensures Trace(tr, Spot(a, [Remove(Q.SyncReceipt)] + [TestRate, EnsurePDelay, Renew]), Spot(RACING, LOOKED))
  {
    var p := [EnsurePDelay, Renew];
    assert [SetRate] + p == LOOKED && [TestRate] + p == [TestRate, EnsurePDelay, Renew];
    assert Hop(a, Remove(Q.SyncReceipt)) == RACING;
    tr := Before(RACING, TestRate, p, [Spot(RACING, LOOKED)], Spot(RACING, LOOKED));
    tr := Before(a, Remove(Q.SyncReceipt), [TestRate] + p, tr, Spot(RACING, LOOKED));
  }

  lemma BegunLooking(f: Flags)
    requires f == SLAVE_FLAGS
    ensures Begun(Rest(f), FollowUp(Used, DIFFERS))
            == Rest(f).(listener := [Remove(Q.SyncReceipt)] + [TestRate, EnsurePDelay, Renew])
  {
    UsedProgram();
  }

  lemma ListenerSteps(w0: World, es: seq<Event>, a: Calm) returns (es': seq<Event>)
    requires a == Restarted(SLAVE, Q.SyncInterval)
    requires Shows(w0, es, Begun(Rest(a.f), FollowUp(Used, DIFFERS)), a.n, false)
    ensures Shows(w0, es', LOOKING, RACING.n, false)
  {
    var p := [Remove(Q.SyncReceipt)] + [TestRate, EnsurePDelay, Renew];
    BegunLooking(a.f);
    RestIdle(a.f, Listener, a);
    var tr := LookTrace(a);
    es' := TraceRuns(w0, es, false, Rest(a.f), Listener, tr, Spot(a, p), Spot(RACING, LOOKED));
  }

  const RATED := Calm(SLAVE_FLAGS.(rateStarted := true), multiset{Q.PDelayInterval, Q.SyncInterval, Q.SyncRate})

  lemma SendingDoes()
    ensures Callback(AUTOMOTIVE, Slave, Q.SyncInterval, DIFFERS) == [TestRate, EnsurePDelay, StartSync]
    ensures PerformAll(Calm(SLAVE_FLAGS, multiset{Q.PDelayInterval}), [TestRate, EnsurePDelay, StartSync]) == RATED
  {
    var a := Calm(SLAVE_FLAGS, multiset{Q.PDelayInterval});
    var b := Calm(RATED.f, multiset{Q.PDelayInterval, Q.SyncRate});
    Three(a, TestRate, EnsurePDelay, StartSync);
    assert Perform(a, TestRate) == b && Perform(b, EnsurePDelay) == b;
  }

  lemma LookingIdle()
    ensures LOOKING.Others(Timer) == {} && LOOKING.timer == []
    ensures RACING.n[Q.SyncInterval := 0] == multiset{Q.PDelayInterval}
  {
  }

  /** The timer thread finds the same, and starts one. */
  lemma TimerAddsRate(w0: World, es: seq<Event>) returns (es': seq<Event>)
    requires Shows(w0, es, LOOKING, RACING.n, false)
    ensures Shows(w0, es', LOOKING.(f := RATED.f), RATED.n, false)
  {
    LookingIdle();
    var e := Signalled(w0, es, LOOKING, RACING.n, false, Q.SyncInterval, DIFFERS);
    SendingDoes();
    es' := TimerSteps(w0, es + [e], [TestRate, EnsurePDelay, StartSync]);
  }

  lemma SendTrace(a: Calm, p: seq<Op>) returns (tr: seq<Spot>)
    requires a == Calm(SLAVE_FLAGS, multiset{Q.PDelayInterval}) && p == [TestRate, EnsurePDelay, StartSync]
    ensures Trace(tr, Spot(a, p), Spot(RATED, []))
  {
    SendingDoes();
    assert p + [] == p;
    tr := ProgramTrace(a, p, []);
  }

  lemma TimerSteps(w0: World, es: seq<Event>, p: seq<Op>) returns (es': seq<Event>)
    requires p == [TestRate, EnsurePDelay, StartSync]
    requires Shows(w0, es, LOOKING.(timer := p), multiset{Q.PDelayInterval}, false)
    ensures Shows(w0, es', LOOKING.(f := RATED.f), RATED.n, false)
  {
    var a := Calm(SLAVE_FLAGS, multiset{Q.PDelayInterval});
    var tr := SendTrace(a, p);
    LookingIdle();
    es' := TraceRuns(w0, es, false, LOOKING, Timer, tr, Spot(a, p), Spot(RATED, []));
  }

  lemma RateAgainTrace() returns (tr: seq<Spot>)
    ensures Trace(tr, Spot(RATED, LOOKED), Spot(Added(RATED, Q.SyncRate), [EnsurePDelay, Renew]))
  {
    var p := [EnsurePDelay, Renew];
    assert LOOKED == [SetRate] + p && Hop(RATED, SetRate) == RATED;
    tr := DirectTrace(RATED, InsertRate, p);
    tr := Before(RATED, SetRate, p, tr, Spot(Added(RATED, Q.SyncRate), p));
  }

  lemma CountOf(q: Q.Queue, n: multiset<Q.Kind>, kind: Q.Kind)
    requires Matches(q, n)
    ensures |Q.OfKind(q, kind)| == n[kind]
  {
  }

  /** Then the listening thread goes on and starts another. */
  lemma ListenerAddsRate(w0: World, es: seq<Event>) returns (es': seq<Event>, w: World)
    requires Shows(w0, es, LOOKING.(f := RATED.f), RATED.n, false)
    ensures Reaches(w0, es', w, false) && |Q.OfKind(w.t.q, Q.SyncRate)| == 2
  {
    var b := Added(RATED, Q.SyncRate);
    var tr := RateAgainTrace();
    RestIdle(RATED.f, Listener, RATED);
    es' := TraceRuns(w0, es, false, Rest(RATED.f), Listener, tr, Spot(RATED, LOOKED), Spot(b, [EnsurePDelay, Renew]));
    assert b.n[Q.SyncRate] == 2;
    w :| Reaches(w0, es', w, false) && Matches(w.t.q, b.n);
    CountOf(w.t.q, b.n, Q.SyncRate);
  }

  /** The race in syncDone: both threads look at the flag before either sets it, and two
      SYNC_RATE timers are pending. */
  lemma SyncRateRace() returns (es: seq<Event>)
    ensures var w := Start(AUTOMOTIVE, Slave);
            Runs(w, es) && !Q.AtMostOne(After(w, es).t.q, Q.SyncRate)
  {
    var w0 := Start(AUTOMOTIVE, Slave);
    es := ListenerLooks();
    es := TimerAddsRate(w0, es);
    var w;
    es, w := ListenerAddsRate(w0, es);
    IsRun(w0, es, w, false);
    var k, l := TwoKeys(Q.OfKind(w.t.q, Q.SyncRate));
  }

  // ---- misbehaving peers ------------------------------------------------------------------------

  /** The call of the port that a message to the peer-delay exchange makes. */
  function MessageCall(p: D.Port, e: D.Event): Call
    requires e.RxResponse? || e.RxFollowUp?
  {
    if e.RxResponse? then Response(D.Step(p, e).history.misbehaved > p.history.misbehaved)
    else RespFollowUp(p.request.Some? && p.response.Some? && D.Matches(p.request.value.msg, p.response.value.msg, e.f))
  }

  predicate Halts(c: Call) { c.Response? && c.misbehaved }

  function MessageCalls(cfg: D.Config, ms: seq<D.Event>): seq<Call>
    requires D.Messages(ms)
  {
    if ms == [] then []
    else
      var front := ms[..|ms| - 1];
      MessageCalls(cfg, front) + [MessageCall(D.After(cfg, front), ms[|ms| - 1])]
  }

  /** The timers' view of the exchange. */
  ghost predicate Agrees(a: Calm, p: D.Port) {
    && a.f == UP.f.(x := a.f.x) && !p.aborted
    && a.f.x.halted == p.halted && a.f.x.responded == p.response.Some?
    && a.f.x.kept == p.followUp.Some? && (a.f.x.kept ==> Q.PDelayDeferred in a.n)
    && a.f.x.requested == p.request.Some?
    && (p.request.Some? ==>
          p.request.value.msg.stamp.nanoseconds != D.INVALID_NS
          && a.f.x.unstamped == D.Pending(p.request.value.msg.stamp))
    && a.n[Q.PeerMisbehaving] == p.history.misbehaved
  }

  /** What a response does to the parts of the exchange that the timers know. */
  lemma ResponseFrame(p: D.Port, e: D.Event)
    requires !p.aborted && e.RxResponse?
    ensures var q := D.Step(p, e);
            && q.request == p.request && q.followUp == p.followUp && q.response.Some? && !q.aborted
            && (|| (q.history.misbehaved == p.history.misbehaved && q.halted == p.halted)
                || (q.history.misbehaved == p.history.misbehaved + 1 && q.halted))
  {
  }

  lemma ResponseAgrees(a: Calm, p: D.Port, e: D.Event)
    requires Agrees(a, p) && e.RxResponse?
    ensures var misbehaved := D.Step(p, e).history.misbehaved > p.history.misbehaved;
            Agrees(Responded(a, misbehaved), D.Step(p, e))
  {
    ResponseFrame(p, e);
  }

  lemma FollowUpAgrees(a: Calm, p: D.Port, e: D.Event)
    requires Agrees(a, p) && e.RxFollowUp?
    ensures var b := Followed(a, MessageCall(p, e).matched); Agrees(b, D.Step(p, e)) && |b.n| <= |a.n| + 1
  {
  }

  /** On every run of responses and follow-ups the port holds one PEER_MISBEHAVING timer
      for each time the exchange found its peer misbehaving. */
  lemma {:induction false} MisbehaviourTimers(cfg: D.Config, ms: seq<D.Event>) returns (es: seq<Event>, a: Calm)
    requires D.Messages(ms) && |ms| + 20 < Q.KEYS
    ensures Rests(Start(STANDARD, Initializing), es, a) && Calls(es) == [PowerUp] + MessageCalls(cfg, ms)
    ensures Agrees(a, D.After(cfg, ms)) && |a.n| <= |ms| + 2
  {
    if ms == [] {
      es := PowersUp();
      a := UP;
    } else {
      var front, e := ms[..|ms| - 1], ms[|ms| - 1];
      var p := D.After(cfg, front);
      var es', b := MisbehaviourTimers(cfg, front);
      es, a := MessageRuns(es', b, p, e);
      Joined(MessageCalls(cfg, front), [MessageCall(p, e)]);
    }
  }

  lemma MessageRuns(es: seq<Event>, a: Calm, p: D.Port, e: D.Event) returns (es': seq<Event>, b: Calm)
    requires Rests(Start(STANDARD, Initializing), es, a) && Agrees(a, p) && |a.n| + 8 < Q.KEYS
    requires e.RxResponse? || e.RxFollowUp?
    ensures Rests(Start(STANDARD, Initializing), es', b) && Calls(es') == Calls(es) + [MessageCall(p, e)]
    ensures Agrees(b, D.Step(p, e)) && |b.n| <= |a.n| + 1
    ensures Q.PDelayInterval in b.n <==> Q.PDelayInterval in a.n && !Halts(MessageCall(p, e))
  {
    b := MessageDoes(a, p, e);
    es' := CallRuns(Start(STANDARD, Initializing), es, a, MessageCall(p, e));
  }

  lemma MessageDoes(a: Calm, p: D.Port, e: D.Event) returns (b: Calm)
    requires Agrees(a, p) && (e.RxResponse? || e.RxFollowUp?)
    ensures b == CallDone(a, MessageCall(p, e)) && Agrees(b, D.Step(p, e)) && |b.n| <= |a.n| + 1
    ensures Q.PDelayInterval in b.n <==> Q.PDelayInterval in a.n && !Halts(MessageCall(p, e))
  {
    var c := MessageCall(p, e);
    if e.RxResponse? {
      ResponseDoes(a, c.misbehaved);
      ResponseAgrees(a, p, e);
      b := Responded(a, c.misbehaved);
    } else {
      RespFollowUpDoes(a, c.matched);
      FollowUpAgrees(a, p, e);
      b := Followed(a, c.matched);
    }
  }

  /** Messages alone can leave two of them pending. */
  lemma MisbehavingTwice() returns (es: seq<Event>)
    ensures Twice(STANDARD, Initializing, es, Q.PeerMisbehaving)
  {
    var cfg, clock := D.Config(false, 800), [0, 0, 0, 0, 0, 0, 0, 1];
    var ms := D.MisbehavesTwice(cfg, [], D.PortId(clock, 1), D.PortId(clock, 2));
    assert [] + ms == ms;
    var a;
    es, a := MisbehaviourTimers(cfg, ms);
    IsTwice(STANDARD, Initializing, es, a, Q.PeerMisbehaving);
  }

  // ---- a run of the exchange is a run of the timers ----------------------------------------------

  /** What happens to a port after power-up: a response or a follow-up comes; PDELAY_INTERVAL
      expires, and a request is made, and stamped unless requests are halted; the link goes
      down; a signalling message restarts PDELAY_INTERVAL. */
  datatype Happening = Message(e: D.Event) | Request(stamp: Timestamps.Timestamp) | LinkLost | Asked

  /** The events of the exchange, and the calls to the port, that it is. */
  function ExchangeEvents(p: D.Port, h: Happening): seq<D.Event> {
    match h
    case Message(e) => [e]
    case Request(stamp) => if p.halted then [D.Interval] else [D.Interval, D.TxDone(stamp)]
    case LinkLost => [D.LinkDown]
    case Asked => []
  }

  function PortCalls(p: D.Port, h: Happening): seq<Call> {
    match h
    case Message(e) => if e.RxResponse? || e.RxFollowUp? then [MessageCall(p, e)] else []
    case Request(_) => []
    case LinkLost => [LinkDown]
    case Asked => [Signalling(true, false, false)]
  }

  /** Whether PDELAY_INTERVAL is pending after it. */
  predicate TicksOn(p: D.Port, ticking: bool, h: Happening) {
    match h
    case Message(e) => ticking && (e.RxResponse? ==> !Halts(MessageCall(p, e)))
    case Request(_) => true
    case LinkLost => false
    case Asked => true
  }

  predicate MayHappen(ticking: bool, h: Happening) {
    match h
    case Message(e) => e.RxResponse? || e.RxFollowUp?
    case Request(stamp) => ticking && stamp.nanoseconds != D.INVALID_NS && !D.Pending(stamp)
    case _ => true
  }

  function PortAfter(p: D.Port, h: Happening): D.Port {
    match h
    case Message(e) => D.Step(p, e)
    case Request(stamp) =>
      if p.halted then D.Step(p, D.Interval) else D.Step(D.Step(p, D.Interval), D.TxDone(stamp))
    case LinkLost => D.Step(p, D.LinkDown)
    case Asked => p
  }

  function EventsOf(cfg: D.Config, hs: seq<Happening>): seq<D.Event> {
    if hs == [] then []
    else
      var front := EventsOf(cfg, hs[..|hs| - 1]);
      front + ExchangeEvents(D.After(cfg, front), hs[|hs| - 1])
  }

  function PortOf(cfg: D.Config, hs: seq<Happening>): D.Port { D.After(cfg, EventsOf(cfg, hs)) }

  function CallsOf(cfg: D.Config, hs: seq<Happening>): seq<Call> {
    if hs == [] then [] else CallsOf(cfg, hs[..|hs| - 1]) + PortCalls(PortOf(cfg, hs[..|hs| - 1]), hs[|hs| - 1])
  }

  predicate Ticking(cfg: D.Config, hs: seq<Happening>) {
    hs == [] || TicksOn(PortOf(cfg, hs[..|hs| - 1]), Ticking(cfg, hs[..|hs| - 1]), hs[|hs| - 1])
  }

  predicate Possible(cfg: D.Config, hs: seq<Happening>) {
    hs != [] ==> Possible(cfg, hs[..|hs| - 1]) && MayHappen(Ticking(cfg, hs[..|hs| - 1]), hs[|hs| - 1])
  }

  lemma AfterOne(cfg: D.Config, es: seq<D.Event>, e: D.Event)
    ensures D.After(cfg, es + [e]) == D.Step(D.After(cfg, es), e)
  {
    assert (es + [e])[..|es|] == es;
  }

  lemma EventsStep(cfg: D.Config, es: seq<D.Event>, p: D.Port, h: Happening)
    requires p == D.After(cfg, es)
    ensures D.After(cfg, es + ExchangeEvents(p, h)) == PortAfter(p, h)
  {
    match h {
      case Message(e) => AfterOne(cfg, es, e);
      case LinkLost => AfterOne(cfg, es, D.LinkDown);
      case Asked => assert es + [] == es;
      case Request(stamp) =>
        AfterOne(cfg, es, D.Interval);
        AfterOne(cfg, es + [D.Interval], D.TxDone(stamp));
        assert es + [D.Interval] + [D.TxDone(stamp)] == es + [D.Interval, D.TxDone(stamp)];
    }
  }

  /** One happening further. */
  lemma HappensOne(cfg: D.Config, hs: seq<Happening>, h: Happening)
    ensures PortOf(cfg, hs + [h]) == PortAfter(PortOf(cfg, hs), h)
    ensures CallsOf(cfg, hs + [h]) == CallsOf(cfg, hs) + PortCalls(PortOf(cfg, hs), h)
    ensures Ticking(cfg, hs + [h]) <==> TicksOn(PortOf(cfg, hs), Ticking(cfg, hs), h)
    ensures Possible(cfg, hs + [h]) <==> Possible(cfg, hs) && MayHappen(Ticking(cfg, hs), h)
  {
    assert (hs + [h])[..|hs|] == hs;
    EventsStep(cfg, EventsOf(cfg, hs), PortOf(cfg, hs), h);
  }

  lemma RequestAgrees(a: Calm, b: Calm, p: D.Port, h: Happening)
    requires Agrees(a, p) && h.Request? && MayHappen(true, h)
    requires b.f == a.f.(x := a.f.x.(requested := true, unstamped := a.f.x.halted))
    requires b.n[Q.PeerMisbehaving] == a.n[Q.PeerMisbehaving] && (Q.PDelayDeferred in a.n ==> Q.PDelayDeferred in b.n)
    ensures Agrees(b, PortAfter(p, h))
  {
  }

  /** A run to rest that agrees with the exchange. */
  ghost predicate Follows(es: seq<Event>, a: Calm, p: D.Port, ticking: bool) {
    && Rests(Start(STANDARD, Initializing), es, a) && Agrees(a, p)
    && (Q.PDelayInterval in a.n <==> ticking)
  }

  lemma RequestRuns(es: seq<Event>, a: Calm, p: D.Port, h: Happening) returns (es': seq<Event>, b: Calm)
    requires Follows(es, a, p, true) && |a.n| + 8 < Q.KEYS && h.Request? && MayHappen(true, h)
    ensures Follows(es', b, PortAfter(p, h), true) && |b.n| <= |a.n| + 2 && Calls(es') == Calls(es)
  {
    b := IntervalDoes(a);
    es' := ExpiryRuns(Start(STANDARD, Initializing), es, a, Q.PDelayInterval, NOTHING);
    RequestAgrees(a, b, p, h);
  }

  lemma LinkLostAgrees(a: Calm, p: D.Port)
    requires Agrees(a, p)
    ensures Agrees(Unlinked(a), D.Step(p, D.LinkDown))
    ensures Q.PDelayInterval !in Unlinked(a).n && |Unlinked(a).n| <= |a.n|
  {
  }

  lemma LinkLostRuns(es: seq<Event>, a: Calm, p: D.Port, ticking: bool) returns (es': seq<Event>, b: Calm)
    requires Follows(es, a, p, ticking) && |a.n| + 8 < Q.KEYS
    ensures Follows(es', b, D.Step(p, D.LinkDown), false) && |b.n| <= |a.n|
    ensures Calls(es') == Calls(es) + [LinkDown]
  {
    LinkDownDoes(a);
    LinkLostAgrees(a, p);
    es' := CallRuns(Start(STANDARD, Initializing), es, a, LinkDown);
    b := Unlinked(a);
  }

  lemma AskedRuns(es: seq<Event>, a: Calm, p: D.Port, ticking: bool) returns (es': seq<Event>, b: Calm)
    requires Follows(es, a, p, ticking) && |a.n| + 8 < Q.KEYS
    ensures Follows(es', b, p, true) && |b.n| <= |a.n| + 1
    ensures Calls(es') == Calls(es) + [Signalling(true, false, false)]
  {
    SignallingDoes(a, true);
    es' := CallRuns(Start(STANDARD, Initializing), es, a, Signalling(true, false, false));
    b := Restarted(a, Q.PDelayInterval);
  }

  /** What happens to the exchange is done to the timers. */
  lemma Happens(es: seq<Event>, a: Calm, p: D.Port, ticking: bool, h: Happening) returns (es': seq<Event>, b: Calm)
    requires Follows(es, a, p, ticking) && |a.n| + 8 < Q.KEYS && MayHappen(ticking, h)
    ensures Follows(es', b, PortAfter(p, h), TicksOn(p, ticking, h)) && |b.n| <= |a.n| + 2
    ensures Calls(es') == Calls(es) + PortCalls(p, h)
  {
    match h {
      case Message(e) => es', b := MessageRuns(es, a, p, e);
      case Request(_) => es', b := RequestRuns(es, a, p, h);
      case LinkLost => es', b := LinkLostRuns(es, a, p, ticking);
      case Asked => es', b := AskedRuns(es, a, p, ticking);
    }
  }

  lemma UpFollows(cfg: D.Config) returns (es: seq<Event>)
    ensures Follows(es, UP, PortOf(cfg, []), true) && Calls(es) == [PowerUp]
  {
    es := PowersUp();
    assert UP.n[Q.PeerMisbehaving] == 0;
  }

  lemma SameRun(es: seq<Event>, a: Calm, p: D.Port, ticking: bool, q: D.Port, ticks: bool)
    requires Follows(es, a, p, ticking) && q == p && ticks == ticking
    ensures Follows(es, a, q, ticks)
  {
  }

  lemma Joined(calls: seq<Call>, more: seq<Call>)
    ensures [PowerUp] + calls + more == [PowerUp] + (calls + more)
  {
  }

  lemma ExchangeNext(cfg: D.Config, hs: seq<Happening>, h: Happening, es: seq<Event>, a: Calm)
    returns (es': seq<Event>, b: Calm)
    requires Possible(cfg, hs + [h]) && Follows(es, a, PortOf(cfg, hs), Ticking(cfg, hs)) && |a.n| + 8 < Q.KEYS
    ensures Follows(es', b, PortOf(cfg, hs + [h]), Ticking(cfg, hs + [h])) && |b.n| <= |a.n| + 2
    ensures Calls(es') == Calls(es) + PortCalls(PortOf(cfg, hs), h)
  {
    var p, ticking := PortOf(cfg, hs), Ticking(cfg, hs);
    HappensOne(cfg, hs, h);
    es', b := Happens(es, a, p, ticking, h);
    SameRun(es', b, PortAfter(p, h), TicksOn(p, ticking, h), PortOf(cfg, hs + [h]), Ticking(cfg, hs + [h]));
  }

  /** Every possible course of the exchange is a run of the port and its timers, one call at a
      time and with the calls that it makes, and the two agree: on requests, responses and
      follow-ups held, on halts, and on one timer for each misbehaviour found. */
  lemma {:induction false} ExchangeRuns(cfg: D.Config, hs: seq<Happening>) returns (es: seq<Event>, a: Calm)
    requires Possible(cfg, hs) && 2 * |hs| + 20 < Q.KEYS
    ensures Follows(es, a, PortOf(cfg, hs), Ticking(cfg, hs)) && |a.n| <= 2 * |hs| + 2
    ensures Calls(es) == [PowerUp] + CallsOf(cfg, hs)
    decreases |hs|
  {
    if hs == [] {
      es := UpFollows(cfg);
      a := UP;
    } else {
      var front, h := hs[..|hs| - 1], hs[|hs| - 1];
      assert front + [h] == hs;
      var es', b := ExchangeRuns(cfg, front);
      es, a := ExchangeNext(cfg, front, h, es', b);
      Joined(CallsOf(cfg, front), PortCalls(PortOf(cfg, front), h));
    }
  }

  // ---- which kinds are pending at most once -----------------------------------------------------

  /** A run that leaves two timers of a kind pending, one call at a time. */
  lemma TwicePending(kind: Q.Kind) returns (es: seq<Event>)
    requires !Q.Guarded(kind) && kind != Q.SyncRate
    ensures Twice(STANDARD, Initializing, es, kind)
  {
    match kind {
      case StateChange => es := StateChangeTwice();
      case AnnounceReceipt => es := AnnounceReceiptTwice();
      case PDelayDeferred => es := DeferredTwice();
      case PeerMisbehaving => es := MisbehavingTwice();
      case SyncInterval => es := SyncIntervalTwice();
      case PDelayRespReceipt => es := ResponseReceiptTwice();
    }
  }

  ghost predicate OnceAfter(cfg: Config, role: Role, es: seq<Event>, kind: Q.Kind) {
    Runs(Start(cfg, role), es) ==> Q.AtMostOne(After(Start(cfg, role), es).t.q, kind)
  }

  ghost predicate OnceInTurn(cfg: Config, role: Role, es: seq<Event>, kind: Q.Kind) {
    Runs(Start(cfg, role), es) && Sequential(Start(cfg, role), es) ==> OnceAfter(cfg, role, es, kind)
  }

  /** Whatever the threads do at the same time, a kind is pending at most once on every
      run exactly when it is restarted under a lock: PDELAY_INTERVAL, SYNC_RECEIPT and
      ANNOUNCE_INTERVAL. */
  lemma PendingOnce(kind: Q.Kind)
    ensures (forall cfg, role, es :: OnceAfter(cfg, role, es, kind)) <==> Q.Guarded(kind)
  {
    if Q.Guarded(kind) {
      forall cfg, role, es | Runs(Start(cfg, role), es)
        ensures OnceAfter(cfg, role, es, kind)
      {
        StartShape(cfg, role);
        RunKeeps(Start(cfg, role), es);
      }
    } else if kind == Q.SyncRate {
      var es := SyncRateRace();
      assert !OnceAfter(AUTOMOTIVE, Slave, es, kind);
    } else {
      var es := TwicePending(kind);
      assert !OnceAfter(STANDARD, Initializing, es, kind);
    }
  }

  /** One call at a time, SYNC_RATE joins them, and no other. */
  lemma PendingOnceSequentially(kind: Q.Kind)
    ensures (forall cfg, role, es :: OnceInTurn(cfg, role, es, kind)) <==> Q.Guarded(kind) || kind == Q.SyncRate
  {
    if Q.Guarded(kind) {
      PendingOnce(kind);
      assert forall cfg, role, es :: OnceAfter(cfg, role, es, kind) ==> OnceInTurn(cfg, role, es, kind);
    } else if kind == Q.SyncRate {
      forall cfg, role, es | Runs(Start(cfg, role), es) && Sequential(Start(cfg, role), es)
        ensures OnceAfter(cfg, role, es, kind)
      {
        StartRate(cfg, role);
        SequentialRate(Start(cfg, role), es);
      }
    } else {
      var es := TwicePending(kind);
      assert !OnceInTurn(STANDARD, Initializing, es, kind);
    }
  }
}
