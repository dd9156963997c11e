/** The timer thread takes the locks of timers and of the peer-delay exchange inside the
    queue's lock, the other threads the other way round: when they deadlock, that they
    stay so, and which calls may overlap a callback. */
module TimerDeadlock {
  import opened MachineInts
  import opened PortTimers
  import opened TimerRuns
  import D = PeerDelay
  import Q = TimerQueue
  import Timestamps

  // ---- what a deadlock is ------------------------------------------------------------------

  /** Whether a thread that holds the lock of the exchange needs the queue's before it
      gives it back. */
  predicate Needs(x: Pdelay, p: seq<Op>) {
    && p != [] && PutRx in p
    && match p[0]
       case Halt => true
       case TakeFollowUp(matched) => Finds(x, matched)
       case TestStamp => x.unstamped
       case _ => Queued(p[0]).Some?
  }

  /** The timer thread waits for a lock whose holder needs the queue's. */
  predicate Deadlocked(s: Port) {
    && s.timer != []
    && match s.timer[0]
       case Restart(kind) => Own(kind) in s.Others(Timer)
       case LockRx(_) => Needs(s.f.x, s.listener)
       case _ => false
  }

  predicate Exchange(op: Op) {
    || op.NewRequest? || op.TryResponse? || op.HoldResponse? || op.TryFollowUp? || op.TakeFollowUp? || op.LockRx?
    || op.TakeKept? || op.RespRemove? || op.TestStamp? || op.DeferInsert? || op.PutRx?
  }

  ghost predicate Outside(p: seq<Op>) { forall op :: op in p ==> !Exchange(op) }

  /** How the listening thread handles a response or a follow-up. */
  predicate Handling(p: seq<Op>) {
    || (|p| == 1 && (p[0].TryResponse? || p[0].TryFollowUp? || p[0].PutRx?))
    || p == [Halt, Remove(Q.PDelayInterval), Insert(Q.PeerMisbehaving), HoldResponse, PutRx]
    || p == [Remove(Q.PDelayInterval), Insert(Q.PeerMisbehaving), HoldResponse, PutRx]
    || p == [Insert(Q.PeerMisbehaving), HoldResponse, PutRx]
    || (|p| == 2 && p[1].PutRx?
        && (p[0].HoldResponse? || p[0].TakeFollowUp? || p[0].RespRemove? || p[0].TestStamp? || p[0].DeferInsert?))
  }

  /** Only the listening thread and the timer thread take part in the exchange. */
  ghost predicate Parts(s: Port) { (Outside(s.listener) || Handling(s.listener)) && Outside(s.link) && Outside(s.main) }

  lemma OutsideContinues(f: Flags, others: set<Lock>, p: seq<Op>)
    requires Outside(p) && p != []
    ensures Outside(Continue(f, others, p[0]) + p[1..])
  {
    assert p[0] in p && forall op :: op in p[1..] ==> op in p;
  }

  lemma HandlingContinues(f: Flags, others: set<Lock>, p: seq<Op>)
    requires Handling(p)
    ensures var p' := Continue(f, others, p[0]) + p[1..]; Outside(p') || Handling(p')
  {
    if |p| == 1 {
      assert p[1..] == [];
    }
  }

  lemma PartsPlaced(s: Port, th: Thread, p: seq<Op>, s': Port)
    requires Parts(s) && Places(s, th, p, s')
    requires th.Timer? || Outside(p) || (th.Listener? && Handling(p))
    ensures Parts(s')
  {
  }

  lemma StepParts(s: Port, th: Thread)
    requires Parts(s) && s.At(th) != []
    ensures Parts(Stepped(s, th))
  {
    var p := s.At(th);
    StepPlaces(s, th);
    if th.Listener? && Handling(p) {
      HandlingContinues(s.f, s.Others(th), p);
    } else if !th.Timer? {
      OutsideContinues(s.f, s.Others(th), p);
    }
    PartsPlaced(s, th, Continue(s.f, s.Others(th), p[0]) + p[1..], Stepped(s, th));
  }

  lemma OutsideSum(p: seq<Op>, p': seq<Op>)
    requires Outside(p) && Outside(p')
    ensures Outside(p + p')
  {
  }

  lemma UpOutside(cfg: Config, role: Role)
    ensures Outside(Program(cfg, role, PowerUp)) && Outside(Program(cfg, role, LinkUp)) && Outside(ToMaster(cfg))
  {
    var p, q := EnterRole(cfg, role), When(cfg.automotive && !cfg.grandmaster, [Renew]);
    OutsideSum(p, [BootPDelay, Open]);
    OutsideSum(p + [BootPDelay, Open], q);
    OutsideSum([Unhalt, StartPDelay], p);
    OutsideSum([Unhalt, StartPDelay] + p, q);
  }

  lemma ProgramParts(cfg: Config, role: Role, c: Call)
    ensures var p := Program(cfg, role, c); Outside(p) || (Caller(c).Listener? && Handling(p))
  {
    if c.PowerUp? || c.LinkUp? {
      UpOutside(cfg, role);
    } else if c.FollowUp? && c.paired.Forced? {
      UpOutside(cfg, role);
      OutsideSum([Remove(Q.SyncReceipt)], ToMaster(cfg));
    }
  }

  lemma NextParts(w: World, e: Event)
    requires Parts(w.s) && Enabled(w, e)
    ensures Parts(Next(w, e).s)
  {
    match e {
      case Begin(c) =>
        ProgramParts(w.s.f.cfg, w.s.f.role, c);
        BegunPlaces(w.s, c);
        PartsPlaced(w.s, Caller(c), Program(w.s.f.cfg, w.s.f.role, c), Begun(w.s, c));
      case Signal(_, _) =>
      case Step(th) => StepParts(w.s, th);
    }
  }

  lemma {:induction false} RunParts(w: World, es: seq<Event>)
    requires Parts(w.s) && Runs(w, es)
    ensures Parts(After(w, es).s)
    decreases |es|
  {
    if es == [] {
    } else {
      NextParts(w, es[0]);
      RunParts(Next(w, es[0]), es[1..]);
    }
  }

  // ---- a deadlock lasts ----------------------------------------------------------------------

  /** The holder of a timer's own lock needs the queue's. */
  lemma HolderWaits(s: Port, th: Thread, kind: Q.Kind)
    requires s.timer != [] && th != Timer && Own(kind) in Held(s.At(th))
    ensures !Ready(s, th)
  {
  }

  lemma HeldStays(s: Port, th: Thread, kind: Q.Kind, s': Port, p: seq<Op>)
    requires th != Timer && Places(s, th, p, s') && Own(kind) in s.Others(Timer) && Own(kind) !in Held(s.At(th))
    ensures Own(kind) in s'.Others(Timer)
  {
  }

  lemma OutsideKeeps(x: Pdelay, op: Op, p: seq<Op>)
    requires !Exchange(op) && Needs(x, p)
    ensures Needs(Exchanged(x, op), p)
  {
  }

  /** A step of the listening thread that still needs the queue's lock. */
  lemma NeedsStays(s: Port)
    requires s.timer != [] && Ready(s, Listener) && Handling(s.listener) && Needs(s.f.x, s.listener)
    ensures Needs(Stepped(s, Listener).f.x, Stepped(s, Listener).listener)
  {
    var p := s.listener;
    StepPlaces(s, Listener);
    assert p[0] == Halt || p == [p[0], PutRx];
  }

  lemma SteppedFlags(s: Port, th: Thread)
    requires s.At(th) != [] && !Exchange(s.At(th)[0])
    ensures Stepped(s, th).f.x == Exchanged(s.f.x, s.At(th)[0])
  {
  }

  lemma OutsideHead(p: seq<Op>)
    requires p != [] && Outside(p)
    ensures !Exchange(p[0]) && PutRx !in p
  {
    assert p[0] in p;
  }

  lemma StepStuck(s: Port, th: Thread)
    requires Deadlocked(s) && Parts(s) && Ready(s, th)
    ensures th != Timer && Deadlocked(Stepped(s, th)) && Stepped(s, th).timer == s.timer
  {
    StepPlaces(s, th);
    if s.timer[0].Restart? {
      if Own(s.timer[0].kind) in Held(s.At(th)) && th != Timer {
        HolderWaits(s, th, s.timer[0].kind);
      } else if th != Timer {
        HeldStays(s, th, s.timer[0].kind, Stepped(s, th), Continue(s.f, s.Others(th), s.At(th)[0]) + s.At(th)[1..]);
      }
    } else if th.Listener? {
      NeedsStays(s);
    } else if th != Timer {
      OutsideHead(s.At(th));
      SteppedFlags(s, th);
      OutsideKeeps(s.f.x, s.At(th)[0], s.listener);
    }
  }

  lemma BegunStuck(s: Port, c: Call)
    requires Deadlocked(s) && MayBegin(s, c)
    ensures Deadlocked(Begun(s, c)) && Begun(s, c).timer == s.timer
  {
    BegunPlaces(s, c);
    if s.timer[0].Restart? {
      HeldStays(s, Caller(c), s.timer[0].kind, Begun(s, c), Program(s.f.cfg, s.f.role, c));
    }
  }

  lemma NextStuck(w: World, e: Event)
    requires Deadlocked(w.s) && Parts(w.s) && Enabled(w, e)
    ensures Deadlocked(Next(w, e).s) && Next(w, e).s.timer == w.s.timer
  {
    match e {
      case Begin(c) => BegunStuck(w.s, c);
      case Signal(_, _) =>
      case Step(th) => StepStuck(w.s, th);
    }
  }

  /** Whatever happens after a deadlock, the callback never goes on. */
  lemma {:induction false} DeadlockLasts(w: World, es: seq<Event>)
    requires Deadlocked(w.s) && Parts(w.s) && Runs(w, es)
    ensures Deadlocked(After(w, es).s) && After(w, es).s.timer == w.s.timer
    decreases |es|
  {
    if es == [] {
    } else {
      NextStuck(w, es[0]);
      NextParts(w, es[0]);
      DeadlockLasts(Next(w, es[0]), es[1..]);
    }
  }

  /** Until the timer thread can go on. */
  ghost predicate Moves(w: World, es: seq<Event>) { Runs(w, es) && After(w, es).s.timer != w.s.timer }

  lemma TimerGoes(w: World)
    requires Shape(w) && !w.s.f.dead && Q.HasRoom(w.t.q) && Ready(w.s, Timer)
    ensures Enabled(w, Step(Timer)) && Next(w, Step(Timer)).s.timer != w.s.timer
  {
    QueueIsReady(w, Timer);
    StepPlaces(w.s, Timer);
    HeadGoes(w.s.f, w.s.Others(Timer), w.s.timer);
  }

  lemma HeadGoes(f: Flags, others: set<Lock>, p: seq<Op>)
    requires p != []
    ensures Continue(f, others, p[0]) + p[1..] != p
  {
    var c := Continue(f, others, p[0]);
    if |c| == 0 {
      assert |c + p[1..]| < |p|;
    } else {
      assert (c + p[1..])[0] == c[0] != p[0];
    }
  }

  /** What the listening thread still does with the lock of the exchange, if not in need
      of the queue's. */
  predicate Releasing(x: Pdelay, p: seq<Op>) { PutRx in p && !Needs(x, p) }

  lemma ReleaseStep(s: Port)
    requires Handling(s.listener) && Releasing(s.f.x, s.listener)
    ensures Ready(s, Listener) && Queued(s.listener[0]).None?
    ensures var s' := Stepped(s, Listener);
            && s'.timer == s.timer && s'.link == s.link && s'.main == s.main && s'.f.dead == s.f.dead
            && s'.listener == if s.listener == [PutRx] then [] else [PutRx]
  {
    var p := s.listener;
    StepPlaces(s, Listener);
    assert p == [PutRx] || p == [p[0], PutRx];
  }

  /** The same queue and programs, but for the listening thread. */
  predicate Beside(w: World, p: seq<Op>, w': World) {
    && w'.t == w.t && w'.s.timer == w.s.timer && w'.s.link == w.s.link && w'.s.main == w.s.main
    && w'.s.f.dead == w.s.f.dead && w'.s.listener == p
  }

  lemma ReleaseGoes(w0: World, es: seq<Event>, w: World) returns (w': World)
    requires Reaches(w0, es, w, false) && !w.s.f.dead && Handling(w.s.listener) && Releasing(w.s.f.x, w.s.listener)
    ensures Reaches(w0, es + [Step(Listener)], w', false)
    ensures Beside(w, if w.s.listener == [PutRx] then [] else [PutRx], w')
  {
    ReleaseStep(w.s);
    w' := Next(w, Step(Listener));
    Extend(w0, es, w, false, Step(Listener));
  }

  lemma NoEvents(w: World)
    requires Shape(w)
    ensures Reaches(w, [], w, false)
  {
    assert Path([w], [], false);
  }

  lemma PutGoes(w0: World, es: seq<Event>, w: World) returns (w': World)
    requires Reaches(w0, es, w, false) && !w.s.f.dead && w.s.listener == [PutRx]
    ensures Reaches(w0, es + [Step(Listener)], w', false) && Beside(w, [], w')
  {
    w' := ReleaseGoes(w0, es, w);
  }

  /** The listening thread gives the lock of the exchange back. */
  lemma Releases(w: World) returns (es: seq<Event>, w': World)
    requires Shape(w) && !w.s.f.dead && Handling(w.s.listener) && Releasing(w.s.f.x, w.s.listener)
    ensures Reaches(w, es, w', false) && Beside(w, [], w')
  {
    NoEvents(w);
    es := [] + [Step(Listener)];
    if w.s.listener == [PutRx] {
      w' := PutGoes(w, [], w);
    } else {
      var w1 := ReleaseGoes(w, [], w);
      w' := PutGoes(w, es, w1);
      es := es + [Step(Listener)];
    }
  }

  lemma ReleasedReady(w: World, w': World)
    requires Beside(w, [], w') && Parts(w.s) && w.s.timer != [] && w.s.timer[0].LockRx?
    ensures Ready(w'.s, Timer)
  {
    assert PutRx !in w.s.link && PutRx !in w.s.main;
    assert Held(w'.s.listener) == {};
  }

  lemma GoesAfter(w: World, es: seq<Event>, w': World)
    requires Reaches(w, es, w', false) && w'.s.timer == w.s.timer && w'.t == w.t && Ready(w'.s, Timer)
    requires !w'.s.f.dead && Q.HasRoom(w.t.q)
    ensures Moves(w, es + [Step(Timer)])
  {
    ReachedShape(w, es, w', false);
    TimerGoes(w');
    Extend(w, es, w', false, Step(Timer));
    IsRun(w, es + [Step(Timer)], Next(w', Step(Timer)), false);
  }

  lemma NotReady(s: Port)
    requires s.timer != [] && !Ready(s, Timer) && !Deadlocked(s) && Parts(s)
    ensures s.timer[0].LockRx? && Handling(s.listener) && Releasing(s.f.x, s.listener)
  {
    assert PutRx !in s.link && PutRx !in s.main;
    assert Rx in s.Others(Timer) ==> PutRx in s.listener;
  }

  lemma GoesOn(w: World) returns (es: seq<Event>)
    requires Shape(w) && Parts(w.s) && !w.s.f.dead && Q.HasRoom(w.t.q) && w.s.timer != [] && !Deadlocked(w.s)
    ensures Moves(w, es)
  {
    if Ready(w.s, Timer) {
      NoEvents(w);
      GoesAfter(w, [], w);
      es := [] + [Step(Timer)];
    } else {
      NotReady(w.s);
      var es', w' := Releases(w);
      ReleasedReady(w, w');
      GoesAfter(w, es', w');
      es := es' + [Step(Timer)];
    }
  }

  /** In every state that a run can reach, a callback under way can go on if and only if
      the port is not deadlocked. */
  lemma GoesOnUnlessDeadlocked(w: World)
    requires Shape(w) && Parts(w.s) && !w.s.f.dead && Q.HasRoom(w.t.q) && w.s.timer != []
    ensures (exists es :: Moves(w, es)) <==> !Deadlocked(w.s)
  {
    if Deadlocked(w.s) {
      forall es | Runs(w, es)
        ensures !Moves(w, es)
      {
        DeadlockLasts(w, es);
      }
    } else {
      var es := GoesOn(w);
    }
  }

  /** On every run, a callback under way can go on if and only if the port is not
      deadlocked. */
  lemma CallbackGoesOn(cfg: Config, role: Role, es: seq<Event>)
    requires Runs(Start(cfg, role), es)
    requires var w := After(Start(cfg, role), es); !w.s.f.dead && Q.HasRoom(w.t.q) && w.s.timer != []
    ensures var w := After(Start(cfg, role), es); (exists more :: Moves(w, more)) <==> !Deadlocked(w.s)
  {
    StartShape(cfg, role);
    RunKeeps(Start(cfg, role), es);
    RunParts(Start(cfg, role), es);
    GoesOnUnlessDeadlocked(After(Start(cfg, role), es));
  }

  // ---- runs into a deadlock ------------------------------------------------------------------

  /** After es, which does one call at a time, the call c alone begins and the port
      deadlocks. */
  ghost predicate Jams(cfg: Config, role: Role, es: seq<Event>, c: Call, more: seq<Event>) {
    && Runs(Start(cfg, role), es) && Sequential(Start(cfg, role), es) && After(Start(cfg, role), es).s.Quiet()
    && Runs(After(Start(cfg, role), es), more) && Calls(more) == [c]
    && Deadlocked(After(After(Start(cfg, role), es), more).s)
  }

  lemma Jammed(
    cfg: Config, role: Role, es: seq<Event>, w: World, c: Call, more: seq<Event>, s: Port, n: multiset<Q.Kind>)
    requires Reaches(Start(cfg, role), es, w, true) && w.s.Quiet()
    requires Shows(w, more, s, n, false) && Calls(more) == [c] && Deadlocked(s)
    ensures Jams(cfg, role, es, c, more)
  {
    IsRun(Start(cfg, role), es, w, true);
    var w' :| Reaches(w, more, w', false) && w'.s == s && Matches(w'.t.q, n);
    IsRun(w, more, w', false);
  }

  lemma Halfway(cfg: Config, role: Role, es: seq<Event>, a: Calm) returns (w: World)
    requires Rests(Start(cfg, role), es, a)
    ensures Reaches(Start(cfg, role), es, w, true) && w.s == Rest(a.f) && Shows(w, [], Rest(a.f), a.n, false)
  {
    w :| Reaches(Start(cfg, role), es, w, true) && w.s == Rest(a.f) && Matches(w.t.q, a.n);
    ReachedShape(Start(cfg, role), es, w, true);
    NoEvents(w);
  }

  /** A call runs alone up to the program p. */
  lemma CallReaches(w: World, a: Calm, c: Call, tr: seq<Spot>, y: Spot) returns (es: seq<Event>)
    requires Shows(w, [], Rest(a.f), a.n, false) && !a.f.dead && a.f.phase == Running && !c.PowerUp?
    requires Trace(tr, Spot(a, Program(a.f.cfg, a.f.role, c)), y)
    ensures Shows(w, es, Put(Rest(a.f), Caller(c), y), y.a.n, false) && Calls(es) == [c]
  {
    Called(w, [], Rest(a.f), a.n, false, c);
    CallsOn([], Begin(c));
    BegunPut(a.f, c);
    RestIdle(a.f, Caller(c), a);
    es := TraceRuns(w, [] + [Begin(c)], false, Rest(a.f), Caller(c), tr, Spot(a, Program(a.f.cfg, a.f.role, c)), y);
  }

  lemma PutHolds(f: Flags, th: Thread, y: Spot, kind: Q.Kind)
    requires th != Timer && y.p != [] && (y.p[0] == Reset(kind) || y.p[0] == Finish(kind))
    ensures var s := Put(Rest(f), th, y); s.timer == [] && s.f == y.a.f && Own(kind) in s.Others(Timer)
  {
  }

  predicate Direct(op: Op) { op.NewRequest? || op.Insert? || op.Become? }

  lemma DirectStep(s: Port, op: Op, rest: seq<Op>)
    requires s.timer == [op] + rest && Direct(op)
    ensures Ready(s, Timer) && Stepped(s, Timer) == s.(f := Changed(s.f, op), timer := rest)
    ensures Changed(s.f, op).dead == s.f.dead && s.timer[0] == op
  {
    assert s.timer[1..] == rest;
    assert Continue(s.f, s.Others(Timer), op) == [];
    assert [] + rest == rest;
  }

  lemma DirectCount(n: multiset<Q.Kind>, op: Op)
    requires Direct(op)
    ensures |Counted(n, op)| <= |n| + 1
  {
  }

  /** Steps of the timer thread that take no lock. */
  lemma {:induction false} DirectRuns(w: World, es: seq<Event>, s: Port, n: multiset<Q.Kind>, p: seq<Op>, rest: seq<Op>)
    returns (es': seq<Event>, f: Flags, n': multiset<Q.Kind>)
    requires Shows(w, es, s, n, false) && !s.f.dead && |n| + |p| < Q.KEYS && s.timer == p + rest
    requires forall op :: op in p ==> Direct(op)
    ensures Shows(w, es', s.(f := f, timer := rest), n', false) && Calls(es') == Calls(es)
    decreases |p|
  {
    if p == [] {
      assert p + rest == rest;
      es', f, n' := es, s.f, n;
    } else {
      var op := p[0];
      assert s.timer == [op] + (p[1..] + rest);
      DirectStep(s, op, p[1..] + rest);
      DirectCount(n, op);
      Went(w, es, s, n, false, Timer);
      CallsOn(es, Step(Timer));
      var s' := s.(f := Changed(s.f, op), timer := p[1..] + rest);
      es', f, n' := DirectRuns(w, es + [Step(Timer)], s', Counted(n, op), p[1..], rest);
    }
  }

  lemma Blocked(s: Port, f: Flags, kind: Q.Kind)
    requires Own(kind) in s.Others(Timer)
    ensures Deadlocked(s.(f := f, timer := [Restart(kind)]))
  {
  }

  lemma ExpiredOthers(s: Port, kind: Q.Kind, d: Detail)
    ensures Expired(s, kind, d).Others(Timer) == s.Others(Timer) && Expired(s, kind, d).f == s.f
  {
  }

  /** A timer whose callback comes, after other steps, to a lock that another thread holds. */
  lemma ExpiryJams(w: World, es: seq<Event>, s: Port, n: multiset<Q.Kind>, kind: Q.Kind, p: seq<Op>, own: Q.Kind)
    returns (es': seq<Event>, s': Port, n': multiset<Q.Kind>)
    requires Shows(w, es, s, n, false) && !s.f.dead && s.timer == [] && Own(own) in s.Others(Timer)
    requires kind in n && |n| + |p| < Q.KEYS && forall op :: op in p ==> Direct(op)
    requires Callback(s.f.cfg, s.f.role, kind, NOTHING) == p + [Restart(own)]
    ensures Shows(w, es', s', n', false) && Deadlocked(s') && Calls(es') == Calls(es)
  {
    var e := Signalled(w, es, s, n, false, kind, NOTHING);
    CallsOn(es, e);
    ExpiredOthers(s, kind, NOTHING);
    var f;
    es', f, n' := DirectRuns(
      w, es + [e], Expired(s, kind, NOTHING), n[kind := n[kind] - 1], p, [Restart(own)]);
    s' := Expired(s, kind, NOTHING).(f := f, timer := [Restart(own)]);
    Blocked(Expired(s, kind, NOTHING), f, own);
  }

  lemma StandardCallbacks(role: Role)
    ensures Callback(STANDARD, role, Q.PDelayInterval, NOTHING)
            == [NewRequest, Insert(Q.PDelayRespReceipt)] + [Restart(Q.PDelayInterval)]
    ensures Callback(STANDARD, role, Q.AnnounceInterval, NOTHING) == [] + [Restart(Q.AnnounceInterval)]
    ensures Callback(STANDARD, Initializing, Q.AnnounceReceipt, NOTHING)
            == [Insert(Q.AnnounceReceipt), Become(Master), Insert(Q.SyncInterval)] + [Restart(Q.AnnounceInterval)]
  {
  }

  lemma DeferredBlocked(s: Port)
    requires Needs(s.f.x, s.listener)
    ensures Deadlocked(Expired(s, Q.PDelayDeferred, NOTHING))
  {
  }

  /** A follow-up is due for another try while one message is handled. */
  lemma DeferredJams(w: World, es: seq<Event>, s: Port, n: multiset<Q.Kind>) returns (e: Event, s': Port)
    requires Shows(w, es, s, n, false) && !s.f.dead && s.timer == [] && Needs(s.f.x, s.listener)
    requires Q.PDelayDeferred in n
    ensures Shows(w, es + [e], s', n[Q.PDelayDeferred := n[Q.PDelayDeferred] - 1], false)
    ensures Deadlocked(s') && Calls(es + [e]) == Calls(es)
  {
    e := Signalled(w, es, s, n, false, Q.PDelayDeferred, NOTHING);
    CallsOn(es, e);
    DeferredBlocked(s);
    s' := Expired(s, Q.PDelayDeferred, NOTHING);
  }

  /** A call that has taken a timer's own lock, when a callback that needs it begins. */
  lemma OwnJams(cfg: Config, role: Role, es: seq<Event>, a: Calm, c: Call, tr: seq<Spot>, y: Spot,
                own: Q.Kind, kind: Q.Kind, p: seq<Op>) returns (more: seq<Event>)
    requires Rests(Start(cfg, role), es, a) && a.f.phase == Running && !c.PowerUp?
    requires Trace(tr, Spot(a, Program(a.f.cfg, a.f.role, c)), y) && !y.a.f.dead
    requires y.p != [] && (y.p[0] == Reset(own) || y.p[0] == Finish(own))
    requires kind in y.a.n && |y.a.n| + |p| < Q.KEYS && forall op :: op in p ==> Direct(op)
    requires Callback(y.a.f.cfg, y.a.f.role, kind, NOTHING) == p + [Restart(own)]
    ensures Jams(cfg, role, es, c, more)
  {
    var w := Halfway(cfg, role, es, a);
    more := CallReaches(w, a, c, tr, y);
    PutHolds(a.f, Caller(c), y, own);
    var s, n;
    more, s, n := ExpiryJams(w, more, Put(Rest(a.f), Caller(c), y), y.a.n, kind, p, own);
    Jammed(cfg, role, es, w, c, more, s, n);
  }

  /** A message being handled, when PDELAY_DEFERRED expires. */
  lemma RxJams(cfg: Config, role: Role, es: seq<Event>, a: Calm, c: Call, tr: seq<Spot>, y: Spot)
    returns (more: seq<Event>)
    requires Rests(Start(cfg, role), es, a) && a.f.phase == Running && Caller(c) == Listener
    requires Trace(tr, Spot(a, Program(a.f.cfg, a.f.role, c)), y) && !y.a.f.dead
    requires Needs(y.a.f.x, y.p) && Q.PDelayDeferred in y.a.n
    ensures Jams(cfg, role, es, c, more)
  {
    var w := Halfway(cfg, role, es, a);
    more := CallReaches(w, a, c, tr, y);
    var e, s := DeferredJams(w, more, Put(Rest(a.f), Listener, y), y.a.n);
    more := more + [e];
    Jammed(cfg, role, es, w, c, more, s, y.a.n[Q.PDelayDeferred := y.a.n[Q.PDelayDeferred] - 1]);
  }

  lemma TakesOwn(a: Calm, kind: Q.Kind, rest: seq<Op>) returns (tr: seq<Spot>)
    requires !a.f.dead && |a.n| < Q.KEYS
    ensures Trace(tr, Spot(a, [Restart(kind)] + rest), Spot(a, [Reset(kind)] + rest))
  {
    tr := Before(a, Restart(kind), rest, [Spot(a, [Reset(kind)] + rest)], Spot(a, [Reset(kind)] + rest));
  }

  lemma SignallingPrograms(sync: bool, announce: bool)
    ensures Program(STANDARD, Initializing, Signalling(true, sync, announce))
            == [Restart(Q.PDelayInterval)] + (When(sync, [StartSync]) + When(announce, [Restart(Q.AnnounceInterval)]))
    ensures Program(STANDARD, Initializing, Signalling(false, sync, true))
            == When(sync, [StartSync]) + [Restart(Q.AnnounceInterval)]
  {
  }

  /** A signalling message restarts PDELAY_INTERVAL while that timer expires. */
  lemma SignallingJams(sync: bool, announce: bool) returns (es: seq<Event>, more: seq<Event>)
    ensures Jams(STANDARD, Initializing, es, Signalling(true, sync, announce), more)
  {
    es := PowersUp();
    more := SignallingOn(es, UP, sync, announce);
  }

  lemma SignallingOn(es: seq<Event>, a: Calm, sync: bool, announce: bool) returns (more: seq<Event>)
    requires Rests(Start(STANDARD, Initializing), es, a) && a.f == UP.f && Q.PDelayInterval in a.n && |a.n| <= 3
    ensures Jams(STANDARD, Initializing, es, Signalling(true, sync, announce), more)
  {
    var rest := When(sync, [StartSync]) + When(announce, [Restart(Q.AnnounceInterval)]);
    SignallingPrograms(sync, announce);
    var tr := TakesOwn(a, Q.PDelayInterval, rest);
    StandardCallbacks(Initializing);
    more := OwnJams(STANDARD, Initializing, es, a, Signalling(true, sync, announce), tr,
                    Spot(a, [Reset(Q.PDelayInterval)] + rest), Q.PDelayInterval, Q.PDelayInterval,
                    [NewRequest, Insert(Q.PDelayRespReceipt)]);
  }

  lemma AnnouncingTrace(a: Calm, sync: bool) returns (tr: seq<Spot>, b: Calm)
    requires a.f == UP.f && |a.n| + 1 < Q.KEYS && Q.AnnounceReceipt in a.n
    ensures Trace(tr, Spot(a, When(sync, [StartSync]) + [Restart(Q.AnnounceInterval)]),
                  Spot(b, [Finish(Q.AnnounceInterval)]))
    ensures b.f == a.f && Q.AnnounceReceipt in b.n && |b.n| <= |a.n| + 1
  {
    var a' := if sync then Restarted(a, Q.SyncInterval) else a;
    b := Dropped(a', Q.AnnounceInterval);
    var p, y := [Restart(Q.AnnounceInterval)], Spot(b, [Finish(Q.AnnounceInterval)]);
    tr := Before(a', Reset(Q.AnnounceInterval), [], [y], y);
    tr := Before(a', Restart(Q.AnnounceInterval), [], tr, y);
    if sync {
      var first := SyncTrace(a, p);
      tr := TraceJoin(first, Spot(a, [StartSync] + p), Spot(a', p), tr, y);
    }
  }

  /** A signalling message has cancelled ANNOUNCE_INTERVAL and not yet added it again, when
      ANNOUNCE_RECEIPT expires and the port takes over. */
  lemma AnnouncingJams(sync: bool) returns (es: seq<Event>, more: seq<Event>)
    ensures Jams(STANDARD, Initializing, es, Signalling(false, sync, true), more)
  {
    es := PowersUp();
    more := AnnouncingOn(es, UP, sync);
  }

  lemma AnnouncingOn(es: seq<Event>, a: Calm, sync: bool) returns (more: seq<Event>)
    requires Rests(Start(STANDARD, Initializing), es, a) && a.f == UP.f && Q.AnnounceReceipt in a.n && |a.n| <= 3
    ensures Jams(STANDARD, Initializing, es, Signalling(false, sync, true), more)
  {
    SignallingPrograms(sync, true);
    var tr, b := AnnouncingTrace(a, sync);
    StandardCallbacks(Initializing);
    more := OwnJams(STANDARD, Initializing, es, a, Signalling(false, sync, true), tr,
                    Spot(b, [Finish(Q.AnnounceInterval)]), Q.AnnounceInterval, Q.AnnounceReceipt,
                    [Insert(Q.AnnounceReceipt), Become(Master), Insert(Q.SyncInterval)]);
  }

  lemma StartTakes(a: Calm, rest: seq<Op>) returns (tr: seq<Spot>, b: Calm)
    requires !a.f.dead && |a.n| < Q.KEYS && !a.f.x.halted
    ensures Trace(tr, Spot(a, [StartPDelay] + rest), Spot(b, [Reset(Q.PDelayInterval)] + rest))
    ensures b == Calm(a.f.(x := a.f.x.(started := true)), a.n)
  {
    b := Hop(a, StartPDelay);
    tr := TakesOwn(b, Q.PDelayInterval, rest);
    tr := Before(a, StartPDelay, rest, tr, Spot(b, [Reset(Q.PDelayInterval)] + rest));
  }

  lemma LinkUpTrace(a: Calm) returns (tr: seq<Spot>, b: Calm)
    requires a == UP
    ensures Trace(tr, Spot(a, [Unhalt, StartPDelay, Insert(Q.AnnounceReceipt)]),
                  Spot(b, [Reset(Q.PDelayInterval)] + [Insert(Q.AnnounceReceipt)]))
    ensures b == Calm(a.f.(x := a.f.x.(started := true)), a.n)
  {
    var p := [StartPDelay] + [Insert(Q.AnnounceReceipt)];
    assert [Unhalt, StartPDelay, Insert(Q.AnnounceReceipt)] == [Unhalt] + p;
    var a' := Hop(a, Unhalt);
    assert a' == a;
    tr, b := StartTakes(a', [Insert(Q.AnnounceReceipt)]);
    var first := DirectTrace(a, Unhalt, p);
    tr := TraceJoin(first, Spot(a, [Unhalt] + p), Spot(a', p), tr,
                    Spot(b, [Reset(Q.PDelayInterval)] + [Insert(Q.AnnounceReceipt)]));
  }

  /** The link comes up again while PDELAY_INTERVAL expires. */
  lemma LinkUpJams() returns (es: seq<Event>, more: seq<Event>)
    ensures Jams(STANDARD, Initializing, es, LinkUp, more)
  {
    es := PowersUp();
    StandardPrograms();
    var tr, b := LinkUpTrace(UP);
    StandardCallbacks(Initializing);
    more := OwnJams(STANDARD, Initializing, es, UP, LinkUp, tr,
                    Spot(b, [Reset(Q.PDelayInterval)] + [Insert(Q.AnnounceReceipt)]),
                    Q.PDelayInterval, Q.PDelayInterval, [NewRequest, Insert(Q.PDelayRespReceipt)]);
  }

  lemma AnnouncingDoes(a: Calm)
    requires a.f.cfg == STANDARD
    ensures CallDone(a, Signalling(false, false, true)) == Restarted(a, Q.AnnounceInterval)
  {
    assert Program(STANDARD, a.f.role, Signalling(false, false, true)) == [Restart(Q.AnnounceInterval)];
    One(a, Restart(Q.AnnounceInterval));
  }

  const FORCED := [Remove(Q.SyncReceipt), Become(Master), Remove(Q.AnnounceReceipt), Remove(Q.SyncReceipt)]

  lemma ForcedProgram(d: Detail)
    ensures Program(STANDARD, Initializing, FollowUp(Forced, d))
            == FORCED + ([Restart(Q.AnnounceInterval)] + [StartSync])
  {
  }

  lemma ForcedDoes(a: Calm)
    requires Q.AnnounceInterval in a.n && a.f.cfg == STANDARD
    ensures var b := PerformAll(a, FORCED); Q.AnnounceInterval in b.n && |b.n| <= |a.n| && b.f.cfg == STANDARD
  {
    var b := Perform(a, FORCED[0]);
    assert FORCED[1..] == [FORCED[1], FORCED[2], FORCED[3]];
    Three(b, FORCED[1], FORCED[2], FORCED[3]);
  }

  /** A follow-up makes the port master while ANNOUNCE_INTERVAL expires. */
  lemma ForcedJams(c: Call) returns (es: seq<Event>, more: seq<Event>)
    requires c.FollowUp? && c.paired.Forced?
    ensures Jams(STANDARD, Initializing, es, c, more)
  {
    var a := Restarted(UP, Q.AnnounceInterval);
    es := PowersUp();
    AnnouncingDoes(UP);
    es := CallRuns(Start(STANDARD, Initializing), es, UP, Signalling(false, false, true));
    more := ForcedOn(es, a, c);
  }

  lemma ForcedTrace(a: Calm, d: Detail) returns (tr: seq<Spot>, b: Calm)
    requires a == Restarted(UP, Q.AnnounceInterval)
    ensures Trace(tr, Spot(a, Program(STANDARD, Initializing, FollowUp(Forced, d))),
                  Spot(b, [Reset(Q.AnnounceInterval)] + [StartSync]))
    ensures Q.AnnounceInterval in b.n && |b.n| <= 3 && b.f.cfg == STANDARD && !b.f.dead
  {
    var p := [Restart(Q.AnnounceInterval)] + [StartSync];
    ForcedProgram(d);
    ForcedDoes(a);
    b := PerformAll(a, FORCED);
    var first := ProgramTrace(a, FORCED, p);
    tr := TakesOwn(b, Q.AnnounceInterval, [StartSync]);
    tr := TraceJoin(first, Spot(a, FORCED + p), Spot(b, p), tr, Spot(b, [Reset(Q.AnnounceInterval)] + [StartSync]));
  }

  lemma ForcedOn(es: seq<Event>, a: Calm, c: Call) returns (more: seq<Event>)
    requires c.FollowUp? && c.paired.Forced?
    requires Rests(Start(STANDARD, Initializing), es, a) && a == Restarted(UP, Q.AnnounceInterval)
    ensures Jams(STANDARD, Initializing, es, c, more)
  {
    var tr, b := ForcedTrace(a, c.d);
    StandardCallbacks(b.f.role);
    more := OwnJams(STANDARD, Initializing, es, a, c, tr,
                    Spot(b, [Reset(Q.AnnounceInterval)] + [StartSync]), Q.AnnounceInterval, Q.AnnounceInterval, []);
  }

  /** A standard slave, which does not start requests at power-up. */
  const MUTE_FLAGS := Flags(STANDARD, Slave, Running, IDLE, false, false)

  lemma MuteProgram()
    ensures Program(STANDARD, Slave, PowerUp)
            == [Remove(Q.AnnounceInterval), Remove(Q.SyncInterval), Become(Slave)]
               + [Insert(Q.AnnounceReceipt), BootPDelay, Open]
  {
  }

  lemma MuteDoes()
    ensures CallDone(New(STANDARD, Slave), PowerUp) == Calm(MUTE_FLAGS, multiset{Q.AnnounceReceipt})
  {
    var a := Calm(MUTE_FLAGS.(phase := Starting), multiset{});
    var x, y, z := Remove(Q.AnnounceInterval), Remove(Q.SyncInterval), Become(Slave);
    MuteProgram();
    NothingDropped(a, Q.AnnounceInterval);
    NothingDropped(a, Q.SyncInterval);
    Three(a, x, y, z);
    PerformSum(a, [x, y, z], [Insert(Q.AnnounceReceipt), BootPDelay, Open]);
    MuteBoots(a);
    BegunPut(Fresh(STANDARD, Slave).f, PowerUp);
  }

  lemma MuteBoots(a: Calm)
    requires a == Calm(MUTE_FLAGS.(phase := Starting), multiset{})
    ensures PerformAll(a, [Insert(Q.AnnounceReceipt), BootPDelay, Open])
            == Calm(MUTE_FLAGS, multiset{Q.AnnounceReceipt})
  {
    Three(a, Insert(Q.AnnounceReceipt), BootPDelay, Open);
    assert Perform(a, Insert(Q.AnnounceReceipt)) == Added(a, Q.AnnounceReceipt);
  }

  lemma StandardUsed(d: Detail)
    ensures Program(STANDARD, Slave, FollowUp(Used, d)) == [Remove(Q.SyncReceipt)] + ([EnsurePDelay] + [Renew])
  {
  }

  lemma UsedTrace(a: Calm, d: Detail) returns (tr: seq<Spot>, b: Calm)
    requires a.f == MUTE_FLAGS && Q.PDelayInterval in a.n && |a.n| < Q.KEYS
    ensures Trace(tr, Spot(a, Program(STANDARD, Slave, FollowUp(Used, d))),
                  Spot(b, [Reset(Q.PDelayInterval)] + [Renew]))
    ensures Q.PDelayInterval in b.n && |b.n| <= |a.n| && b.f.cfg == STANDARD && !b.f.dead
  {
    var a' := Hop(a, Remove(Q.SyncReceipt));
    tr, b := StartTakes(a', [Renew]);
    tr := Before(a', EnsurePDelay, [Renew], tr, Spot(b, [Reset(Q.PDelayInterval)] + [Renew]));
    var p := [EnsurePDelay] + [Renew];
    var first := DirectTrace(a, Remove(Q.SyncReceipt), p);
    tr := TraceJoin(first, Spot(a, [Remove(Q.SyncReceipt)] + p), Spot(a', p), tr,
                    Spot(b, [Reset(Q.PDelayInterval)] + [Renew]));
    StandardUsed(d);
  }

  /** The first Sync of a slave that was signalled to send requests starts them again,
      while PDELAY_INTERVAL expires. */
  lemma UsedJams(c: Call) returns (es: seq<Event>, more: seq<Event>)
    requires c.FollowUp? && c.paired.Used?
    ensures Jams(STANDARD, Slave, es, c, more)
  {
    var a := Calm(MUTE_FLAGS, multiset{Q.AnnounceReceipt});
    AtRest(STANDARD, Slave);
    MuteDoes();
    es := CallRuns(Start(STANDARD, Slave), [], New(STANDARD, Slave), PowerUp);
    SignallingDoes(a, true);
    es := CallRuns(Start(STANDARD, Slave), es, a, Signalling(true, false, false));
    more := UsedOn(es, Restarted(a, Q.PDelayInterval), c);
  }

  lemma UsedOn(es: seq<Event>, a: Calm, c: Call) returns (more: seq<Event>)
    requires c.FollowUp? && c.paired.Used?
    requires Rests(Start(STANDARD, Slave), es, a) && a.f == MUTE_FLAGS && Q.PDelayInterval in a.n && |a.n| <= 3
    ensures Jams(STANDARD, Slave, es, c, more)
  {
    var tr, b := UsedTrace(a, c.d);
    StandardCallbacks(b.f.role);
    more := OwnJams(STANDARD, Slave, es, a, c, tr, Spot(b, [Reset(Q.PDelayInterval)] + [Renew]),
                    Q.PDelayInterval, Q.PDelayInterval, [NewRequest, Insert(Q.PDelayRespReceipt)]);
  }

  // The messages of two peers to a port.

  const ZERO := Timestamps.Timestamp(0, 0, 0, 0)
  const ALICE := D.PortId([0, 0, 0, 0, 0, 0, 0, 1], 1)
  const BOB := D.PortId([0, 0, 0, 0, 0, 0, 0, 2], 2)

  function Answer(id: uint16, from: D.PortId): Happening {
    Message(D.RxResponse(D.Response(id, from, ALICE, ZERO, ZERO)))
  }

  function Completion(id: uint16, from: D.PortId): Happening {
    Message(D.RxFollowUp(D.FollowUp(id, from, ALICE, ZERO)))
  }

  /** An exchange at rest: the next request has this id, and k duplicates in a row, the last
      of them with this id, were counted. */
  ghost predicate AtEase(p: D.Port, next: nat, k: nat, last: nat) {
    && !p.aborted && !p.halted && p.response.None? && p.followUp.None? && p.nextSeq == next
    && p.dupCounter == k && (k > 0 ==> p.lastInvalid == last) && p.history.misbehaved == 0
  }

  ghost predicate RestsAt(cfg: D.Config, hs: seq<Happening>, next: nat, k: nat, last: nat) {
    Possible(cfg, hs) && Ticking(cfg, hs) && AtEase(PortOf(cfg, hs), next, k, last)
  }

  lemma Asks(cfg: D.Config, hs: seq<Happening>, next: nat, k: nat, last: nat) returns (hs': seq<Happening>)
    requires RestsAt(cfg, hs, next, k, last) && next < 100
    ensures RestsAt(cfg, hs', next + 1, k, last) && |hs'| == |hs| + 1
  {
    hs' := hs + [Request(ZERO)];
    AsksNext(PortOf(cfg, hs), next, k, last);
    HappensOne(cfg, hs, Request(ZERO));
  }

  lemma AsksNext(p: D.Port, next: nat, k: nat, last: nat)
    requires AtEase(p, next, k, last) && next < 100
    ensures AtEase(PortAfter(p, Request(ZERO)), next + 1, k, last)
  {
  }

  /** Two answers with one id from different ports, and a follow-up that ends the exchange. */
  lemma DuplicateCounts(p: D.Port, id: uint16, next: nat, k: nat, last: nat)
    requires AtEase(p, next, k, last) && k < 2 && (k > 0 ==> id == last + 1) && id < 100
    ensures var p1 := PortAfter(p, Answer(id, ALICE));
            var p2 := PortAfter(p1, Answer(id, BOB));
            && AtEase(PortAfter(p2, Completion(id + 1, ALICE)), next, k + 1, id)
            && !Halts(MessageCall(p, Answer(id, ALICE).e)) && !Halts(MessageCall(p1, Answer(id, BOB).e))
  {
    var p1 := PortAfter(p, Answer(id, ALICE));
    assert p1.response.value.msg.seqId == id && p1.dupCounter == k && p1.lastInvalid == p.lastInvalid;
    var p2 := PortAfter(p1, Answer(id, BOB));
    assert p2.dupCounter == k + 1 && p2.lastInvalid == id && p2.response.value.msg.seqId == id;
  }

  /** A course that leads to a state of the exchange. */
  ghost predicate LeadsTo(cfg: D.Config, hs: seq<Happening>, p: D.Port, ticking: bool) {
    Possible(cfg, hs) && PortOf(cfg, hs) == p && Ticking(cfg, hs) == ticking
  }

  lemma LeadsOn(cfg: D.Config, hs: seq<Happening>, p: D.Port, ticking: bool, h: Happening)
    requires LeadsTo(cfg, hs, p, ticking) && MayHappen(ticking, h)
    ensures LeadsTo(cfg, hs + [h], PortAfter(p, h), TicksOn(p, ticking, h))
  {
    HappensOne(cfg, hs, h);
  }

  lemma AnswersTwice(cfg: D.Config, hs: seq<Happening>, id: uint16, next: nat, k: nat, last: nat)
    returns (hs': seq<Happening>)
    requires RestsAt(cfg, hs, next, k, last) && k < 2 && (k > 0 ==> id == last + 1) && id < 100
    ensures RestsAt(cfg, hs', next, k + 1, id) && |hs'| == |hs| + 3
  {
    var x, y, z, p := Answer(id, ALICE), Answer(id, BOB), Completion(id + 1, ALICE), PortOf(cfg, hs);
    DuplicateCounts(p, id, next, k, last);
    var p1 := PortAfter(p, x);
    LeadsOn(cfg, hs, p, true, x);
    LeadsOn(cfg, hs + [x], p1, true, y);
    LeadsOn(cfg, hs + [x] + [y], PortAfter(p1, y), true, z);
    hs' := hs + [x] + [y] + [z];
  }

  /** A follow-up waits for the timestamp of a request that was never sent, and the response
      to that request is still held. */
  ghost predicate AwaitsStamp(p: D.Port, id: uint16, k: nat, last: nat) {
    && !p.aborted && p.halted && p.followUp.Some?
    && p.request.Some? && p.request.value.msg.seqId == id && D.Pending(p.request.value.msg.stamp)
    && p.response.Some? && p.response.value.msg == D.Response(id, ALICE, ALICE, ZERO, ZERO)
    && p.dupCounter == k && (k > 0 ==> p.lastInvalid == last) && p.history.misbehaved == 0
  }

  lemma WaitsThen(p: D.Port, next: uint16, k: nat, last: nat)
    requires AtEase(p, next, k, last) && next < 100
    ensures var p1 := PortAfter(PortAfter(p, LinkLost), Request(ZERO));
            var p2 := PortAfter(p1, Answer(next, ALICE));
            AwaitsStamp(PortAfter(p2, Completion(next, ALICE)), next, k, last)
  {
    var p1 := PortAfter(PortAfter(p, LinkLost), Request(ZERO));
    assert p1.request.value.msg.seqId == next && D.Pending(p1.request.value.msg.stamp) && p1.response.None?;
    var p2 := PortAfter(p1, Answer(next, ALICE));
    assert p2.request == p1.request && p2.response.value.msg == D.Response(next, ALICE, ALICE, ZERO, ZERO);
  }

  lemma GoesDown(cfg: D.Config, hs: seq<Happening>, next: uint16, k: nat, last: nat) returns (hs': seq<Happening>)
    requires RestsAt(cfg, hs, next, k, last) && next < 100
    ensures Possible(cfg, hs') && AwaitsStamp(PortOf(cfg, hs'), next, k, last) && |hs'| == |hs| + 5
  {
    var u, v, p := Answer(next, ALICE), Completion(next, ALICE), PortOf(cfg, hs);
    WaitsThen(p, next, k, last);
    var p1 := PortAfter(p, LinkLost);
    LeadsOn(cfg, hs, p, true, LinkLost);
    LeadsOn(cfg, hs + [LinkLost], p1, false, Asked);
    var hs1 := hs + [LinkLost] + [Asked];
    hs' := AnswersAndWaits(cfg, hs1, p1, u, v);
  }

  lemma AnswersAndWaits(cfg: D.Config, hs: seq<Happening>, p: D.Port, u: Happening, v: Happening)
    returns (hs': seq<Happening>)
    requires LeadsTo(cfg, hs, p, true) && u.Message? && v.Message? && MayHappen(true, u) && MayHappen(true, v)
    ensures Possible(cfg, hs') && |hs'| == |hs| + 3
    ensures PortOf(cfg, hs') == PortAfter(PortAfter(PortAfter(p, Request(ZERO)), u), v)
  {
    var p1 := PortAfter(p, Request(ZERO));
    LeadsOn(cfg, hs, p, true, Request(ZERO));
    var hs1 := hs + [Request(ZERO)];
    LeadsOn(cfg, hs1, p1, true, u);
    LeadsOn(cfg, hs1 + [u], PortAfter(p1, u), TicksOn(p1, true, u), v);
    hs' := hs1 + [u] + [v];
  }

  lemma Begins(cfg: D.Config)
    ensures RestsAt(cfg, [], 0, 0, 0)
  {
  }

  /** A course of the exchange after which a follow-up waits, and, with two duplicates counted,
      the next answer shows misbehaviour. */
  lemma CourseWaits(cfg: D.Config, counted: bool) returns (hs: seq<Happening>)
    ensures Possible(cfg, hs) && |hs| <= 13
    ensures AwaitsStamp(PortOf(cfg, hs), if counted then 2 else 0, if counted then 2 else 0, if counted then 1 else 0)
  {
    Begins(cfg);
    hs := [];
    if counted {
      hs := Asks(cfg, hs, 0, 0, 0);
      hs := Asks(cfg, hs, 1, 0, 0);
      hs := AnswersTwice(cfg, hs, 0, 2, 0, 0);
      hs := AnswersTwice(cfg, hs, 1, 2, 1, 0);
      hs := GoesDown(cfg, hs, 2, 2, 1);
    } else {
      hs := GoesDown(cfg, hs, 0, 0, 0);
    }
  }

  /** The message that is the call: the third duplicate, or the follow-up once more. */
  lemma WaitingCalls(p: D.Port, counted: bool)
    requires AwaitsStamp(p, if counted then 2 else 0, if counted then 2 else 0, if counted then 1 else 0)
    ensures counted ==> MessageCall(p, Answer(2, BOB).e) == Response(true)
    ensures !counted ==> MessageCall(p, Completion(0, ALICE).e) == RespFollowUp(true)
  {
  }

  /** A response that shows misbehaviour, or a follow-up, is handled while PDELAY_DEFERRED
      expires.  The call is that of a message, after a course of requests, messages, a link
      that goes down and a signalling message, which makes the other calls. */
  lemma ExchangeJams(cfg: D.Config, c: Call)
    returns (hs: seq<Happening>, e: D.Event, es: seq<Event>, more: seq<Event>)
    requires c == Response(true) || c == RespFollowUp(true)
    ensures Jams(STANDARD, Initializing, es, c, more)
    ensures Possible(cfg, hs) && Calls(es) == [PowerUp] + CallsOf(cfg, hs)
    ensures (e.RxResponse? || e.RxFollowUp?) && c == MessageCall(PortOf(cfg, hs), e)
  {
    hs := CourseWaits(cfg, c.Response?);
    e := if c.Response? then Answer(2, BOB).e else Completion(0, ALICE).e;
    WaitingCalls(PortOf(cfg, hs), c.Response?);
    var a;
    es, a := ExchangeRuns(cfg, hs);
    more := ExchangeOn(es, a, c);
  }

  lemma ExchangeTrace(a: Calm, c: Call) returns (tr: seq<Spot>, p: seq<Op>)
    requires c == Response(true) || c == RespFollowUp(true)
    requires Deferring(a) && |a.n| < Q.KEYS
    ensures Trace(tr, Spot(a, Program(a.f.cfg, a.f.role, c)), Spot(a, p)) && Needs(a.f.x, p)
  {
    var op := if c.Response? then TryResponse(true) else TryFollowUp(true);
    p := Continue(a.f, {}, op) + [];
    assert p == Continue(a.f, {}, op);
    assert Program(a.f.cfg, a.f.role, c) == [op] + [];
    tr := Before(a, op, [], [Spot(a, p)], Spot(a, p));
  }

  lemma ExchangeOn(es: seq<Event>, a: Calm, c: Call) returns (more: seq<Event>)
    requires c == Response(true) || c == RespFollowUp(true)
    requires Rests(Start(STANDARD, Initializing), es, a) && Deferring(a) && Q.PDelayDeferred in a.n && |a.n| < Q.KEYS
    ensures Jams(STANDARD, Initializing, es, c, more)
  {
    var tr, p := ExchangeTrace(a, c);
    more := RxJams(STANDARD, Initializing, es, a, c, tr, Spot(a, p));
  }

  // A grandmaster of the automotive profile starts requests from two threads at power-up.

  const GRANDMASTER := Config(true, false, true)
  const MASTER_FLAGS := Flags(GRANDMASTER, Master, Starting, IDLE, false, false)
  const TO_MASTER := [Become(Master), Remove(Q.AnnounceReceipt), Remove(Q.SyncReceipt), StartSync]
  const BOOTED := [StartPDelay, Open]

  lemma MasterProgram()
    ensures Program(GRANDMASTER, Master, PowerUp) == TO_MASTER + [BootPDelay, Open]
  {
  }

  lemma MasterEnters(a: Calm)
    requires a == Calm(MASTER_FLAGS, multiset{})
    ensures PerformAll(a, TO_MASTER) == Calm(MASTER_FLAGS, multiset{Q.SyncInterval})
  {
    assert Perform(a, TO_MASTER[0]) == a;
    assert TO_MASTER[1..] == [TO_MASTER[1], TO_MASTER[2], TO_MASTER[3]];
    NothingDropped(a, Q.AnnounceReceipt);
    NothingDropped(a, Q.SyncReceipt);
    Three(a, TO_MASTER[1], TO_MASTER[2], TO_MASTER[3]);
  }

  lemma BootTrace(a: Calm) returns (tr: seq<Spot>)
    requires a == Calm(MASTER_FLAGS, multiset{Q.SyncInterval})
    ensures Trace(tr, Spot(a, [BootPDelay, Open]), Spot(a, BOOTED))
  {
    assert [BootPDelay, Open] == [BootPDelay] + [Open] && BOOTED == [StartPDelay] + [Open];
    tr := Before(a, BootPDelay, [Open], [Spot(a, BOOTED)], Spot(a, BOOTED));
  }

  lemma MasterTrace(a: Calm) returns (tr: seq<Spot>)
    requires a == Calm(MASTER_FLAGS, multiset{})
    ensures Trace(tr, Spot(a, TO_MASTER + [BootPDelay, Open]),
                  Spot(Calm(MASTER_FLAGS, multiset{Q.SyncInterval}), BOOTED))
  {
    var b := Calm(MASTER_FLAGS, multiset{Q.SyncInterval});
    MasterEnters(a);
    var first := ProgramTrace(a, TO_MASTER, [BootPDelay, Open]);
    tr := BootTrace(b);
    tr := TraceJoin(first, Spot(a, TO_MASTER + [BootPDelay, Open]), Spot(b, [BootPDelay, Open]),
                    tr, Spot(b, BOOTED));
  }

  lemma MasterBegun()
    ensures Begun(Fresh(GRANDMASTER, Master), PowerUp)
            == Rest(MASTER_FLAGS).(main := TO_MASTER + [BootPDelay, Open])
  {
    MasterProgram();
  }

  /** The main thread is about to start requests, and SYNC_INTERVAL is pending. */
  lemma MasterBoots(w: World) returns (es: seq<Event>)
    requires w == Start(GRANDMASTER, Master)
    ensures Shows(w, es, Rest(MASTER_FLAGS).(main := BOOTED), multiset{Q.SyncInterval}, false) && Calls(es) == [PowerUp]
  {
    var a := Calm(MASTER_FLAGS, multiset{});
    AtRest(GRANDMASTER, Master);
    AnyPace(w, [], Fresh(GRANDMASTER, Master), multiset{});
    Called(w, [], Fresh(GRANDMASTER, Master), multiset{}, false, PowerUp);
    CallsOn([], Begin(PowerUp));
    MasterBegun();
    var tr := MasterTrace(a);
    RestIdle(MASTER_FLAGS, Main, a);
    es := TraceRuns(w, [] + [Begin(PowerUp)], false, Rest(MASTER_FLAGS), Main, tr,
                    Spot(a, TO_MASTER + [BootPDelay, Open]),
                    Spot(Calm(MASTER_FLAGS, multiset{Q.SyncInterval}), BOOTED));
  }

  const STARTED_FLAGS := MASTER_FLAGS.(x := IDLE.(started := true))

  function Both(f: Flags, timer: seq<Op>, main: seq<Op>): Port { Rest(f).(timer := timer, main := main) }

  lemma MasterSteps()
    ensures Expired(Rest(MASTER_FLAGS).(main := BOOTED), Q.SyncInterval, NOTHING)
            == Both(MASTER_FLAGS, [EnsurePDelay, StartSync], BOOTED)
  {
  }

  lemma EnsureStep(f: Flags, main: seq<Op>)
    requires f == MASTER_FLAGS && main == BOOTED
    ensures var s := Both(f, [EnsurePDelay, StartSync], main);
            Ready(s, Timer) && Stepped(s, Timer) == Both(f, [StartPDelay, StartSync], main)
  {
  }

  lemma MainSteps(f: Flags, timer: seq<Op>)
    requires f == MASTER_FLAGS && timer == [StartPDelay, StartSync]
    ensures var s := Both(f, timer, BOOTED);
            && Ready(s, Main)
            && Stepped(s, Main) == Both(STARTED_FLAGS, timer, [Restart(Q.PDelayInterval), Open])
    ensures var s := Both(STARTED_FLAGS, timer, [Restart(Q.PDelayInterval), Open]);
            && Ready(s, Main)
            && Stepped(s, Main) == Both(STARTED_FLAGS, timer, [Reset(Q.PDelayInterval), Open])
  {
  }

  lemma TimerStarts(f: Flags, main: seq<Op>)
    requires f == STARTED_FLAGS && main == [Reset(Q.PDelayInterval), Open]
    ensures var s := Both(f, [StartPDelay, StartSync], main);
            && Ready(s, Timer)
            && Stepped(s, Timer) == Both(f, [Restart(Q.PDelayInterval), StartSync], main)
            && Deadlocked(Stepped(s, Timer))
  {
  }

  lemma OneStep(w: World, es: seq<Event>, s: Port, th: Thread, s': Port) returns (es': seq<Event>)
    requires Shows(w, es, s, multiset{}, false) && !s.f.dead && Ready(s, th) && Queued(s.At(th)[0]).None?
    requires Stepped(s, th) == s'
    ensures Shows(w, es', s', multiset{}, false) && Calls(es') == Calls(es)
  {
    Went(w, es, s, multiset{}, false, th);
    CallsOn(es, Step(th));
    es' := es + [Step(th)];
  }

  lemma MasterGoes(w: World, es: seq<Event>) returns (es': seq<Event>, s: Port)
    requires Shows(w, es, Both(MASTER_FLAGS, [EnsurePDelay, StartSync], BOOTED), multiset{}, false)
    ensures Shows(w, es', s, multiset{}, false) && Deadlocked(s) && Calls(es') == Calls(es)
  {
    var p, q := [StartPDelay, StartSync], [Reset(Q.PDelayInterval), Open];
    EnsureStep(MASTER_FLAGS, BOOTED);
    MainSteps(MASTER_FLAGS, p);
    TimerStarts(STARTED_FLAGS, q);
    var r := [Restart(Q.PDelayInterval), Open];
    es' := OneStep(w, es, Both(MASTER_FLAGS, [EnsurePDelay, StartSync], BOOTED), Timer, Both(MASTER_FLAGS, p, BOOTED));
    es' := OneStep(w, es', Both(MASTER_FLAGS, p, BOOTED), Main, Both(STARTED_FLAGS, p, r));
    es' := OneStep(w, es', Both(STARTED_FLAGS, p, r), Main, Both(STARTED_FLAGS, p, q));
    s := Both(STARTED_FLAGS, [Restart(Q.PDelayInterval), StartSync], q);
    es' := OneStep(w, es', Both(STARTED_FLAGS, p, q), Timer, s);
  }

  /** SYNC_INTERVAL expires before the main thread has started requests: both threads
      start them. */
  lemma PowerUpJams() returns (more: seq<Event>)
    ensures Jams(GRANDMASTER, Master, [], PowerUp, more)
  {
    var w, s := Start(GRANDMASTER, Master), Rest(MASTER_FLAGS).(main := BOOTED);
    more := MasterBoots(w);
    var e := Signalled(w, more, s, multiset{Q.SyncInterval}, false, Q.SyncInterval, NOTHING);
    CallsOn(more, e);
    MasterSteps();
    assert multiset{Q.SyncInterval}[Q.SyncInterval := 0] == multiset{};
    more, s := MasterGoes(w, more + [e]);
    AtRest(GRANDMASTER, Master);
    StartShape(GRANDMASTER, Master);
    assert Path([w], [], true);
    Jammed(GRANDMASTER, Master, [], w, PowerUp, more, s, multiset{});
  }

  // ---- which calls may overlap a callback ------------------------------------------------------

  /** The threads whose last call is not in the set. */
  function Lately(late: set<Thread>, e: Event, safe: set<Call>): set<Thread> {
    if !e.Begin? then late
    else if e.c in safe then late - {Caller(e.c)}
    else late + {Caller(e.c)}
  }

  ghost predicate Waiting(s: Port, late: set<Thread>) {
    s.timer != [] ==> forall th :: th in late ==> s.At(th) == []
  }

  /** Only the calls in the set overlap callbacks: the others are over before one begins,
      and begin when it is over. */
  ghost predicate Apart(w: World, es: seq<Event>, safe: set<Call>, late: set<Thread>)
    requires Runs(w, es)
    decreases |es|
  {
    && Waiting(w.s, late)
    && (es != [] ==> Apart(Next(w, es[0]), es[1..], safe, Lately(late, es[0], safe)))
  }

  ghost predicate FreeAfter(cfg: Config, role: Role, es: seq<Event>, safe: set<Call>) {
    Runs(Start(cfg, role), es) && Apart(Start(cfg, role), es, safe, {}) ==> !Deadlocked(After(Start(cfg, role), es).s)
  }

  /** Calls that hold no lock for which a callback waits while they need the queue's. */
  predicate Harmless(c: Call) {
    match c
    case PowerUp => false
    case LinkUp => false
    case LinkDown => true
    case Announce(_) => true
    case FollowUp(paired, _) => paired.Unpaired?
    case Response(misbehaved) => !misbehaved
    case RespFollowUp(matched) => !matched
    case Signalling(pdelay, _, announce) => !pdelay && !announce
  }

  /** The steps of such calls. */
  predicate Mild(op: Op) {
    || op.Remove? || op.Insert? || op.Halt? || op.StartSync? || op.SyncRemove? || op.SyncInsert? || op.SyncRelease?
  }

  ghost predicate Gentle(p: seq<Op>) {
    || (forall op :: op in p ==> Mild(op))
    || p == [TryResponse(false)] || p == [HoldResponse, PutRx]
    || p == [TryFollowUp(false)] || p == [TakeFollowUp(false), PutRx] || p == [PutRx]
  }

  lemma HarmlessIsGentle(cfg: Config, role: Role, c: Call)
    requires Harmless(c)
    ensures Gentle(Program(cfg, role, c))
  {
  }

  lemma MildContinues(f: Flags, others: set<Lock>, p: seq<Op>)
    requires p != [] && forall op :: op in p ==> Mild(op)
    ensures forall op :: op in Continue(f, others, p[0]) + p[1..] ==> Mild(op)
  {
    assert p[0] in p && forall op :: op in p[1..] ==> op in p;
  }

  lemma GentleContinues(f: Flags, others: set<Lock>, p: seq<Op>)
    requires Gentle(p) && p != []
    ensures Gentle(Continue(f, others, p[0]) + p[1..])
  {
    if forall op :: op in p ==> Mild(op) {
      MildContinues(f, others, p);
    } else {
      assert p[1..] == [] || p[1..] == [PutRx];
    }
  }

  ghost predicate Calmed(s: Port, late: set<Thread>) { forall th :: th != Timer && th !in late ==> Gentle(s.At(th)) }

  lemma GentleHolds(p: seq<Op>, x: Pdelay)
    requires Gentle(p)
    ensures !Needs(x, p) && forall kind :: Own(kind) !in Held(p)
  {
    if forall op :: op in p ==> Mild(op) {
      assert p != [] ==> p[0] in p;
    }
  }

  lemma CalmedFree(s: Port, late: set<Thread>)
    requires Calmed(s, late) && Waiting(s, late)
    ensures !Deadlocked(s)
  {
    if s.timer != [] {
      forall th | th != Timer
        ensures Gentle(s.At(th))
      {
      }
      GentleHolds(s.At(Listener), s.f.x);
      GentleHolds(s.At(Link), s.f.x);
      GentleHolds(s.At(Main), s.f.x);
    }
  }

  lemma PlacedCalmed(s: Port, th: Thread, p: seq<Op>, s': Port, late: set<Thread>, late': set<Thread>)
    requires Calmed(s, late) && Places(s, th, p, s') && (th == Timer || th in late' || Gentle(p))
    requires late - {th} == late' - {th}
    ensures Calmed(s', late')
  {
    forall other | other != Timer && other !in late'
      ensures Gentle(s'.At(other))
    {
      assert other !in late' - {th};
      assert other != th ==> s'.At(other) == s.At(other);
    }
  }

  lemma NextCalmed(w: World, e: Event, safe: set<Call>, late: set<Thread>)
    requires Calmed(w.s, late) && Enabled(w, e) && forall c :: c in safe ==> Harmless(c)
    ensures Calmed(Next(w, e).s, Lately(late, e, safe))
  {
    match e {
      case Begin(c) =>
        var p := Program(w.s.f.cfg, w.s.f.role, c);
        if c in safe {
          HarmlessIsGentle(w.s.f.cfg, w.s.f.role, c);
        }
        BegunPlaces(w.s, c);
        PlacedCalmed(w.s, Caller(c), p, Begun(w.s, c), late, Lately(late, e, safe));
      case Signal(k, d) =>
        if k in w.t.q.pending {
          var kind := w.t.q.pending[k].kind;
          PlacedCalmed(w.s, Timer, Callback(w.s.f.cfg, w.s.f.role, kind, d), Expired(w.s, kind, d), late, late);
        }
      case Step(th) =>
        var p := w.s.At(th);
        StepPlaces(w.s, th);
        if th != Timer && th !in late {
          GentleContinues(w.s.f, w.s.Others(th), p);
        }
        PlacedCalmed(w.s, th, Continue(w.s.f, w.s.Others(th), p[0]) + p[1..], Stepped(w.s, th), late, late);
    }
  }

  lemma {:induction false} RunCalmed(w: World, es: seq<Event>, safe: set<Call>, late: set<Thread>)
    requires Runs(w, es) && Apart(w, es, safe, late) && Calmed(w.s, late) && forall c :: c in safe ==> Harmless(c)
    ensures !Deadlocked(After(w, es).s)
    decreases |es|
  {
    if es == [] {
      CalmedFree(w.s, late);
    } else {
      NextCalmed(w, es[0], safe, late);
      RunCalmed(Next(w, es[0]), es[1..], safe, Lately(late, es[0], safe));
    }
  }

  // A run that does one call at a time, then one call of the set, keeps the others apart.

  lemma {:induction false} CallsAt(es: seq<Event>, i: nat)
    requires i < |es| && es[i].Begin?
    ensures es[i].c in Calls(es)
    decreases |es|
  {
    if i == |es| - 1 {
    } else {
      assert es[i] == es[..|es| - 1][i];
      CallsAt(es[..|es| - 1], i);
    }
  }

  ghost predicate Among(es: seq<Event>, safe: set<Call>) {
    forall i :: 0 <= i < |es| && es[i].Begin? ==> es[i].c in safe
  }

  ghost predicate Resting(s: Port, late: set<Thread>) { forall th :: th in late ==> s.At(th) == [] }

  lemma RestingPlaced(s: Port, th: Thread, p: seq<Op>, s': Port, late: set<Thread>)
    requires Resting(s, late) && Places(s, th, p, s')
    ensures Resting(s', late - {th})
  {
  }

  lemma NextResting(w: World, e: Event, safe: set<Call>, late: set<Thread>)
    requires Resting(w.s, late) && Timer !in late && Enabled(w, e) && (e.Begin? ==> e.c in safe)
    ensures Resting(Next(w, e).s, Lately(late, e, safe)) && Timer !in Lately(late, e, safe)
  {
    match e {
      case Begin(c) =>
        BegunPlaces(w.s, c);
        RestingPlaced(w.s, Caller(c), Program(w.s.f.cfg, w.s.f.role, c), Begun(w.s, c), late);
      case Signal(_, _) =>
      case Step(th) =>
        StepPlaces(w.s, th);
        var p := w.s.At(th);
        RestingPlaced(w.s, th, Continue(w.s.f, w.s.Others(th), p[0]) + p[1..], Stepped(w.s, th), late);
        assert late - {th} == late;
    }
  }

  lemma {:induction false} AmongApart(w: World, es: seq<Event>, safe: set<Call>, late: set<Thread>)
    requires Runs(w, es) && Resting(w.s, late) && Timer !in late && Among(es, safe)
    ensures Apart(w, es, safe, late)
    decreases |es|
  {
    if es == [] {
    } else {
      NextResting(w, es[0], safe, late);
      assert forall i :: 0 <= i < |es| - 1 ==> es[1..][i] == es[i + 1];
      AmongApart(Next(w, es[0]), es[1..], safe, Lately(late, es[0], safe));
    }
  }

  lemma AloneWaits(s: Port, late: set<Thread>)
    requires Alone(s) && Timer !in late
    ensures Waiting(s, late)
  {
  }

  lemma NextAlone(w: World, e: Event)
    requires Alone(w.s) && Enabled(w, e) && (e.Step? || w.s.Quiet())
    ensures Alone(Next(w, e).s)
  {
    match e {
      case Begin(c) =>
        BegunPlaces(w.s, c);
        AlonePlaces(w.s, Caller(c), Program(w.s.f.cfg, w.s.f.role, c), Begun(w.s, c));
      case Signal(k, d) =>
        if k in w.t.q.pending {
          assert Expired(w.s, w.t.q.pending[k].kind, d).With(Timer, []).Quiet();
        }
      case Step(th) =>
        StepPlaces(w.s, th);
        AlonePlaces(w.s, th, Continue(w.s.f, w.s.Others(th), w.s.At(th)[0]) + w.s.At(th)[1..], Stepped(w.s, th));
    }
  }

  lemma ApartOn(w: World, e: Event, w': World, es: seq<Event>, safe: set<Call>, late: set<Thread>)
    requires Enabled(w, e) && w' == Next(w, e) && Waiting(w.s, late)
    requires Runs(w', es) && Apart(w', es, safe, Lately(late, e, safe))
    ensures Runs(w, [e] + es) && After(w, [e] + es) == After(w', es) && Apart(w, [e] + es, safe, late)
  {
    assert ([e] + es)[1..] == es;
  }

  lemma FirstStep(w: World, es: seq<Event>) returns (w': World)
    requires es != [] && Runs(w, es) && Sequential(w, es) && Alone(w.s)
    ensures Enabled(w, es[0]) && w' == Next(w, es[0]) && Alone(w'.s)
    ensures Runs(w', es[1..]) && Sequential(w', es[1..]) && After(w', es[1..]) == After(w, es)
  {
    w' := Next(w, es[0]);
    NextAlone(w, es[0]);
  }

  lemma {:induction false} ThenApart(
    w: World, es: seq<Event>, mid: World, more: seq<Event>, end: World, safe: set<Call>, late: set<Thread>)
    returns (all: seq<Event>)
    requires Alone(w.s) && Runs(w, es) && Sequential(w, es) && After(w, es) == mid && mid.s.Quiet() && Timer !in late
    requires Runs(mid, more) && After(mid, more) == end && Among(more, safe)
    ensures Runs(w, all) && After(w, all) == end && Apart(w, all, safe, late)
    decreases |es|
  {
    if es == [] {
      all := more;
      AmongApart(w, more, safe, late);
    } else {
      var w' := FirstStep(w, es);
      AloneWaits(w.s, late);
      var rest := ThenApart(w', es[1..], mid, more, end, safe, Lately(late, es[0], safe));
      ApartOn(w, es[0], w', rest, safe, late);
      all := [es[0]] + rest;
    }
  }

  /** A call of the set that jams the port does so on a run that keeps the others apart. */
  lemma JamsApart(cfg: Config, role: Role, es: seq<Event>, c: Call, more: seq<Event>, safe: set<Call>)
    returns (all: seq<Event>)
    requires Jams(cfg, role, es, c, more) && c in safe
    ensures !FreeAfter(cfg, role, all, safe)
  {
    forall i | 0 <= i < |more| && more[i].Begin?
      ensures more[i].c in safe
    {
      CallsAt(more, i);
    }
    assert Fresh(cfg, role).With(Timer, []).Quiet();
    var mid := After(Start(cfg, role), es);
    all := ThenApart(Start(cfg, role), es, mid, more, After(mid, more), safe, {});
  }

  lemma FollowUpJams(c: Call) returns (role: Role, es: seq<Event>, more: seq<Event>)
    requires c.FollowUp? && !c.paired.Unpaired?
    ensures Jams(STANDARD, role, es, c, more)
  {
    if c.paired.Forced? {
      role := Initializing;
      es, more := ForcedJams(c);
    } else {
      role := Slave;
      es, more := UsedJams(c);
    }
  }

  lemma MessageJams(c: Call) returns (es: seq<Event>, more: seq<Event>)
    requires !Harmless(c) && (c.Response? || c.RespFollowUp? || c.Signalling?)
    ensures Jams(STANDARD, Initializing, es, c, more)
  {
    if !c.Signalling? {
      var hs, e;
      hs, e, es, more := ExchangeJams(D.Config(false, 800), c);
    } else if c.pdelay {
      es, more := SignallingJams(c.sync, c.announce);
    } else {
      es, more := AnnouncingJams(c.sync);
    }
  }

  /** Every other call has a run on which it alone overlaps a callback, and deadlocks. */
  lemma HarmfulJams(c: Call) returns (cfg: Config, role: Role, es: seq<Event>, more: seq<Event>)
    requires !Harmless(c)
    ensures Jams(cfg, role, es, c, more)
  {
    cfg, role, es := STANDARD, Initializing, [];
    if c.PowerUp? {
      cfg, role := GRANDMASTER, Master;
      more := PowerUpJams();
    } else if c.LinkUp? {
      es, more := LinkUpJams();
    } else if c.FollowUp? {
      role, es, more := FollowUpJams(c);
    } else {
      es, more := MessageJams(c);
    }
  }

  /** The calls of a set may overlap callbacks, the others being kept apart, without ever
      a deadlock if and only if each of them is harmless. */
  lemma OverlapSafe(safe: set<Call>)
    ensures (forall cfg, role, es :: FreeAfter(cfg, role, es, safe)) <==> forall c :: c in safe ==> Harmless(c)
  {
    if forall c :: c in safe ==> Harmless(c) {
      forall cfg, role, es | Runs(Start(cfg, role), es) && Apart(Start(cfg, role), es, safe, {})
        ensures FreeAfter(cfg, role, es, safe)
      {
        RunCalmed(Start(cfg, role), es, safe, {});
      }
    } else {
      var c :| c in safe && !Harmless(c);
      var cfg, role, es, more := HarmfulJams(c);
      var all := JamsApart(cfg, role, es, c, more, safe);
    }
  }
}
