/** The timers of an Ethernet port: every place where the daemon adds or cancels an
    event, run by the timer thread, the main thread, and the threads that listen to the
    network and watch the link.  A call is a program of steps; between steps the other
    threads may run, except that the timer thread holds the queue's lock during a whole
    callback.  A lock is held by the thread whose program is still to release it. */
module PortTimers {
  import opened MachineInts
  import Q = TimerQueue

  datatype Role = Initializing | Master | Slave
  datatype Thread = Timer | Listener | Link | Main

  datatype Config = Config(automotive: bool, slaveOnly: bool, grandmaster: bool)

  /** The steps of a program, and below them the continuations they turn into. */
  datatype Op =
    | Remove(kind: Q.Kind)     // deleteEventTimerLocked
    | Insert(kind: Q.Kind)     // addEventTimerLocked
    | Restart(kind: Q.Kind)    // take the kind's own lock, then cancel, then add
    | Renew                    // SYNC_RECEIPT: cancel and add under the queue's lock
    | StartSync                // startSyncIntervalTimer: given up if its lock is taken
    | TestRate                 // syncDone: go on if no SYNC_RATE timer was started
    | ClearRate                // the SYNC_RATE timer expired
    | Become(role: Role)
    | StartPDelay              // startPDelay: unless halted
    | BootPDelay               // POWERUP: startPDelay unless a standard port has a role
    | EnsurePDelay             // syncDone: startPDelay unless started
    | Open                     // POWERUP: the other two threads start
    | Halt | Unhalt            // stopPDelay, and haltPdelay(false)
    | NewRequest               // a request is stored and, unless halted, sent and stamped
    | TryResponse(misbehaved: bool) | HoldResponse
    | TryFollowUp(matched: bool) | TakeFollowUp(matched: bool)
    | LockRx(matched: bool) | TakeKept(matched: bool)
    | Reset(kind: Q.Kind) | Finish(kind: Q.Kind)
    | SyncRemove | SyncInsert | SyncRelease
    | SetRate | InsertRate
    | RespRemove | TestStamp | DeferInsert | PutRx

  /** The lock of a timer's own, that of SYNC_INTERVAL, which is only ever tried, and
      that of the exchange. */
  datatype Lock = Own(kind: Q.Kind) | SyncLock | Rx

  function HeadLock(op: Op): set<Lock> {
    match op
    case Reset(kind) => {Own(kind)}
    case Finish(kind) => {Own(kind)}
    case SyncRemove => {SyncLock}
    case SyncInsert => {SyncLock}
    case SyncRelease => {SyncLock}
    case _ => {}
  }

  /** The locks that a program has taken. */
  function Held(p: seq<Op>): set<Lock> {
    (if p == [] then {} else HeadLock(p[0])) + if PutRx in p then {Rx} else {}
  }

  /** The peer-delay exchange as far as timers depend on it: whether requests are halted
      and started, whether one was made and is without a timestamp, and whether a
      response and a follow-up are held. */
  datatype Pdelay = Pdelay(
    halted: bool, started: bool, requested: bool, unstamped: bool, responded: bool, kept: bool)

  /** Before POWERUP, during its first half, and when all threads run. */
  datatype Phase = Off | Starting | Running

  datatype Flags = Flags(cfg: Config, role: Role, phase: Phase, x: Pdelay, rateStarted: bool, dead: bool)

  /** A port without its queue: its flags and what each thread has still to do. */
  datatype Port = Port(f: Flags, timer: seq<Op>, listener: seq<Op>, link: seq<Op>, main: seq<Op>)
  {
    function At(th: Thread): seq<Op> {
      match th
      case Timer => timer
      case Listener => listener
      case Link => link
      case Main => main
    }

    function With(th: Thread, p: seq<Op>): Port {
      match th
      case Timer => this.(timer := p)
      case Listener => this.(listener := p)
      case Link => this.(link := p)
      case Main => this.(main := p)
    }

    predicate Quiet() { timer == [] && listener == [] && link == [] && main == [] }

    /** The locks held by the other threads. */
    function Others(th: Thread): set<Lock> {
      match th
      case Timer => Held(listener) + Held(link) + Held(main)
      case Listener => Held(timer) + Held(link) + Held(main)
      case Link => Held(timer) + Held(listener) + Held(main)
      case Main => Held(timer) + Held(listener) + Held(link)
    }
  }

  datatype World = World(s: Port, t: Q.System)

  // ---- the call sites ------------------------------------------------------------

  datatype Paired = Unpaired | Forced | Used

  /** What a call does that depends on state outside this model: whether the Sync interval
      differs from the operational one, how an election ends, whether a follow-up belongs
      to the request and the response held, and whether a rate change is signalled. */
  datatype Detail = Detail(differs: bool, elected: Option<Role>, matched: bool, signals: bool)

  datatype Call =
    | PowerUp | LinkUp | LinkDown
    | Announce(acceptable: bool) | FollowUp(paired: Paired, d: Detail)
    | Response(misbehaved: bool) | RespFollowUp(matched: bool)
    | Signalling(pdelay: bool, sync: bool, announce: bool)

  function When(b: bool, ops: seq<Op>): seq<Op> { if b then ops else [] }

  function ToMaster(cfg: Config): seq<Op> {
    [Become(Master), Remove(Q.AnnounceReceipt), Remove(Q.SyncReceipt)]
    + When(!cfg.automotive, [Restart(Q.AnnounceInterval)]) + [StartSync]
  }

  function ToSlave(cfg: Config): seq<Op> {
    [Remove(Q.AnnounceInterval), Remove(Q.SyncInterval), Become(Slave)]
    + When(!cfg.automotive, [Insert(Q.AnnounceReceipt)])
  }

  /** POWERUP and LINKUP re-enter the role, or wait for an announce. */
  function EnterRole(cfg: Config, role: Role): seq<Op> {
    if cfg.slaveOnly || role == Slave then ToSlave(cfg)
    else if role == Master then ToMaster(cfg)
    else [Insert(Q.AnnounceReceipt)]
  }

  function SyncDone(cfg: Config, d: Detail): seq<Op> {
    When(cfg.automotive && d.differs, [TestRate]) + [EnsurePDelay]
  }

  function Program(cfg: Config, role: Role, c: Call): seq<Op> {
    match c
    case PowerUp =>
      EnterRole(cfg, role) + [BootPDelay, Open] + When(cfg.automotive && !cfg.grandmaster, [Renew])
    case LinkUp =>
      [Unhalt, StartPDelay] + EnterRole(cfg, role) + When(cfg.automotive && !cfg.grandmaster, [Renew])
    case LinkDown => [Halt, Remove(Q.PDelayInterval)]
    case Announce(acceptable) =>
      [Remove(Q.AnnounceReceipt)] + When(acceptable, [Insert(Q.StateChange)]) + [Insert(Q.AnnounceReceipt)]
    case FollowUp(Unpaired, _) => [Remove(Q.SyncReceipt)]
    case FollowUp(Forced, _) => [Remove(Q.SyncReceipt)] + ToMaster(cfg)
    case FollowUp(Used, d) => [Remove(Q.SyncReceipt)] + When(role == Slave, SyncDone(cfg, d) + [Renew])
    case Response(misbehaved) => [TryResponse(misbehaved)]
    case RespFollowUp(matched) => [TryFollowUp(matched)]
    case Signalling(pdelay, sync, announce) =>
      When(pdelay, [Restart(Q.PDelayInterval)]) + When(sync, [StartSync])
      + When(announce && !cfg.automotive, [Restart(Q.AnnounceInterval)])
  }

  /** processSyncAnnounceTimeout, after it restarted the expired timer. */
  function TakeOver(role: Role): seq<Op> {
    When(role != Master, [Become(Master), Insert(Q.SyncInterval), Restart(Q.AnnounceInterval)])
  }

  function Callback(cfg: Config, role: Role, kind: Q.Kind, d: Detail): seq<Op> {
    match kind
    case StateChange =>
      if cfg.automotive || d.elected.None? then []
      else if d.elected.value == Master then ToMaster(cfg)
      else if d.elected.value == Slave then ToSlave(cfg)
      else []
    case SyncInterval => SyncDone(cfg, d) + [StartSync]
    case PDelayInterval => [NewRequest, Insert(Q.PDelayRespReceipt), Restart(Q.PDelayInterval)]
    case SyncReceipt =>
      if cfg.automotive then [Renew] else When(!cfg.slaveOnly, [Renew] + TakeOver(role))
    case AnnounceReceipt =>
      When(!cfg.automotive && !cfg.slaveOnly, [Insert(Q.AnnounceReceipt)] + TakeOver(role))
    case AnnounceInterval => [Restart(Q.AnnounceInterval)]
    case PDelayDeferred => [LockRx(d.matched)]
    case PDelayRespReceipt => []
    case PeerMisbehaving => [Unhalt] + When(role == Initializing, [StartPDelay])
    case SyncRate => [ClearRate] + When(d.signals && !cfg.grandmaster, [Renew])
  }

  // ---- steps -----------------------------------------------------------------------

  datatype Event =
    | Begin(c: Call)
    | Signal(key: Q.Key, d: Detail)
    | Step(th: Thread)

  function Caller(c: Call): Thread {
    if c.PowerUp? then Main else if c.LinkUp? || c.LinkDown? then Link else Listener
  }

  /** The event of the queue that a step is, if it is one. */
  function Queued(op: Op): Option<Q.Event> {
    match op
    case Remove(kind) => Some(Q.Drop(kind))
    case Insert(kind) => Some(Q.Schedule(kind))
    case Reset(kind) => Some(Q.BeginRestart(kind))
    case Finish(kind) => Some(Q.EndRestart(kind))
    case Renew => Some(Q.BeginRestart(Q.SyncReceipt))
    case SyncRemove => Some(Q.Drop(Q.SyncInterval))
    case SyncInsert => Some(Q.Schedule(Q.SyncInterval))
    case InsertRate => Some(Q.Schedule(Q.SyncRate))
    case RespRemove => Some(Q.Drop(Q.PDelayRespReceipt))
    case DeferInsert => Some(Q.Schedule(Q.PDelayDeferred))
    case _ => None
  }

  predicate QueueReady(t: Q.System, op: Op) {
    && (Queued(op).Some? ==> Q.Enabled(t, Queued(op).value))
    && (op.Renew? ==> Q.Enabled(Q.Next(t, Queued(op).value), Q.EndRestart(Q.SyncReceipt)))
  }

  function QueueNext(t: Q.System, op: Op): Q.System
    requires QueueReady(t, op)
  {
    if Queued(op).None? then t
    else if op.Renew? then Q.Next(Q.Next(t, Queued(op).value), Q.EndRestart(Q.SyncReceipt))
    else Q.Next(t, Queued(op).value)
  }

  /** Whether a thread has a step that is not waiting: for the end of a callback, for the
      lock of a timer, or for the lock of the exchange. */
  predicate Ready(s: Port, th: Thread) {
    && s.At(th) != []
    && (Queued(s.At(th)[0]).Some? && th != Timer ==> s.timer == [])
    && (s.At(th)[0].Restart? ==> Own(s.At(th)[0].kind) !in s.Others(th))
    && (s.At(th)[0].LockRx? ==> Rx !in s.Others(th))
  }

  /** POWERUP comes first and once, from the main thread. */
  predicate MayBegin(s: Port, c: Call) {
    s.At(Caller(c)) == [] && s.f.phase == if c.PowerUp? then Off else Running
  }

  /** Nothing happens to an aborted process. */
  predicate Enabled(w: World, e: Event) {
    && !w.s.f.dead
    && match e
       case Begin(c) => MayBegin(w.s, c)
       case Signal(_, _) => w.s.timer == []
       case Step(th) => Ready(w.s, th) && QueueReady(w.t, w.s.At(th)[0])
  }

  /** Whether a follow-up finds its request and its response. */
  predicate Finds(x: Pdelay, matched: bool) { x.requested && x.responded && matched }

  /** What is left to do after the head of a program. */
  function Continue(f: Flags, others: set<Lock>, op: Op): seq<Op> {
    match op
    case Restart(kind) => [Reset(kind)]
    case Reset(kind) => [Finish(kind)]
    case StartSync => When(SyncLock !in others, [SyncRemove])
    case SyncRemove => [SyncInsert]
    case SyncInsert => [SyncRelease]
    case TestRate => When(!f.rateStarted, [SetRate])
    case SetRate => [InsertRate]
    case StartPDelay => When(!f.x.halted, [Restart(Q.PDelayInterval)])
    case BootPDelay => When(f.cfg.automotive || f.role == Initializing, [StartPDelay])
    case EnsurePDelay => When(!f.x.started, [StartPDelay])
    case TryResponse(misbehaved) =>
      When(Rx !in others,
           When(misbehaved, [Halt, Remove(Q.PDelayInterval), Insert(Q.PeerMisbehaving)]) + [HoldResponse, PutRx])
    case TryFollowUp(matched) => When(Rx !in others, [TakeFollowUp(matched), PutRx])
    case LockRx(matched) => [TakeKept(matched), PutRx]
    case TakeKept(matched) => When(f.x.kept, [TakeFollowUp(matched)])
    case TakeFollowUp(matched) => When(Finds(f.x, matched), [RespRemove])
    case RespRemove => [TestStamp]
    case TestStamp => When(f.x.unstamped, [DeferInsert])
    case _ => []
  }

  /** What a step does to the exchange; the timestamp of a request is known when it was
      sent, and a follow-up that does not wait uses up the response. */
  function Exchanged(x: Pdelay, op: Op): Pdelay {
    match op
    case StartPDelay => if x.halted then x else x.(started := true)
    case Halt => x.(halted := true, started := false)
    case Unhalt => x.(halted := false)
    case NewRequest => x.(requested := true, unstamped := x.halted)
    case HoldResponse => x.(responded := true)
    case TakeFollowUp(matched) => if Finds(x, matched) then x else x.(responded := false)
    case TakeKept(_) => x.(kept := false)
    case TestStamp => if x.unstamped then x else x.(responded := false)
    case DeferInsert => x.(kept := true)
    case _ => x
  }

  function Changed(f: Flags, op: Op): Flags {
    match op
    case Become(role) => f.(role := role)
    case Open => f.(phase := Running)
    case SetRate => f.(rateStarted := true)
    case ClearRate => f.(rateStarted := false)
    case TakeKept(_) => f.(x := Exchanged(f.x, op), dead := !f.x.kept)
    case _ => f.(x := Exchanged(f.x, op))
  }

  /** What one thread does to the port. */
  function Stepped(s: Port, th: Thread): Port
    requires s.At(th) != []
  {
    var op := s.At(th)[0];
    s.(f := Changed(s.f, op)).With(th, Continue(s.f, s.Others(th), op) + s.At(th)[1..])
  }

  function Begun(s: Port, c: Call): Port {
    s.(f := s.f.(phase := if c.PowerUp? then Starting else s.f.phase)).With(Caller(c), Program(s.f.cfg, s.f.role, c))
  }

  function Expired(s: Port, kind: Q.Kind, d: Detail): Port { s.(timer := Callback(s.f.cfg, s.f.role, kind, d)) }

  function Next(w: World, e: Event): World
    requires Enabled(w, e)
  {
    match e
    case Begin(c) => w.(s := Begun(w.s, c))
    case Signal(k, d) =>
      if k in w.t.q.pending then World(Expired(w.s, w.t.q.pending[k].kind, d), Q.Next(w.t, Q.Signal(k))) else w
    case Step(th) => World(Stepped(w.s, th), QueueNext(w.t, w.s.At(th)[0]))
  }

  predicate Runs(w: World, es: seq<Event>)
    decreases |es|
  {
    es != [] ==> Enabled(w, es[0]) && Runs(Next(w, es[0]), es[1..])
  }

  function After(w: World, es: seq<Event>): World
    requires Runs(w, es)
    decreases |es|
  {
    if es == [] then w else After(Next(w, es[0]), es[1..])
  }

  const IDLE := Pdelay(false, false, false, false, false, false)

  function Fresh(cfg: Config, role: Role): Port {
    Port(Flags(cfg, role, Off, IDLE, false, false), [], [], [], [])
  }

  function Start(cfg: Config, role: Role): World { World(Fresh(cfg, role), Q.System(Q.EMPTY, {})) }

  // ---- what holds on every run ------------------------------------------------------

  /** A step that no continuation is due in. */
  predicate Plain(op: Op) {
    match op
    case Insert(kind) => !Q.Guarded(kind) && kind != Q.SyncRate
    case Restart(kind) => kind == Q.PDelayInterval || kind == Q.AnnounceInterval
    case _ =>
      !(op.ClearRate? || op.Reset? || op.Finish? || op.SyncRemove? || op.SyncInsert? || op.SyncRelease?
        || op.SetRate? || op.InsertRate? || op.LockRx? || op.TakeKept? || op.TakeFollowUp? || op.RespRemove?
        || op.TestStamp? || op.DeferInsert? || op.PutRx?)
  }

  ghost predicate AllPlain(ops: seq<Op>) { forall op :: op in ops ==> Plain(op) }

  /** Only the head of a program may be a continuation, and it may end on a release. */
  ghost predicate Fine(p: seq<Op>) {
    p != [] ==> FineHead(p[0]) && forall op :: op in p[1..] ==> Plain(op) || op.PutRx?
  }

  predicate FineHead(op: Op) {
    if op.Reset? then op.kind == Q.PDelayInterval || op.kind == Q.AnnounceInterval
    else Plain(op) || !(op.Insert? || op.Restart?)
  }

  /** The timer that a program has cancelled and is about to add again. */
  function Due(p: seq<Op>): set<Q.Kind> { if p != [] && p[0].Finish? then {p[0].kind} else {} }

  /** No lock is held by two threads. */
  ghost predicate Exclusive(s: Port) { Held(s.timer) !! Held(s.listener) !! Held(s.link) !! Held(s.main) }

  /** The form of the programs, and which timers they are restarting. */
  ghost predicate Form(s: Port, restarting: set<Q.Kind>) {
    && Fine(s.timer) && Fine(s.listener) && Fine(s.link) && Fine(s.main)
    && Exclusive(s) && Due(s.timer) + Due(s.listener) + Due(s.link) + Due(s.main) == restarting
    && Q.SyncReceipt !in restarting
  }

  ghost predicate Shape(w: World) { Form(w.s, w.t.restarting) && Q.Invariant(w.t) }

  lemma ToRolePlain(cfg: Config, role: Role)
    ensures AllPlain(ToMaster(cfg)) && AllPlain(ToSlave(cfg))
    ensures AllPlain(EnterRole(cfg, role)) && AllPlain(TakeOver(role))
  {
  }

  lemma PlainSum(a: seq<Op>, b: seq<Op>)
    requires AllPlain(a) && AllPlain(b)
    ensures AllPlain(a + b)
  {
  }

  lemma LinkPlain(cfg: Config, role: Role)
    ensures AllPlain(Program(cfg, role, PowerUp)) && AllPlain(Program(cfg, role, LinkUp))
  {
    var a, b := EnterRole(cfg, role), When(cfg.automotive && !cfg.grandmaster, [Renew]);
    ToRolePlain(cfg, role);
    PlainSum(a, [BootPDelay, Open]);
    PlainSum(a + [BootPDelay, Open], b);
    PlainSum([Unhalt, StartPDelay], a);
    PlainSum([Unhalt, StartPDelay] + a, b);
  }

  lemma FollowUpPlain(cfg: Config, role: Role, paired: Paired, d: Detail)
    ensures AllPlain(Program(cfg, role, FollowUp(paired, d)))
  {
    ToRolePlain(cfg, role);
    PlainSum(SyncDone(cfg, d), [Renew]);
    PlainSum([Remove(Q.SyncReceipt)], ToMaster(cfg));
    PlainSum([Remove(Q.SyncReceipt)], When(role == Slave, SyncDone(cfg, d) + [Renew]));
  }

  lemma ProgramPlain(cfg: Config, role: Role, c: Call)
    ensures AllPlain(Program(cfg, role, c))
  {
    match c {
      case PowerUp => LinkPlain(cfg, role);
      case LinkUp => LinkPlain(cfg, role);
      case FollowUp(paired, d) => FollowUpPlain(cfg, role, paired, d);
      case _ =>
    }
  }

  lemma CallbackPlain(cfg: Config, role: Role, kind: Q.Kind, d: Detail)
    ensures var p := Callback(cfg, role, kind, d);
            match kind
            case SyncRate => p != [] && p[0] == ClearRate && AllPlain(p[1..])
            case PDelayDeferred => p == [LockRx(d.matched)]
            case _ => AllPlain(p)
  {
    match kind {
      case SyncInterval => PlainSum(SyncDone(cfg, d), [StartSync]);
      case SyncReceipt => ToRolePlain(cfg, role); PlainSum([Renew], TakeOver(role));
      case AnnounceReceipt => ToRolePlain(cfg, role); PlainSum([Insert(Q.AnnounceReceipt)], TakeOver(role));
      case StateChange => ToRolePlain(cfg, role);
      case _ =>
    }
  }

  /** A step restarts and finishes what its head says. */
  function Restarts(restarting: set<Q.Kind>, op: Op): set<Q.Kind> {
    if op.Reset? then restarting + {op.kind} else if op.Finish? then restarting - {op.kind} else restarting
  }

  lemma StepRestarts(t: Q.System, op: Op)
    requires QueueReady(t, op)
    ensures QueueNext(t, op).restarting == Restarts(t.restarting, op)
  {
    assert op.Renew? ==> t.restarting + {Q.SyncReceipt} - {Q.SyncReceipt} == t.restarting;
  }

  lemma StepQueue(t: Q.System, op: Op)
    requires Q.Invariant(t) && QueueReady(t, op)
    ensures Q.Invariant(QueueNext(t, op))
  {
    if Queued(op).Some? {
      Q.StepKeeps(t, Queued(op).value);
    }
    if op.Renew? {
      Q.StepKeeps(Q.Next(t, Queued(op).value), Q.EndRestart(Q.SyncReceipt));
    }
  }

  lemma PlainFine(p: seq<Op>)
    requires AllPlain(p)
    ensures Fine(p) && Held(p) == {} && Due(p) == {}
  {
    assert p != [] ==> p[0] in p && forall x :: x in p[1..] ==> x in p;
  }

  lemma FineSum(a: seq<Op>, b: seq<Op>)
    requires Fine(a) && forall op :: op in b ==> Plain(op) || op.PutRx?
    ensures Fine(a + b)
  {
    if a == [] {
      assert a + b == b;
      assert b != [] ==> b[0] in b && forall x :: x in b[1..] ==> x in b;
    } else {
      assert (a + b)[1..] == a[1..] + b;
    }
  }

  lemma ContinueAlone(f: Flags, others: set<Lock>, op: Op)
    requires FineHead(op)
    ensures Fine(Continue(f, others, op))
  {
  }

  /** What a step leaves to do is of the same form. */
  lemma ContinueFine(f: Flags, others: set<Lock>, p: seq<Op>)
    requires Fine(p) && p != []
    ensures Fine(Continue(f, others, p[0]) + p[1..])
  {
    ContinueAlone(f, others, p[0]);
    FineSum(Continue(f, others, p[0]), p[1..]);
  }

  lemma ContinueDue(f: Flags, others: set<Lock>, p: seq<Op>)
    requires Fine(p) && p != []
    ensures Due(Continue(f, others, p[0]) + p[1..]) == if p[0].Reset? then {p[0].kind} else {}
  {
    assert p[1..] != [] ==> p[1..][0] in p[1..];
  }

  /** The lock that a step takes. */
  function Takes(op: Op): set<Lock> {
    match op
    case Restart(kind) => {Own(kind)}
    case StartSync => {SyncLock}
    case TryResponse(_) => {Rx}
    case TryFollowUp(_) => {Rx}
    case LockRx(_) => {Rx}
    case _ => {}
  }

  lemma RestHeld(p: seq<Op>)
    requires Fine(p) && p != []
    ensures Held(p[1..]) == if PutRx in p[1..] then {Rx} else {}
  {
    assert p[1..] != [] ==> p[1..][0] in p[1..];
  }

  /** A step takes a lock only if no other thread holds it. */
  lemma ContinueTakes(f: Flags, others: set<Lock>, op: Op)
    requires op.Restart? ==> Own(op.kind) !in others
    requires op.LockRx? ==> Rx !in others
    ensures Held(Continue(f, others, op)) <= HeadLock(op) + (Takes(op) - others)
  {
  }

  lemma HeldSum(a: seq<Op>, b: seq<Op>)
    requires Held(b) <= {Rx}
    ensures Held(a + b) <= Held(a) + Held(b)
  {
    assert a == [] ==> a + b == b;
  }

  lemma ContinueHeld(f: Flags, others: set<Lock>, p: seq<Op>)
    requires Fine(p) && p != []
    requires p[0].Restart? ==> Own(p[0].kind) !in others
    requires p[0].LockRx? ==> Rx !in others
    ensures Held(Continue(f, others, p[0]) + p[1..]) <= Held(p) + (Takes(p[0]) - others)
  {
    RestHeld(p);
    ContinueTakes(f, others, p[0]);
    HeldSum(Continue(f, others, p[0]), p[1..]);
    assert PutRx in p[1..] ==> PutRx in p;
  }

  /** The programs of s' are those of s with one in the place of another. */
  predicate Places(s: Port, th: Thread, p: seq<Op>, s': Port) {
    var r := s.With(th, p);
    s'.timer == r.timer && s'.listener == r.listener && s'.link == r.link && s'.main == r.main
  }

  /** The timers due in the other threads. */
  function OtherDue(s: Port, th: Thread): set<Q.Kind> {
    match th
    case Timer => Due(s.listener) + Due(s.link) + Due(s.main)
    case Listener => Due(s.timer) + Due(s.link) + Due(s.main)
    case Link => Due(s.timer) + Due(s.listener) + Due(s.main)
    case Main => Due(s.timer) + Due(s.listener) + Due(s.link)
  }

  lemma PlacedExclusive(s: Port, th: Thread, p: seq<Op>, s': Port)
    requires Exclusive(s) && Places(s, th, p, s') && Held(p) !! s.Others(th)
    ensures Exclusive(s')
  {
  }

  lemma PlacedDue(s: Port, th: Thread, p: seq<Op>, s': Port)
    requires Places(s, th, p, s')
    ensures Due(s'.timer) + Due(s'.listener) + Due(s'.link) + Due(s'.main) == OtherDue(s, th) + Due(p)
  {
  }

  lemma Replaced(s: Port, restarting: set<Q.Kind>, th: Thread, p: seq<Op>, s': Port)
    requires Form(s, restarting) && Fine(p) && Places(s, th, p, s')
    requires Held(p) !! s.Others(th) && Q.SyncReceipt !in Due(p)
    ensures Form(s', OtherDue(s, th) + Due(p))
  {
    PlacedExclusive(s, th, p, s');
    PlacedDue(s, th, p, s');
    DueApart(s, th);
  }

  lemma DueHeld(p: seq<Op>)
    ensures forall k :: k in Due(p) ==> Own(k) in Held(p)
  {
  }

  lemma DueApart(s: Port, th: Thread)
    requires Exclusive(s)
    ensures Held(s.At(th)) !! s.Others(th) && Due(s.At(th)) !! OtherDue(s, th)
    ensures OtherDue(s, th) + Due(s.At(th)) == Due(s.timer) + Due(s.listener) + Due(s.link) + Due(s.main)
  {
    DueHeld(s.timer);
    DueHeld(s.listener);
    DueHeld(s.link);
    DueHeld(s.main);
  }

  lemma RestartSets(restarting: set<Q.Kind>, others: set<Q.Kind>, due: set<Q.Kind>, op: Op)
    requires restarting == others + due && others !! due && due == if op.Finish? then {op.kind} else {}
    ensures Restarts(restarting, op) == others + if op.Reset? then {op.kind} else {}
  {
  }

  lemma HeadForm(s: Port, restarting: set<Q.Kind>, th: Thread, op: Op, p: seq<Op>, s': Port)
    requires Form(s, restarting) && s.At(th) != [] && op == s.At(th)[0] && Places(s, th, p, s')
    requires Fine(p) && Held(p) <= Held(s.At(th)) + (Takes(op) - s.Others(th))
    requires Due(p) == if op.Reset? then {op.kind} else {}
    ensures Form(s', Restarts(restarting, op))
  {
    DueApart(s, th);
    RestartSets(restarting, OtherDue(s, th), Due(s.At(th)), op);
    Replaced(s, restarting, th, p, s');
  }

  lemma WithPlaces(s: Port, th: Thread, p: seq<Op>, f: Flags)
    ensures Places(s, th, p, s.(f := f).With(th, p))
  {
  }

  lemma StepPlaces(s: Port, th: Thread)
    requires s.At(th) != []
    ensures Places(s, th, Continue(s.f, s.Others(th), s.At(th)[0]) + s.At(th)[1..], Stepped(s, th))
  {
    WithPlaces(s, th, Continue(s.f, s.Others(th), s.At(th)[0]) + s.At(th)[1..], Changed(s.f, s.At(th)[0]));
  }

  lemma StepForm(s: Port, restarting: set<Q.Kind>, th: Thread)
    requires Form(s, restarting) && Ready(s, th)
    ensures Form(Stepped(s, th), Restarts(restarting, s.At(th)[0]))
  {
    var p := s.At(th);
    StepPlaces(s, th);
    ContinueFine(s.f, s.Others(th), p);
    ContinueHeld(s.f, s.Others(th), p);
    ContinueDue(s.f, s.Others(th), p);
    HeadForm(s, restarting, th, p[0], Continue(s.f, s.Others(th), p[0]) + p[1..], Stepped(s, th));
  }

  lemma CallbackFine(cfg: Config, role: Role, kind: Q.Kind, d: Detail)
    ensures var p := Callback(cfg, role, kind, d); Fine(p) && Held(p) == {} && Due(p) == {}
  {
    var p := Callback(cfg, role, kind, d);
    CallbackPlain(cfg, role, kind, d);
    match kind {
      case SyncRate => PlainFine(p[1..]); assert p == [ClearRate] + p[1..];
      case PDelayDeferred =>
      case _ => PlainFine(p);
    }
  }

  /** A program that begins holds nothing. */
  lemma EnteredForm(s: Port, restarting: set<Q.Kind>, th: Thread, p: seq<Op>, s': Port)
    requires Form(s, restarting) && s.At(th) == [] && Places(s, th, p, s') && Fine(p) && Held(p) == {} && Due(p) == {}
    ensures Form(s', restarting)
  {
    DueApart(s, th);
    Replaced(s, restarting, th, p, s');
    assert OtherDue(s, th) + Due(p) == restarting;
  }

  lemma ExpiredForm(s: Port, restarting: set<Q.Kind>, kind: Q.Kind, d: Detail)
    requires Form(s, restarting) && s.timer == []
    ensures Form(Expired(s, kind, d), restarting)
  {
    CallbackFine(s.f.cfg, s.f.role, kind, d);
    EnteredForm(s, restarting, Timer, Callback(s.f.cfg, s.f.role, kind, d), Expired(s, kind, d));
  }

  lemma BegunPlaces(s: Port, c: Call)
    ensures Places(s, Caller(c), Program(s.f.cfg, s.f.role, c), Begun(s, c))
  {
    WithPlaces(s, Caller(c), Program(s.f.cfg, s.f.role, c), s.f.(phase := if c.PowerUp? then Starting else s.f.phase));
  }

  lemma PlainForm(s: Port, restarting: set<Q.Kind>, th: Thread, p: seq<Op>, s': Port)
    requires Form(s, restarting) && s.At(th) == [] && Places(s, th, p, s') && AllPlain(p)
    ensures Form(s', restarting)
  {
    PlainFine(p);
    EnteredForm(s, restarting, th, p, s');
  }

  lemma BegunForm(s: Port, restarting: set<Q.Kind>, c: Call)
    requires Form(s, restarting) && s.At(Caller(c)) == []
    ensures Form(Begun(s, c), restarting)
  {
    ProgramPlain(s.f.cfg, s.f.role, c);
    BegunPlaces(s, c);
    PlainForm(s, restarting, Caller(c), Program(s.f.cfg, s.f.role, c), Begun(s, c));
  }

  lemma NextShape(w: World, e: Event)
    requires Shape(w) && Enabled(w, e)
    ensures Shape(Next(w, e))
  {
    match e {
      case Begin(c) => BegunForm(w.s, w.t.restarting, c);
      case Signal(k, d) =>
        if k in w.t.q.pending {
          ExpiredForm(w.s, w.t.restarting, w.t.q.pending[k].kind, d);
          Q.StepKeeps(w.t, Q.Signal(k));
        }
      case Step(th) =>
        StepForm(w.s, w.t.restarting, th);
        StepQueue(w.t, w.s.At(th)[0]);
        StepRestarts(w.t, w.s.At(th)[0]);
    }
  }

  lemma StartShape(cfg: Config, role: Role)
    ensures Shape(Start(cfg, role))
  {
    assert Q.Invariant(Start(cfg, role).t);
  }

  /** On every interleaving of every run of the port, events are conserved, no lock is
      held twice and the guarded kinds are pending at most once. */
  lemma {:induction false} RunKeeps(w: World, es: seq<Event>)
    requires Shape(w) && Runs(w, es)
    ensures Shape(After(w, es)) && Q.Invariant(After(w, es).t) && Exclusive(After(w, es).s)
    ensures forall kind :: Q.Guarded(kind) ==> Q.AtMostOne(After(w, es).t.q, kind)
    decreases |es|
  {
    if es == [] {
    } else {
      NextShape(w, es[0]);
      RunKeeps(Next(w, es[0]), es[1..]);
    }
  }

  // ---- what a step does to the timers of one kind -----------------------------------------

  /** What one event of the queue does to the pending timers of a kind. */
  lemma EventKinds(t: Q.System, e: Q.Event, kind: Q.Kind)
    requires Q.Enabled(t, e) && !e.Signal?
    ensures var before, t' := Q.OfKind(t.q, kind), Q.Next(t, e);
            if e.kind != kind then Q.OfKind(t'.q, kind) == before
            else if e.Schedule? || e.EndRestart? then Q.OfKind(t'.q, kind) == before + {t'.q.key} && t'.q.key !in before
            else Q.OfKind(t'.q, kind) == {}
  {
    Q.KindsAfter(t.q, e.kind);
  }

  datatype Effect = Same | Grow | Clear

  function EffectOn(op: Op, kind: Q.Kind): Effect {
    if Queued(op).None? || Queued(op).value.kind != kind then Same
    else if Queued(op).value.Schedule? || Queued(op).value.EndRestart? then Grow
    else Clear
  }

  ghost predicate Effects(t: Q.System, t': Q.System, op: Op, kind: Q.Kind) {
    match EffectOn(op, kind)
    case Same => Q.OfKind(t'.q, kind) == Q.OfKind(t.q, kind)
    case Grow => Q.OfKind(t'.q, kind) == Q.OfKind(t.q, kind) + {t'.q.key} && t'.q.key !in Q.OfKind(t.q, kind)
    case Clear => Q.OfKind(t'.q, kind) == {}
  }

  lemma HasEffects(t: Q.System, op: Op, kind: Q.Kind)
    requires QueueReady(t, op) && !op.Renew?
    ensures Effects(t, QueueNext(t, op), op, kind)
  {
    if Queued(op).Some? {
      EventKinds(t, Queued(op).value, kind);
    }
  }

  lemma RenewKinds(t: Q.System, kind: Q.Kind)
    requires QueueReady(t, Renew) && kind != Q.SyncReceipt
    ensures Q.OfKind(QueueNext(t, Renew).q, kind) == Q.OfKind(t.q, kind)
  {
    EventKinds(t, Q.BeginRestart(Q.SyncReceipt), kind);
    EventKinds(Q.Next(t, Q.BeginRestart(Q.SyncReceipt)), Q.EndRestart(Q.SyncReceipt), kind);
  }

  // ---- one call at a time -------------------------------------------------------------

  /** No call begins before the one under way is finished. */
  predicate Sequential(w: World, es: seq<Event>)
    requires Runs(w, es)
    decreases |es|
  {
    es != [] ==> (es[0].Step? || w.s.Quiet()) && Sequential(Next(w, es[0]), es[1..])
  }

  /** At most one thread is at work. */
  predicate Alone(s: Port) { exists th :: s.With(th, []).Quiet() }

  /** Whether a program stands between its look at the flag and its add, or is the
      callback that will clear the flag: then no SYNC_RATE timer is pending. */
  ghost predicate RateProgram(q: Q.Queue, started: bool, p: seq<Op>) {
    p != [] ==>
      && (p[0] == SetRate || p[0] == InsertRate || p[0] == ClearRate ==> Q.OfKind(q, Q.SyncRate) == {})
      && (p[0] == InsertRate ==> started)
  }

  ghost predicate RateQueue(q: Q.Queue, started: bool) {
    Q.AtMostOne(q, Q.SyncRate) && (Q.OfKind(q, Q.SyncRate) != {} ==> started)
  }

  ghost predicate RatePort(s: Port, q: Q.Queue) {
    Alone(s) && RateQueue(q, s.f.rateStarted) && forall th :: RateProgram(q, s.f.rateStarted, s.At(th))
  }

  ghost predicate RateGood(w: World) { Shape(w) && RatePort(w.s, w.t.q) }

  lemma RateEffect(op: Op)
    requires Plain(op) || !op.Insert?
    requires op.Finish? ==> op.kind != Q.SyncRate
    ensures EffectOn(op, Q.SyncRate) == Grow <==> op.InsertRate?
  {
  }

  lemma RateKinds(t: Q.System, op: Op)
    requires Q.Invariant(t) && QueueReady(t, op) && (Plain(op) || !op.Insert?)
    ensures op.InsertRate? ==>
              Q.OfKind(QueueNext(t, op).q, Q.SyncRate) == Q.OfKind(t.q, Q.SyncRate) + {QueueNext(t, op).q.key}
    ensures !op.InsertRate? ==> Q.OfKind(QueueNext(t, op).q, Q.SyncRate) <= Q.OfKind(t.q, Q.SyncRate)
  {
    if op.Renew? {
      RenewKinds(t, Q.SyncRate);
    } else {
      assert op.Finish? ==> op.kind in t.restarting;
      RateEffect(op);
      HasEffects(t, op, Q.SyncRate);
    }
  }

  lemma ContinueRate(f: Flags, others: set<Lock>, p: seq<Op>)
    requires Fine(p) && p != []
    ensures var p' := Continue(f, others, p[0]) + p[1..];
            && (p' != [] && p'[0] == SetRate ==> p[0] == TestRate && !f.rateStarted)
            && (p' != [] && p'[0] == InsertRate ==> p[0] == SetRate)
            && (p' != [] ==> p'[0] != ClearRate)
  {
    assert p[1..] != [] ==> p[1..][0] in p[1..];
  }

  function Flag(started: bool, op: Op): bool {
    if op == SetRate then true else if op == ClearRate then false else started
  }

  lemma StepFlag(s: Port, th: Thread)
    requires s.At(th) != []
    ensures Stepped(s, th).f.rateStarted == Flag(s.f.rateStarted, s.At(th)[0])
  {
  }

  /** The flag and the queue together, over one step. */
  lemma RateAdvance(q: Q.Queue, q': Q.Queue, started: bool, op: Op, p: seq<Op>)
    requires RateQueue(q, started) && RateProgram(q, started, [op])
    requires op.InsertRate? ==> Q.OfKind(q', Q.SyncRate) == Q.OfKind(q, Q.SyncRate) + {q'.key}
    requires !op.InsertRate? ==> Q.OfKind(q', Q.SyncRate) <= Q.OfKind(q, Q.SyncRate)
    requires p != [] && p[0] == SetRate ==> op == TestRate && !started
    requires p != [] && p[0] == InsertRate ==> op == SetRate
    requires p != [] ==> p[0] != ClearRate
    ensures RateQueue(q', Flag(started, op)) && RateProgram(q', Flag(started, op), p)
  {
  }

  lemma AlonePlaces(s: Port, th: Thread, p: seq<Op>, s': Port)
    requires Alone(s) && (s.At(th) != [] || s.Quiet()) && Places(s, th, p, s')
    ensures Alone(s') && forall th' :: s'.At(th') == if th' == th then p else []
  {
    assert s'.With(th, []).Quiet();
  }

  lemma PlacedRate(s: Port, th: Thread, p: seq<Op>, q: Q.Queue, s': Port)
    requires Alone(s) && (s.At(th) != [] || s.Quiet()) && Places(s, th, p, s')
    requires RateQueue(q, s'.f.rateStarted) && RateProgram(q, s'.f.rateStarted, p)
    ensures RatePort(s', q)
  {
    AlonePlaces(s, th, p, s');
  }

  lemma StepRate(s: Port, t: Q.System, th: Thread)
    requires RatePort(s, t.q) && Q.Invariant(t) && s.At(th) != [] && Fine(s.At(th)) && QueueReady(t, s.At(th)[0])
    ensures RatePort(Stepped(s, th), QueueNext(t, s.At(th)[0]).q)
  {
    var p, t' := Continue(s.f, s.Others(th), s.At(th)[0]) + s.At(th)[1..], QueueNext(t, s.At(th)[0]);
    assert RateProgram(t.q, s.f.rateStarted, s.At(th));
    StepFlag(s, th);
    StepPlaces(s, th);
    RateKinds(t, s.At(th)[0]);
    ContinueRate(s.f, s.Others(th), s.At(th));
    RateAdvance(t.q, t'.q, s.f.rateStarted, s.At(th)[0], p);
    PlacedRate(s, th, p, t'.q, Stepped(s, th));
  }

  lemma ExpiredRate(s: Port, q: Q.Queue, k: Q.Key, d: Detail)
    requires RatePort(s, q) && s.Quiet() && k in q.pending
    ensures RatePort(Expired(s, q.pending[k].kind, d), Q.Expire(q, k))
  {
    var kind, q' := q.pending[k].kind, Q.Expire(q, k);
    var p := Callback(s.f.cfg, s.f.role, kind, d);
    CallbackPlain(s.f.cfg, s.f.role, kind, d);
    assert Q.OfKind(q', Q.SyncRate) == Q.OfKind(q, Q.SyncRate) - {k};
    if kind == Q.SyncRate {
      assert k in Q.OfKind(q, Q.SyncRate);
    } else {
      assert p != [] ==> p[0] in p;
    }
    PlacedRate(s, Timer, p, q', Expired(s, kind, d));
  }

  lemma BegunRate(s: Port, q: Q.Queue, c: Call)
    requires RatePort(s, q) && s.Quiet()
    ensures RatePort(Begun(s, c), q)
  {
    var p := Program(s.f.cfg, s.f.role, c);
    ProgramPlain(s.f.cfg, s.f.role, c);
    assert p != [] ==> p[0] in p;
    BegunPlaces(s, c);
    PlacedRate(s, Caller(c), p, q, Begun(s, c));
  }

  lemma FineAt(s: Port, restarting: set<Q.Kind>, th: Thread)
    requires Form(s, restarting)
    ensures Fine(s.At(th))
  {
  }

  lemma NextRatePort(w: World, e: Event)
    requires RatePort(w.s, w.t.q) && Q.Invariant(w.t) && Enabled(w, e) && (e.Step? || w.s.Quiet())
    requires e.Step? ==> Fine(w.s.At(e.th))
    ensures RatePort(Next(w, e).s, Next(w, e).t.q)
  {
    match e {
      case Begin(c) => BegunRate(w.s, w.t.q, c);
      case Signal(k, d) => if k in w.t.q.pending { ExpiredRate(w.s, w.t.q, k, d); }
      case Step(th) => StepRate(w.s, w.t, th);
    }
  }

  lemma NextRate(w: World, e: Event)
    requires RateGood(w) && Enabled(w, e) && (e.Step? || w.s.Quiet())
    ensures RateGood(Next(w, e))
  {
    NextShape(w, e);
    if e.Step? {
      FineAt(w.s, w.t.restarting, e.th);
    }
    NextRatePort(w, e);
  }

  /** One call at a time, the flag keeps the SYNC_RATE timer single. */
  lemma {:induction false} SequentialRate(w: World, es: seq<Event>)
    requires RateGood(w) && Runs(w, es) && Sequential(w, es)
    ensures RateGood(After(w, es))
    decreases |es|
  {
    if es == [] {
    } else {
      NextRate(w, es[0]);
      SequentialRate(Next(w, es[0]), es[1..]);
    }
  }

  lemma StartRate(cfg: Config, role: Role)
    ensures RateGood(Start(cfg, role))
  {
    StartShape(cfg, role);
    assert Fresh(cfg, role).With(Timer, []).Quiet();
  }
}
