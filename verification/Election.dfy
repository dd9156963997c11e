/** Best master election of a single-port clock in the standard profile, and of
    two such clocks joined by a link that may lose, delay, repeat, reorder and echo
    Announce messages. */
module Election {
  import opened MachineInts
  import opened PriorityVectors

  datatype PortState = Initializing | Master | Slave

  datatype Announce = Announce(source: Identity, vector: Vector, stepsRemoved: uint16, path: seq<Identity>)

  /** The election state: announcing means an ANNOUNCE_INTERVAL timer is pending,
      newSetPoint that the servo was told to step. */
  datatype State = State(
    own: Vector, port: PortState, gm: Vector, qualified: Option<Announce>,
    lastBest: Identity, announcing: bool, newSetPoint: bool)

  // ---- the handlers as functions -----------------------------------------------

  function BecomeMaster(c: State): State { c.(port := Master, announcing := true) }

  function BecomeSlave(c: State): State { c.(port := Slave, announcing := false, newSetPoint := true) }

  predicate SlaveOnly(c: State) { c.own.priority1 == 255 }

  /** POWERUP, INITIALIZE and LINKUP re-enter the current role. */
  function PowerUp(c: State): State {
    if SlaveOnly(c) || c.port == Slave then BecomeSlave(c)
    else if c.port == Master then BecomeMaster(c)
    else c
  }

  predicate Acceptable(c: State, m: Announce) {
    m.stepsRemoved < 255 && m.source != c.own.identity && c.own.identity !in m.path
  }

  function Receive(c: State, m: Announce): State {
    if Acceptable(c, m) then c.(qualified := Some(m)) else c
  }

  function RecommendSlave(c: State, changed: bool): State {
    if c.port != Slave then BecomeSlave(c) else if changed then c.(newSetPoint := true) else c
  }

  /** processStateChange: elect between the qualified announce and this clock. */
  function StateChange(c: State): State {
    if SlaveOnly(c) || c.qualified.None? then c
    else
      var best := c.qualified.value.vector;
      var c' := c.(lastBest := best.identity);
      if Better(c.own, best) then
        var g := c'.(gm := c.own);
        if g.port != Master then BecomeMaster(g) else g
      else
        RecommendSlave(c', best.identity != c.lastBest).(gm := best)
  }

  /** Announce or Sync receipt timeout: without a master, be one. */
  function ReceiptTimeout(c: State): State {
    if SlaveOnly(c) || c.port == Master then c
    else c.(gm := c.own, port := Master, qualified := None, announcing := true)
  }

  /** What an expiring announce timer sends: own attributes, grandmaster's identity. */
  function AnnounceOf(c: State): Announce {
    Announce(c.own.identity, c.own.(identity := c.gm.identity), 0, [c.own.identity])
  }

  // ---- the port, updated in place -------------------------------------------------

  class Port {
    const own: Vector
    var port: PortState
    var gm: Vector
    var qualified: Option<Announce>
    var lastBest: Identity
    var announcing: bool
    var newSetPoint: bool

    function View(): State
      reads this
    {
      State(own, port, gm, qualified, lastBest, announcing, newSetPoint)
    }

    constructor (own: Vector, gm: Vector)
      ensures View() == Start(own, gm)
    {
      this.own, this.gm := own, gm;
      port, qualified, lastBest := Initializing, None, NO_CLOCK;
      announcing, newSetPoint := false, false;
    }

    method EnterMaster()
      modifies this
      ensures View() == BecomeMaster(old(View()))
    {
      port := Master;
      announcing := true;
    }

    method EnterSlave()
      modifies this
      ensures View() == BecomeSlave(old(View()))
    {
      announcing := false;
      port := Slave;
      newSetPoint := true;
    }

    method HandlePowerUp()
      modifies this
      ensures View() == PowerUp(old(View()))
    {
      if own.priority1 == 255 || port == Slave {
        EnterSlave();
      } else if port == Master {
        EnterMaster();
      }
    }

    method HandleAnnounce(m: Announce)
      modifies this
      ensures View() == Receive(old(View()), m)
    {
      if m.stepsRemoved >= 255 {
        return;
      }
      if m.source == own.identity {
        return;
      }
      if own.identity in m.path {
        return;
      }
      qualified := Some(m);
    }

    method HandleStateChange()
      modifies this
      ensures View() == StateChange(old(View()))
    {
      if own.priority1 == 255 || qualified.None? {
        return;
      }
      var best := qualified.value.vector;
      var changed := best.identity != lastBest;
      if changed {
        lastBest := best.identity;
      }
      var better := IsBetterThan(own, Some(best));
      if better {
        gm := own;
        if port != Master {
          EnterMaster();
        }
      } else {
        if port != Slave {
          EnterSlave();
        } else if changed {
          newSetPoint := true;
        }
        gm := best;
      }
    }

    method HandleReceiptTimeout()
      modifies this
      ensures View() == ReceiptTimeout(old(View()))
    {
      if own.priority1 == 255 || port == Master {
        return;
      }
      gm := own;
      port := Master;
      qualified := None;
      announcing := true;
    }
  }

  // ---- one clock -------------------------------------------------------------------

  const NO_CLOCK: Identity := [0xFF, 0xFF, 0xFF, 0xFF, 0xFF, 0xFF, 0xFF, 0xFF]

  /** A fresh port; the grandmaster fields are not initialized. */
  function Start(own: Vector, gm: Vector): State {
    State(own, Initializing, gm, None, NO_CLOCK, false, false)
  }

  datatype Event =
    | Powered | LinkDown | Heard(m: Announce) | Elect | Timeout
    | Forced    // becomeMaster by the wrong-sequence rule of Follow_Up
    | Signalled // the announce timer is started by a signalling message

  /** The events of the election proper. */
  predicate Ordinary(e: Event) { !e.Forced? && !e.Signalled? }

  function Step(c: State, e: Event): State {
    match e
    case Powered => PowerUp(c)
    case LinkDown => c
    case Heard(m) => Receive(c, m)
    case Elect => StateChange(c)
    case Timeout => ReceiptTimeout(c)
    case Forced => BecomeMaster(c)
    case Signalled => c.(announcing := true)
  }

  function Run(c: State, es: seq<Event>): State
    decreases |es|
  {
    if es == [] then c else Run(Step(c, es[0]), es[1..])
  }

  /** A clock announces exactly while it is master, and a master names itself grandmaster. */
  predicate Honest(c: State) {
    (c.announcing <==> c.port == Master) && (c.port == Master ==> c.gm == c.own)
  }

  lemma StepHonest(c: State, e: Event)
    requires Honest(c) && !SlaveOnly(c) && Ordinary(e)
    ensures Honest(Step(c, e)) && Step(c, e).own == c.own
  {
  }

  /** Over every run of a fresh clock that may become master, and against any
      announces whatever. */
  lemma {:induction false} RunHonest(c: State, es: seq<Event>)
    requires Honest(c) && !SlaveOnly(c) && forall e :: e in es ==> Ordinary(e)
    ensures Honest(Run(c, es)) && Run(c, es).own == c.own
    ensures Run(c, es).announcing ==> AnnounceOf(Run(c, es)) == Announce(c.own.identity, c.own, 0, [c.own.identity])
    decreases |es|
  {
    if es == [] {
    } else {
      StepHonest(c, es[0]);
      RunHonest(Step(c, es[0]), es[1..]);
    }
  }

  // ---- which announce is stored -----------------------------------------------------

  /** Fewer than 255 steps away, from another clock, and not by way of this one. */
  predicate Admissible(me: Identity, m: Announce) {
    m.stepsRemoved <= 254 && m.source != me && forall i :: 0 <= i < |m.path| ==> m.path[i] != me
  }

  lemma {:induction false} RunOne(c: State, es: seq<Event>, e: Event)
    ensures Run(c, es + [e]) == Step(Run(c, es), e)
    decreases |es|
  {
    if es == [] {
      assert ([] + [e])[1..] == [];
    } else {
      RunOne(Step(c, es[0]), es[1..], e);
      assert (es + [e])[1..] == es[1..] + [e];
    }
  }

  /** The i-th event brought an admissible announce. */
  predicate Brought(c: State, es: seq<Event>, i: nat)
    requires i < |es|
  {
    es[i].Heard? && Admissible(c.own.identity, es[i].m)
  }

  /** The i-th event is a receipt timeout that makes the clock a master. */
  predicate Forgotten(c: State, es: seq<Event>, i: nat)
    requires i < |es|
  {
    es[i].Timeout? && !SlaveOnly(c) && Run(c, es[..i]).port != Master
  }

  /** The last admissible announce, if none was forgotten since. */
  ghost predicate StoredAt(c: State, es: seq<Event>, i: nat)
    requires i < |es|
  {
    Brought(c, es, i) && forall j :: i < j < |es| ==> !Brought(c, es, j) && !Forgotten(c, es, j)
  }

  lemma StepStores(c: State, e: Event)
    ensures Step(c, e).own == c.own
    ensures Step(c, e).qualified
            == if e.Heard? && Admissible(c.own.identity, e.m) then Some(e.m)
               else if e.Timeout? && !SlaveOnly(c) && c.port != Master then None
               else c.qualified
  {
  }

  lemma PlacesLater(c: State, es: seq<Event>, e: Event, i: nat)
    requires i < |es|
    ensures Brought(c, es + [e], i) == Brought(c, es, i) && Forgotten(c, es + [e], i) == Forgotten(c, es, i)
  {
    assert (es + [e])[..i] == es[..i];
  }

  /** On every run of a fresh clock, whatever it hears, the announce stored is the last
      admissible one, if no receipt timeout came since that made it a master. */
  lemma {:induction false} RunStores(c: State, es: seq<Event>, m: Announce)
    requires c.qualified.None?
    ensures Run(c, es).own == c.own
    ensures Run(c, es).qualified == Some(m) <==> exists i :: 0 <= i < |es| && StoredAt(c, es, i) && es[i].m == m
    decreases |es|
  {
    if es == [] {
    } else {
      var front, e := es[..|es| - 1], es[|es| - 1];
      assert front + [e] == es;
      RunStores(c, front, m);
      RunOne(c, front, e);
      StepStores(Run(c, front), e);
      forall i | 0 <= i < |front|
        ensures Brought(c, es, i) == Brought(c, front, i) && Forgotten(c, es, i) == Forgotten(c, front, i)
      {
        PlacesLater(c, front, e, i);
      }
      StoresOne(c, front, e);
    }
  }

  lemma StoresOne(c: State, front: seq<Event>, e: Event)
    requires forall i :: 0 <= i < |front| ==>
               && Brought(c, front + [e], i) == Brought(c, front, i)
               && Forgotten(c, front + [e], i) == Forgotten(c, front, i)
    ensures forall i :: 0 <= i < |front| ==>
              (StoredAt(c, front + [e], i) <==>
               StoredAt(c, front, i) && !Brought(c, front + [e], |front|) && !Forgotten(c, front + [e], |front|))
    ensures StoredAt(c, front + [e], |front|) <==> e.Heard? && Admissible(c.own.identity, e.m)
  {
  }

  // ---- which role a clock has ----------------------------------------------------------

  lemma {:induction false} RunOwn(c: State, es: seq<Event>)
    ensures Run(c, es).own == c.own
    decreases |es|
  {
    if es == [] {
    } else {
      StepStores(c, es[0]);
      RunOwn(Step(c, es[0]), es[1..]);
    }
  }

  /** Role, grandmaster and announcing. */
  predicate Stands(c: State, port: PortState, gm: Vector, announcing: bool) {
    c.port == port && c.gm == gm && c.announcing == announcing
  }

  /** On every run, with an announce stored, an election makes the clock master with itself as
      grandmaster if it is better, and otherwise slave of the announced one; the announce
      timer runs on in a role that the clock has already, and else is as the role asks. */
  lemma RunElects(c: State, es: seq<Event>, m: Announce)
    requires c.own.priority1 != 255 && Run(c, es).qualified == Some(m)
    ensures var d, d' := Run(c, es), Run(c, es + [Elect]);
            if Better(c.own, m.vector) then Stands(d', Master, c.own, d.port != Master || d.announcing)
            else Stands(d', Slave, m.vector, d.port == Slave && d.announcing)
  {
    RunOwn(c, es);
    RunOne(c, es, Elect);
  }

  /** What every other event makes of role, grandmaster and announcing on every run: a receipt
      timeout makes a clock that may be master its own grandmaster, power-up re-enters the
      role, a clock with priority 255 is always a slave then, and nothing else decides. */
  lemma RunStands(c: State, es: seq<Event>, e: Event)
    ensures var d, d' := Run(c, es), Run(c, es + [e]);
            match e
            case Timeout =>
              if c.own.priority1 == 255 || d.port == Master then d' == d else Stands(d', Master, c.own, true)
            case Powered =>
              if c.own.priority1 == 255 || d.port == Slave then Stands(d', Slave, d.gm, false)
              else Stands(d', d.port, d.gm, d.port == Master || d.announcing)
            case Elect => c.own.priority1 == 255 || d.qualified.None? ==> d' == d
            case Forced => Stands(d', Master, d.gm, true)
            case Signalled => Stands(d', d.port, d.gm, true)
            case _ => Stands(d', d.port, d.gm, d.announcing)
  {
    RunOwn(c, es);
    RunOne(c, es, e);
  }

  /** The i-th event gives a clock without a role one. */
  ghost predicate DecidesAt(c: State, es: seq<Event>, i: nat)
    requires i < |es|
  {
    es[i].Timeout? || es[i].Forced? || (es[i].Elect? && Run(c, es[..i]).qualified.Some?)
  }

  lemma DecidesLater(c: State, es: seq<Event>, e: Event, i: nat)
    requires i < |es|
    ensures DecidesAt(c, es + [e], i) == DecidesAt(c, es, i)
  {
    assert (es + [e])[..i] == es[..i];
  }

  /** A fresh clock that may be master is without a role exactly until the first receipt
      timeout, forced switch or election with an announce to decide on; until then it has
      elected nobody, was not told to step, and announces only if signalled to. */
  lemma {:induction false} RunRoleless(own: Vector, gm: Vector, es: seq<Event>)
    requires own.priority1 != 255
    ensures var c := Run(Start(own, gm), es);
            && (c.port == Initializing <==> forall i :: 0 <= i < |es| ==> !DecidesAt(Start(own, gm), es, i))
            && (c.port == Initializing ==>
                  && c.gm == gm && !c.newSetPoint && c.announcing == (Signalled in es)
                  && c.lastBest == [0xFF, 0xFF, 0xFF, 0xFF, 0xFF, 0xFF, 0xFF, 0xFF])
    decreases |es|
  {
    var c := Start(own, gm);
    if es == [] {
    } else {
      var front, e := es[..|es| - 1], es[|es| - 1];
      assert front + [e] == es && es[..|front|] == front;
      RunRoleless(own, gm, front);
      RunOwn(c, front);
      RunOne(c, front, e);
      forall i | 0 <= i < |front|
        ensures DecidesAt(c, es, i) == DecidesAt(c, front, i)
      {
        DecidesLater(c, front, e, i);
      }
      assert DecidesAt(c, es, |front|)
          <==> e.Timeout? || e.Forced? || (e.Elect? && Run(c, front).qualified.Some?);
      if Run(c, front).port != Initializing {
        var i :| 0 <= i < |front| && DecidesAt(c, front, i);
        assert DecidesAt(c, es, i);
      }
      assert Signalled in es <==> Signalled in front || e == Signalled;
    }
  }

  /** An announce carries the clock's own attributes and its grandmaster's identity, whoever
      that is, zero steps and a path of this clock alone. */
  lemma AnnounceMeans(c: State)
    ensures var m, v := AnnounceOf(c), AnnounceOf(c).vector;
            && m.source == c.own.identity && m.stepsRemoved == 0 && m.path == [c.own.identity]
            && v.identity == c.gm.identity && v.priority1 == c.own.priority1 && v.priority2 == c.own.priority2
            && v.cqClass == c.own.cqClass && v.accuracy == c.own.accuracy && v.variance == c.own.variance
  {
  }

  /** When the servo is told to step: on entering the role of a slave, and on electing
      another master than the one elected last. */
  lemma SetPointExactly(c: State, e: Event)
    ensures var c', decides := Step(c, e), e.Elect? && !SlaveOnly(c) && c.qualified.Some?;
            && (c'.newSetPoint <==>
                || c.newSetPoint
                || (e.Powered? && c'.port == Slave)
                || (decides && c'.port == Slave
                    && (c.port != Slave || c.qualified.value.vector.identity != c.lastBest)))
            && c'.lastBest == if decides then c.qualified.value.vector.identity else c.lastBest
  {
  }

  /** A clock with priority 255, whatever it hears and however long it waits, never announces,
      never becomes master and never takes up a grandmaster; it is a slave from the first
      power-up on. */
  lemma {:induction false} RunSlaveOnly(c: State, es: seq<Event>)
    requires c.own.priority1 == 255 && c.port != Master && !c.announcing && forall e :: e in es ==> Ordinary(e)
    ensures var d := Run(c, es);
            && d.own == c.own && d.gm == c.gm && !d.announcing && d.port != Master
            && (d.port == Slave <==> c.port == Slave || Powered in es)
    decreases |es|
  {
    if es == [] {
    } else {
      assert es[0] in es && forall e :: e in es[1..] ==> e in es;
      RunSlaveOnly(Step(c, es[0]), es[1..]);
      assert es == [es[0]] + es[1..];
    }
  }

  // ---- announcing without being elected ---------------------------------------------

  /** A master that announces another clock's identity. */
  predicate Foreign(c: State) { c.port == Master && c.announcing && c.gm != c.own }

  /** A clock that announces without being master. */
  predicate Babbling(c: State) { c.port != Master && c.announcing }

  /** With forced switches and signalling these are the only ways to be dishonest, on
      every run against any announces. */
  lemma {:induction false} RunKinds(c: State, es: seq<Event>)
    requires !SlaveOnly(c) && (Honest(c) || Foreign(c) || Babbling(c))
    ensures Honest(Run(c, es)) || Foreign(Run(c, es)) || Babbling(Run(c, es))
    decreases |es|
  {
    if es == [] {
    } else {
      RunKinds(Step(c, es[0]), es[1..]);
    }
  }

  /** The announce that is stored after some events, if none of them clears it. */
  function Latest(c: State, es: seq<Event>): Option<Announce> {
    if es == [] then c.qualified
    else
      var e := es[|es| - 1];
      if e.Heard? && Admissible(c.own.identity, e.m) then Some(e.m) else Latest(c, es[..|es| - 1])
  }

  /** No event is an election that has an announce to decide on. */
  predicate NeverDecides(c: State, es: seq<Event>) {
    es == [] ||
    var front := es[..|es| - 1];
    NeverDecides(c, front) && !(es[|es| - 1] == Elect && Latest(c, front).Some?)
  }

  lemma ForeignStep(c: State, e: Event)
    requires Foreign(c) && !SlaveOnly(c)
    ensures var c', decides := Step(c, e), e == Elect && c.qualified.Some?;
            && (!decides ==>
                  && Foreign(c') && c'.own == c.own
                  && c'.qualified == if e.Heard? && Admissible(c.own.identity, e.m) then Some(e.m) else c.qualified)
            && (decides ==> Honest(c'))
  {
  }

  /** What a clock keeps while its dishonesty lasts. */
  predicate StillForeign(c: State, d: State, latest: Option<Announce>) {
    Foreign(d) && d.qualified == latest && d.own == c.own
  }

  lemma {:induction false} ForeignMeanwhile(c: State, es: seq<Event>)
    requires Foreign(c) && !SlaveOnly(c) && NeverDecides(c, es)
    ensures StillForeign(c, Run(c, es), Latest(c, es))
    decreases |es|
  {
    if es == [] {
    } else {
      var front, e := es[..|es| - 1], es[|es| - 1];
      ForeignMeanwhile(c, front);
      RunOne(c, front, e);
      assert front + [e] == es;
      ForeignStep(Run(c, front), e);
    }
  }

  /** A forced master with a foreign grandmaster stays one, whatever happens, exactly
      until an election that has an announce to decide on; that one makes it honest. */
  lemma ForeignLasts(c: State, es: seq<Event>, e: Event)
    requires Foreign(c) && !SlaveOnly(c) && NeverDecides(c, es)
    ensures Foreign(Run(c, es))
    ensures if e == Elect && Latest(c, es).Some? then Honest(Run(c, es + [e])) else Foreign(Run(c, es + [e]))
  {
    ForeignMeanwhile(c, es);
    RunOne(c, es, e);
    ForeignStep(Run(c, es), e);
  }

  /** The events that end a clock's babbling, told by its role and the announces heard:
      it becomes master, or the timer is cancelled on entering the role of a slave. */
  predicate EndsBy(port: PortState, own: Vector, latest: Option<Announce>, e: Event) {
    match e
    case Timeout => true
    case Forced => true
    case Powered => port == Slave
    case Elect => latest.Some? && (port != Slave || Better(own, latest.value.vector))
    case _ => false
  }

  predicate NeverEnds(c: State, es: seq<Event>) {
    es == [] ||
    var front := es[..|es| - 1];
    NeverEnds(c, front) && !EndsBy(c.port, c.own, Latest(c, front), es[|es| - 1])
  }

  lemma BabblingStep(c: State, e: Event)
    requires Babbling(c) && !SlaveOnly(c)
    ensures var c', ends := Step(c, e), EndsBy(c.port, c.own, c.qualified, e);
            && (!ends ==>
                  && Babbling(c') && c'.port == c.port && c'.own == c.own
                  && c'.qualified == if e.Heard? && Admissible(c.own.identity, e.m) then Some(e.m) else c.qualified)
            && (ends ==> !Babbling(c') && (!e.Forced? ==> Honest(c')))
  {
  }

  predicate StillBabbling(c: State, d: State, latest: Option<Announce>) {
    Babbling(d) && d.qualified == latest && d.own == c.own && d.port == c.port
  }

  lemma {:induction false} BabblingMeanwhile(c: State, es: seq<Event>)
    requires Babbling(c) && !SlaveOnly(c) && NeverEnds(c, es)
    ensures StillBabbling(c, Run(c, es), Latest(c, es))
    decreases |es|
  {
    if es == [] {
    } else {
      var front, e := es[..|es| - 1], es[|es| - 1];
      BabblingMeanwhile(c, front);
      RunOne(c, front, e);
      assert front + [e] == es;
      BabblingStep(Run(c, front), e);
    }
  }

  /** A clock that announces without being master goes on exactly until such an event;
      in particular a slave that elects the same master again goes on.  Unless it was
      forced to master, it is honest afterwards. */
  lemma BabblingLasts(c: State, es: seq<Event>, e: Event)
    requires Babbling(c) && !SlaveOnly(c) && NeverEnds(c, es)
    ensures Babbling(Run(c, es))
    ensures Babbling(Run(c, es + [e])) <==> !EndsBy(c.port, c.own, Latest(c, es), e)
    ensures EndsBy(c.port, c.own, Latest(c, es), e) && !e.Forced? ==> Honest(Run(c, es + [e]))
  {
    BabblingMeanwhile(c, es);
    RunOne(c, es, e);
    BabblingStep(Run(c, es), e);
  }

  /** Both happen: a clock that follows a better one is forced, or signalled. */
  lemma FollowerMustNotAnnounce(own: Vector, gm: Vector, best: Vector)
    requires own.priority1 < 255 && own.identity != best.identity && Better(best, own)
    ensures var m := OwnAnnounce(best);
            && Foreign(Run(Start(own, gm), [Heard(m), Elect, Forced]))
            && Babbling(Run(Start(own, gm), [Heard(m), Elect, Signalled]))
  {
    var m := OwnAnnounce(best);
    var c := Start(own, gm);
    BetterIsStrictTotal(own, best, own);
    var none: seq<Event> := [];
    RunOne(c, none, Heard(m));
    RunOne(c, [Heard(m)], Elect);
    RunOne(c, [Heard(m), Elect], Forced);
    RunOne(c, [Heard(m), Elect], Signalled);
    assert none + [Heard(m)] == [Heard(m)] && [Heard(m)] + [Elect] == [Heard(m), Elect];
    assert [Heard(m), Elect] + [Forced] == [Heard(m), Elect, Forced];
    assert [Heard(m), Elect] + [Signalled] == [Heard(m), Elect, Signalled];
    assert Run(c, none) == c;
  }

  // ---- two clocks on a link -----------------------------------------------------------

  datatype Side = A | B

  function Other(s: Side): Side { if s == A then B else A }

  /** A clock, every announce it has put on the wire, and whether its last change
      of mind was an election rather than a timeout. */
  datatype Node = Node(c: State, sent: set<Announce>, decided: bool)

  datatype Net = Net(a: Node, b: Node) {
    function At(s: Side): Node { if s == A then a else b }
    function With(s: Side, x: Node): Net { if s == A then Net(x, b) else Net(a, x) }
  }

  datatype NetEvent =
    | Local(s: Side, e: Event)              // anything but hearing a message
    | AnnounceTimer(s: Side, asCapable: bool)
    | Deliver(s: Side, m: Announce)         // to s, from the other clock
    | Echo(s: Side, m: Announce)            // to s, one of its own

  predicate Enabled(n: Net, e: NetEvent) {
    match e
    case Local(_, ev) => !ev.Heard? && Ordinary(ev)
    case AnnounceTimer(s, _) => n.At(s).c.announcing
    case Deliver(s, m) => m in n.At(Other(s)).sent
    case Echo(s, m) => m in n.At(s).sent
  }

  function NodeStep(x: Node, e: Event): Node {
    Node(Step(x.c, e), x.sent,
         if e.Elect? && !SlaveOnly(x.c) && x.c.qualified.Some? then true
         else if e.Timeout? && x.c.port != Master then false
         else x.decided)
  }

  function NetNext(n: Net, e: NetEvent): Net
    requires Enabled(n, e)
  {
    match e
    case Local(s, ev) => n.With(s, NodeStep(n.At(s), ev))
    case AnnounceTimer(s, asCapable) =>
      if asCapable then n.With(s, n.At(s).(sent := n.At(s).sent + {AnnounceOf(n.At(s).c)})) else n
    case Deliver(s, m) => n.With(s, n.At(s).(c := Receive(n.At(s).c, m)))
    case Echo(s, m) => n.With(s, n.At(s).(c := Receive(n.At(s).c, m)))
  }

  predicate NetRuns(n: Net, es: seq<NetEvent>)
    decreases |es|
  {
    es != [] ==> Enabled(n, es[0]) && NetRuns(NetNext(n, es[0]), es[1..])
  }

  function NetAfter(n: Net, es: seq<NetEvent>): Net
    requires NetRuns(n, es)
    decreases |es|
  {
    if es == [] then n else NetAfter(NetNext(n, es[0]), es[1..])
  }

  function NetStart(a: Vector, b: Vector, junkA: Vector, junkB: Vector): Net {
    Net(Node(Start(a, junkA), {}, false), Node(Start(b, junkB), {}, false))
  }

  /** The announce of a clock that names itself grandmaster. */
  function OwnAnnounce(own: Vector): Announce { Announce(own.identity, own, 0, [own.identity]) }

  /** Where the election puts a clock that faces the given other one. */
  predicate Elected(c: State, other: Vector) {
    if Better(c.own, other) then c.port == Master && c.gm == c.own else c.port == Slave && c.gm == other
  }

  /** One node, facing a clock with the given vector. */
  ghost predicate NodeGood(x: Node, other: Vector) {
    && !SlaveOnly(x.c) && Honest(x.c)
    && (forall m :: m in x.sent ==> m == OwnAnnounce(x.c.own))
    && (x.c.qualified.Some? ==> x.c.qualified.value.vector == other)
    && (x.c.port == Slave ==> !Better(x.c.own, other))
    && (x.decided ==> Elected(x.c, other))
  }

  ghost predicate Inv(n: Net) {
    n.a.c.own.identity != n.b.c.own.identity && NodeGood(n.a, n.b.c.own) && NodeGood(n.b, n.a.c.own)
  }

  lemma NodeStepGood(x: Node, other: Vector, e: Event)
    requires NodeGood(x, other) && !e.Heard? && Ordinary(e)
    ensures NodeGood(NodeStep(x, e), other) && NodeStep(x, e).c.own == x.c.own
  {
  }

  lemma NetStepKeeps(n: Net, e: NetEvent)
    requires Inv(n) && Enabled(n, e)
    ensures Inv(NetNext(n, e))
    ensures NetNext(n, e).a.c.own == n.a.c.own && NetNext(n, e).b.c.own == n.b.c.own
  {
    match e {
      case Local(s, ev) => NodeStepGood(n.At(s), n.At(Other(s)).c.own, ev);
      case AnnounceTimer(s, _) => assert AnnounceOf(n.At(s).c) == OwnAnnounce(n.At(s).c.own);
      case Deliver(s, m) => assert m == OwnAnnounce(n.At(Other(s)).c.own);
      case Echo(s, m) => assert m == OwnAnnounce(n.At(s).c.own);
    }
  }

  lemma {:induction false} NetRunKeeps(n: Net, es: seq<NetEvent>)
    requires Inv(n) && NetRuns(n, es)
    ensures Inv(NetAfter(n, es))
    ensures NetAfter(n, es).a.c.own == n.a.c.own && NetAfter(n, es).b.c.own == n.b.c.own
    decreases |es|
  {
    if es == [] {
    } else {
      NetStepKeeps(n, es[0]);
      NetRunKeeps(NetNext(n, es[0]), es[1..]);
    }
  }

  /** Exactly one master, the better clock s, and one grandmaster known to both. */
  predicate AgreedOn(n: Net, s: Side) {
    var winner, loser := n.At(s).c, n.At(Other(s)).c;
    && Better(winner.own, loser.own)
    && winner.port == Master && loser.port == Slave
    && winner.gm == loser.gm == winner.own
  }

  lemma Winner(n: Net) returns (s: Side)
    requires Inv(n)
    ensures Better(n.At(s).c.own, n.At(Other(s)).c.own) && !Better(n.At(Other(s)).c.own, n.At(s).c.own)
  {
    var a, b := n.a.c.own, n.b.c.own;
    BetterIsStrictTotal(a, b, b);
    s := if Better(a, b) then A else B;
  }

  /** Safety: on every run the two agree as soon as the better clock is master, however
      it became so, and the other one last decided by election; in particular when both
      last decided by election. */
  lemma DecidedClocksAgree(a: Vector, b: Vector, junkA: Vector, junkB: Vector, es: seq<NetEvent>)
    requires a.identity != b.identity && a.priority1 < 255 && b.priority1 < 255
    requires NetRuns(NetStart(a, b, junkA, junkB), es)
    ensures var n, s := NetAfter(NetStart(a, b, junkA, junkB), es), if Better(a, b) then A else B;
            && (n.At(Other(s)).decided && (n.At(s).c.port == Master || n.At(s).decided) ==> AgreedOn(n, s))
            && !AgreedOn(n, Other(s))
  {
    NetRunKeeps(NetStart(a, b, junkA, junkB), es);
    var s := Winner(NetAfter(NetStart(a, b, junkA, junkB), es));
  }

  /** Stability: an agreement survives every event except a receipt timeout at
      the losing clock, which always breaks it. */
  lemma AgreementIsStable(n: Net, s: Side, e: NetEvent)
    requires Inv(n) && AgreedOn(n, s) && Enabled(n, e)
    ensures AgreedOn(NetNext(n, e), s) <==> e != Local(Other(s), Timeout)
  {
    NetStepKeeps(n, e);
    BetterIsStrictTotal(n.At(s).c.own, n.At(Other(s)).c.own, n.At(s).c.own);
  }

  /** The better clock gives up waiting and announces; the announce gets through
      and the other clock elects. */
  function Schedule(n: Net, s: Side): seq<NetEvent> {
    [Local(s, Timeout), AnnounceTimer(s, true), Deliver(Other(s), OwnAnnounce(n.At(s).c.own)), Local(Other(s), Elect)]
  }

  lemma SpeaksUp(n: Net, s: Side) returns (n1: Net, n2: Net)
    requires Inv(n) && Better(n.At(s).c.own, n.At(Other(s)).c.own)
    ensures n1 == NetNext(n, Local(s, Timeout)) && Enabled(n1, AnnounceTimer(s, true))
    ensures n2 == NetNext(n1, AnnounceTimer(s, true)) && Inv(n2)
    ensures n2.At(s).c.own == n.At(s).c.own && n2.At(Other(s)).c == n.At(Other(s)).c
    ensures n2.At(s).c.port == Master && OwnAnnounce(n.At(s).c.own) in n2.At(s).sent
  {
    n1 := NetNext(n, Local(s, Timeout));
    NetStepKeeps(n, Local(s, Timeout));
    BetterIsStrictTotal(n.At(s).c.own, n.At(Other(s)).c.own, n.At(s).c.own);
    n2 := NetNext(n1, AnnounceTimer(s, true));
    NetStepKeeps(n1, AnnounceTimer(s, true));
  }

  lemma Listens(n: Net, s: Side) returns (n1: Net, n2: Net)
    requires Inv(n) && Better(n.At(s).c.own, n.At(Other(s)).c.own)
    requires n.At(s).c.port == Master && OwnAnnounce(n.At(s).c.own) in n.At(s).sent
    ensures Enabled(n, Deliver(Other(s), OwnAnnounce(n.At(s).c.own)))
    ensures n1 == NetNext(n, Deliver(Other(s), OwnAnnounce(n.At(s).c.own)))
    ensures n2 == NetNext(n1, Local(Other(s), Elect)) && AgreedOn(n2, s)
  {
    BetterIsStrictTotal(n.At(s).c.own, n.At(Other(s)).c.own, n.At(s).c.own);
    n1 := NetNext(n, Deliver(Other(s), OwnAnnounce(n.At(s).c.own)));
    assert n1.At(Other(s)).c.qualified == Some(OwnAnnounce(n.At(s).c.own));
    n2 := NetNext(n1, Local(Other(s), Elect));
  }

  /** Convergence: from every reachable state, whatever went wrong before, one
      announce of the better clock that gets through makes them agree. */
  lemma OneAnnounceSettles(n: Net, s: Side)
    requires Inv(n) && Better(n.At(s).c.own, n.At(Other(s)).c.own)
    ensures NetRuns(n, Schedule(n, s)) && AgreedOn(NetAfter(n, Schedule(n, s)), s)
  {
    var es := Schedule(n, s);
    var n1, n2 := SpeaksUp(n, s);
    var n3, n4 := Listens(n2, s);
    Prepend(n3, es[3], []);
    Prepend(n2, es[2], [es[3]]);
    Prepend(n1, es[1], [es[2], es[3]]);
    Prepend(n, es[0], [es[1], es[2], es[3]]);
  }

  lemma Prepend(n: Net, e: NetEvent, es: seq<NetEvent>)
    requires Enabled(n, e) && NetRuns(NetNext(n, e), es)
    ensures NetRuns(n, [e] + es) && NetAfter(n, [e] + es) == NetAfter(NetNext(n, e), es)
  {
    assert ([e] + es)[1..] == es;
  }

  /** The worse clock has heard of the better one. */
  predicate Informed(n: Net, s: Side) { n.At(s).c.port == Master && n.At(Other(s)).c.qualified.Some? }

  lemma StaysInformed(n: Net, s: Side, e: NetEvent)
    requires Inv(n) && Better(n.At(s).c.own, n.At(Other(s)).c.own) && Enabled(n, e) && e != Local(Other(s), Timeout)
    ensures n.At(s).c.port == Master ==> NetNext(n, e).At(s).c.port == Master
    ensures Informed(n, s) ==> Informed(NetNext(n, e), s)
    ensures n.At(Other(s)).decided ==> NetNext(n, e).At(Other(s)).decided
    ensures Informed(n, s) && e == Local(Other(s), Elect) ==> NetNext(n, e).At(Other(s)).decided
    ensures n.At(s).c.port == Master && e.Deliver? && e.s == Other(s) ==> Informed(NetNext(n, e), s)
  {
    BetterIsStrictTotal(n.At(s).c.own, n.At(Other(s)).c.own, n.At(s).c.own);
  }

  /** Convergence under any interleaving: once the better clock is master, every run in
      which one of its announces is delivered and, later, the other clock elects, ends
      in agreement, unless a receipt timeout strikes the other clock. */
  lemma {:induction false} AnyDeliverySettles(n: Net, s: Side, es: seq<NetEvent>, i: nat, j: nat)
    requires Inv(n) && Better(n.At(s).c.own, n.At(Other(s)).c.own) && n.At(s).c.port == Master && NetRuns(n, es)
    requires Local(Other(s), Timeout) !in es
    requires i < j < |es| && es[i].Deliver? && es[i].s == Other(s) && es[j] == Local(Other(s), Elect)
    ensures AgreedOn(NetAfter(n, es), s)
    decreases |es|
  {
    assert es[0] in es;
    NetStepKeeps(n, es[0]);
    StaysInformed(n, s, es[0]);
    if i == 0 {
      InformedSettles(NetNext(n, es[0]), s, es[1..], j - 1);
    } else {
      AnyDeliverySettles(NetNext(n, es[0]), s, es[1..], i - 1, j - 1);
    }
  }

  lemma {:induction false} InformedSettles(n: Net, s: Side, es: seq<NetEvent>, j: nat)
    requires Inv(n) && Better(n.At(s).c.own, n.At(Other(s)).c.own) && Informed(n, s) && NetRuns(n, es)
    requires Local(Other(s), Timeout) !in es && j < |es| && es[j] == Local(Other(s), Elect)
    ensures AgreedOn(NetAfter(n, es), s)
    decreases |es|
  {
    assert es[0] in es;
    NetStepKeeps(n, es[0]);
    StaysInformed(n, s, es[0]);
    if j == 0 {
      DecidedSettles(NetNext(n, es[0]), s, es[1..]);
    } else {
      InformedSettles(NetNext(n, es[0]), s, es[1..], j - 1);
    }
  }

  lemma {:induction false} DecidedSettles(n: Net, s: Side, es: seq<NetEvent>)
    requires Inv(n) && Better(n.At(s).c.own, n.At(Other(s)).c.own) && NetRuns(n, es)
    requires n.At(s).c.port == Master && n.At(Other(s)).decided && Local(Other(s), Timeout) !in es
    ensures AgreedOn(NetAfter(n, es), s)
    decreases |es|
  {
    if es == [] {
      BetterIsStrictTotal(n.At(s).c.own, n.At(Other(s)).c.own, n.At(s).c.own);
    } else {
      assert es[0] in es;
      NetStepKeeps(n, es[0]);
      StaysInformed(n, s, es[0]);
      DecidedSettles(NetNext(n, es[0]), s, es[1..]);
    }
  }
}
