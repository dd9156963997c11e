/** Pairing of Sync and Follow-Up messages on an Ethernet port, and what the pairs
    make the clock servo do. */
module SyncFollowUp {
  import opened MachineInts
  import opened Timestamps
  import L = LinkDelay
  import PeerDelay
  import Servo

  /** The neighbour rate ratios that PeerDelay.RunLinkGood leaves possible. */
  type Rate = r: real | PeerDelay.LOWER_RATIO < r < PeerDelay.UPPER_RATIO witness 1.0
  type int32 = x: int | -0x8000_0000 <= x < 0x8000_0000

  datatype Role = Disabled | Faulty | Listening | Master | Slave
  datatype Sync = Sync(seqId: uint16, source: PeerDelay.PortId, rx: Timestamp)
  datatype FollowUp = FollowUp(
    seqId: uint16, source: PeerDelay.PortId, origin: Timestamp, correctionField: int64, rateOffset: int32)

  /** syncReceiptThreshold, whether negative correction fields are allowed, Syncs per second. */
  datatype Config = Config(threshold: nat, allowNegative: bool, perSecond: real)

  /** A pair that drove the servo, the timestamp version at that moment, what the servo was
      told, and the phase adjustment it made. */
  datatype Fed = Fed(
    sync: PeerDelay.Logged<Sync>, followUp: PeerDelay.Logged<FollowUp>, version: uint8, update: Servo.Update,
    adjusted: Option<int>)

  /** Events so far, pairs used, what the servo was told, Follow-Ups without their Sync
      while asCapable, and how often that made the port a master. */
  datatype History = History(now: nat, fed: seq<Fed>, servo: seq<Servo.Event>, mismatches: nat, forced: nat)

  datatype Port = Port(
    cfg: Config, role: Role, asCapable: bool, version: uint8, delay: int64, rate: Rate,
    lastSync: Option<PeerDelay.Logged<Sync>>, wrongSeq: nat,
    prevMaster: Timestamp, prevSync: Timestamp, clock: Servo.State,
    history: History)

  datatype Event =
    | RxSync(s: Sync) | RxFollowUp(f: FollowUp)
    | LinkMeasured(delay: int64, rate: Rate) | Capable(capable: bool) | NewVersion(version: uint8)
    | NewRole(role: Role) | NewSetPoint

  function Start(cfg: Config): Port {
    var zero := Timestamp(0, 0, 0, 0);
    Port(cfg, Listening, false, 0, PeerDelay.INVALID_LINKDELAY, 1.0, None, 0, zero, zero, Servo.Start(true),
         History(0, [], [], 0, 0))
  }

  predicate Ignores(role: Role) { role == Disabled || role == Faulty }

  predicate SameMessage(s: Sync, f: FollowUp) { s.seqId == f.seqId && s.source == f.source }

  function Tell(p: Port, e: Servo.Event): Port {
    p.(clock := Servo.Step(p.clock, e), history := p.history.(servo := p.history.servo + [e]))
  }

  // ---- the measurement made from one pair --------------------------------------------

  function CorrectionNs(f: FollowUp): int {
    var field: int := f.correctionField;
    if field >= 0 then field / TWO_16 else -(-field / TWO_16)
  }

  function MasterRatio(rate: Rate, f: FollowUp): real { (f.rateOffset as real / 2199023255552.0 + 1.0) / rate }

  /** Residence and link delay, in the master's nanoseconds. */
  function Correction(delay: nat, rate: Rate, f: FollowUp): int {
    Truncate(delay as real * MasterRatio(rate, f) + CorrectionNs(f) as real)
  }

  function Change(correction: int64): Timestamps.Change
    requires correction > -TWO_63
  {
    if correction > 0 then Later(correction) else (var back: int := -correction; Earlier(back))
  }

  function MasterTime(origin: Timestamp, correction: int64): Timestamp
    requires correction > -TWO_63
  {
    if correction > 0 then AddNs(origin, correction) else (var back: int := -correction; SubNs(origin, back))
  }

  function OffsetNs(arrival: Timestamp, master: Timestamp): int64 { ToInt64(ToNs(arrival) - ToNs(master)) }

  /** calcMasterLocalClockRateDifference: zero on a negative time jump. */
  function RateDifference(p: Port, master: Timestamp, arrival: Timestamp): (Port, real) {
    var stored := p.(prevMaster := master, prevSync := arrival);
    if !p.clock.masterRate then (Tell(stored, Servo.MasterRateKnown), 1.0)
    else if ToNs(master) < ToNs(p.prevMaster) then (Tell(p, Servo.MasterRateLost), 0.0)
    else
      var elapsed := ToUint64(ToNs(arrival) - ToNs(p.prevSync));
      (stored, if elapsed != 0 then (ToNs(master) - ToNs(p.prevMaster)) as real / elapsed as real else 1.0)
  }

  predicate Usable(p: Port, f: FollowUp) {
    PeerDelay.Positive(p.delay) < PeerDelay.INVALID_LINKDELAY && (CorrectionNs(f) >= 0 || p.cfg.allowNegative)
  }

  function CorrectionOf(p: Port, f: FollowUp): (c: int64)
    requires Usable(p, f)
    ensures c > -TWO_63
  {
    CorrectionFits(PeerDelay.Positive(p.delay), p.rate, f);
    Correction(PeerDelay.Positive(p.delay), p.rate, f)
  }

  function ProcessPair(p: Port, s: PeerDelay.Logged<Sync>, f: PeerDelay.Logged<FollowUp>): Port {
    if !Usable(p, f.msg) then p
    else
      var master := MasterTime(f.msg.origin, CorrectionOf(p, f.msg));
      var (q, ratio) := RateDifference(p, master, s.msg.rx);
      if ratio == 0.0 || q.role != Slave then q
      else
        var u := Servo.Update(OffsetNs(s.msg.rx, master), ratio, q.cfg.perSecond);
        var x := Fed(s, f, q.version, u, Servo.Adjustment(q.clock, u));
        Tell(q.(history := q.history.(fed := q.history.fed + [x])), Servo.Offset(u))
  }

  function Mismatched(p: Port): Port {
    var counted := if p.asCapable then p.wrongSeq + 1 else p.wrongSeq;
    var noted := p.history.(mismatches := p.history.mismatches + if p.asCapable then 1 else 0);
    if counted < p.cfg.threshold then p.(wrongSeq := counted, history := noted)
    else p.(wrongSeq := 0, role := Master, history := noted.(forced := noted.forced + 1))
  }

  function ProcessFollowUp(p: Port, f: PeerDelay.Logged<FollowUp>): Port {
    if Ignores(p.role) || p.lastSync.None? then p
    else
      var s := p.lastSync.value;
      (if !SameMessage(s.msg, f.msg) then Mismatched(p)
       else if s.msg.rx.version != p.version then p
       else ProcessPair(p, s, f)).(lastSync := None)
  }

  function Handle(p: Port, e: Event, at: nat): Port {
    match e
    case RxSync(s) => if Ignores(p.role) then p else p.(lastSync := Some(PeerDelay.Logged(s, at)))
    case RxFollowUp(f) => ProcessFollowUp(p, PeerDelay.Logged(f, at))
    case LinkMeasured(delay, rate) => Tell(p.(delay := delay, rate := rate), Servo.PeerRateKnown)
    case Capable(capable) =>
      if capable then p.(asCapable := true) else Tell(p.(asCapable := false), Servo.PeerRateLost)
    case NewVersion(version) => p.(version := version)
    case NewRole(role) => p.(role := role)
    case NewSetPoint => Tell(p, Servo.NewSetPoint)
  }

  function Step(p: Port, e: Event): Port {
    var q := Handle(p, e, p.history.now);
    q.(history := q.history.(now := p.history.now + 1))
  }

  function After(cfg: Config, es: seq<Event>): Port {
    if es == [] then Start(cfg) else Step(After(cfg, es[..|es| - 1]), es[|es| - 1])
  }

  // ---- the port, updated in place -----------------------------------------------------

  class SyncPort {
    const cfg: Config
    const clock: Servo.Clock
    var role: Role
    var asCapable: bool
    var version: uint8
    var delay: int64
    var rate: Rate
    var lastSync: Option<PeerDelay.Logged<Sync>>
    var wrongSeq: nat
    var prevMaster: Timestamp
    var prevSync: Timestamp
    var history: History

    function View(): Port
      reads this, clock
    {
      Port(cfg, role, asCapable, version, delay, rate, lastSync, wrongSeq, prevMaster, prevSync, clock.View(), history)
    }

    constructor (cfg: Config)
      ensures View() == Start(cfg) && fresh(clock)
    {
      this.cfg := cfg;
      clock := new Servo.Clock(true);
      role, asCapable, version, delay, rate := Listening, false, 0, PeerDelay.INVALID_LINKDELAY, 1.0;
      lastSync, wrongSeq := None, 0;
      prevMaster, prevSync := Timestamp(0, 0, 0, 0), Timestamp(0, 0, 0, 0);
      history := History(0, [], [], 0, 0);
    }

    method HandleSync(s: Sync)
      modifies this
      ensures View() == Handle(old(View()), RxSync(s), old(history.now))
    {
      if role != Disabled && role != Faulty {
        lastSync := Some(PeerDelay.Logged(s, history.now));
      }
    }

    method HandleFollowUp(f: PeerDelay.Logged<FollowUp>)
      modifies this, clock
      ensures View() == ProcessFollowUp(old(View()), f)
    {
      if role == Disabled || role == Faulty || lastSync.None? {
        return;
      }
      var s := lastSync.value;
      if s.msg.seqId != f.msg.seqId || s.msg.source != f.msg.source {
        CountMismatch();
      } else if s.msg.rx.version == version {
        UsePair(s, f);
      }
      lastSync := None;
    }

    method CountMismatch()
      modifies this
      ensures View() == Mismatched(old(View()))
    {
      if asCapable {
        wrongSeq := wrongSeq + 1;
        history := history.(mismatches := history.mismatches + 1);
      }
      if !(wrongSeq < cfg.threshold) {
        role := Master;
        wrongSeq := 0;
        history := history.(forced := history.forced + 1);
      }
    }

    method MasterRate(master: Timestamp, arrival: Timestamp) returns (ratio: real)
      modifies this, clock
      ensures (View(), ratio) == RateDifference(old(View()), master, arrival)
    {
      if !clock.masterRate {
        prevSync := arrival;
        prevMaster := master;
        clock.masterRate := true;
        history := history.(servo := history.servo + [Servo.MasterRateKnown]);
        return 1.0;
      }
      var elapsed := ToUint64(ToNs(arrival) - ToNs(prevSync));
      if ToNs(master) < ToNs(prevMaster) {
        clock.masterRate := false;
        history := history.(servo := history.servo + [Servo.MasterRateLost]);
        return 0.0;
      }
      ratio := 1.0;
      if elapsed != 0 {
        ratio := (ToNs(master) - ToNs(prevMaster)) as real / elapsed as real;
      }
      prevSync := arrival;
      prevMaster := master;
    }

    method UsePair(s: PeerDelay.Logged<Sync>, f: PeerDelay.Logged<FollowUp>)
      modifies this, clock
      ensures View() == ProcessPair(old(View()), s, f)
    {
      if !Usable(View(), f.msg) {
        return;
      }
      var master := MasterTime(f.msg.origin, CorrectionOf(View(), f.msg));
      var ratio := MasterRate(master, s.msg.rx);
      if ratio == 0.0 {
        return;
      }
      if role == Slave {
        var u := Servo.Update(OffsetNs(s.msg.rx, master), ratio, cfg.perSecond);
        var adjusted := clock.HandleOffset(u);
        var x := Fed(s, f, version, u, adjusted);
        history := history.(fed := history.fed + [x], servo := history.servo + [Servo.Offset(u)]);
      }
    }
  }

  // ---- the correction fits in 64 bits, and the offset means what it says --------------

  lemma ScaledDelay(delay: real, ratio: real)
    requires 0.0 <= delay < 3600000000000.0 && 0.0 <= ratio <= 2.0
    ensures 0.0 <= delay * ratio <= 7200000000000.0
  {
    ProductIsPositive(delay, ratio);
    ProductIsPositive(delay, 2.0 - ratio);
    Split(delay, ratio);
  }

  lemma ProductIsPositive(x: real, y: real)
    requires x >= 0.0 && y >= 0.0
    ensures x * y >= 0.0
  {
  }

  lemma Split(x: real, y: real)
    ensures x * (2.0 - y) == 2.0 * x - x * y
  {
  }

  lemma RatioBounds(rate: Rate, f: FollowUp)
    ensures 0.0 <= MasterRatio(rate, f) <= 2.0
  {
    var x := f.rateOffset as real / 2199023255552.0 + 1.0;
    assert 0.9 <= x <= 1.1 && rate >= 0.9;
    Quotient(x, rate);
  }

  lemma Quotient(x: real, y: real)
    requires 0.0 <= x <= 1.1 && y >= 0.9
    ensures 0.0 <= x / y <= 2.0
  {
    assert x / y * y == x;
  }

  lemma CorrectionFits(delay: nat, rate: Rate, f: FollowUp)
    requires delay < PeerDelay.INVALID_LINKDELAY
    ensures -TWO_63 < Correction(delay, rate, f) < TWO_63
  {
    RatioBounds(rate, f);
    ScaledDelay(delay as real, MasterRatio(rate, f));
    var scaled := delay as real * MasterRatio(rate, f);
    TruncateBounds(scaled, CorrectionNs(f));
    assert Correction(delay, rate, f) == Truncate(scaled + CorrectionNs(f) as real);
  }

  lemma TruncateBounds(x: real, c: int)
    requires 0.0 <= x <= 7200000000000.0 && -TWO_48 <= c <= TWO_48
    ensures -TWO_63 < Truncate(x + c as real) < TWO_63
  {
  }

  lemma DifferenceWraps(x: int, y: int)
    ensures ToInt64(ToUint64(x) - ToUint64(y)) == ToInt64(x - y)
  {
    var k := y / TWO_64 - x / TWO_64;
    assert ToUint64(x) - ToUint64(y) == x - y + k * TWO_64;
    assert (x - y + k * TWO_64) % TWO_64 == (x - y) % TWO_64;
  }

  /** The corrected origin is the sum modulo the span of a timestamp, and the exact
      sum precisely while its seconds fit in 48 bits. */
  lemma MasterTimeMeaning(origin: Timestamp, correction: int64)
    requires correction > -TWO_63
    ensures Congruent(Value(MasterTime(origin, correction)), Value(origin) + correction)
    ensures Value(MasterTime(origin, correction)) == Value(origin) + correction
            <==> SecondsStayInRange(origin, [Change(correction)])
  {
    var none: seq<Timestamps.Change> := [];
    assert [Change(correction)][1..] == none;
    if correction > 0 {
      AddNsMeaning(origin, correction);
    } else {
      var back: int := -correction;
      SubNsMeaning(origin, back);
    }
  }

  /** The offset given to the servo is arrival minus corrected origin, as 64-bit
      integers; while the corrected seconds fit it is the exact difference precisely
      when that difference fits in 64 bits. */
  lemma OffsetMeaning(origin: Timestamp, correction: int64, arrival: Timestamp)
    requires correction > -TWO_63
    ensures var got, exact := OffsetNs(arrival, MasterTime(origin, correction)), Value(arrival) - (Value(origin)
            + correction);
            && got == ToInt64(Value(arrival) - Value(MasterTime(origin, correction)))
            && (SecondsStayInRange(origin, [Change(correction)]) ==>
                  got == ToInt64(exact) && (got == exact <==> -TWO_63 <= exact < TWO_63))
  {
    MasterTimeMeaning(origin, correction);
    DifferenceWraps(Value(arrival), Value(MasterTime(origin, correction)));
    Fits64(Value(arrival) - (Value(origin) + correction));
  }

  // ---- every run ----------------------------------------------------------------------

  /** The version in force, told by the events alone. */
  function CurrentVersion(es: seq<Event>): uint8 {
    if es == [] then 0
    else if es[|es| - 1].NewVersion? then es[|es| - 1].version
    else CurrentVersion(es[..|es| - 1])
  }

  ghost predicate Arrived(es: seq<Event>, s: PeerDelay.Logged<Sync>) {
    s.at < |es| && es[s.at] == RxSync(s.msg)
  }

  /** A pair made of a Sync and a later Follow-Up with its sequence id and source,
      the Sync stamped under the version in force when the Follow-Up came. */
  ghost predicate Paired(es: seq<Event>, x: Fed) {
    && Arrived(es, x.sync) && x.sync.at < x.followUp.at < |es|
    && es[x.followUp.at] == RxFollowUp(x.followUp.msg)
    && SameMessage(x.sync.msg, x.followUp.msg)
    && x.sync.msg.rx.version == x.version == CurrentVersion(es[..x.followUp.at])
  }

  /** Pairs do not overlap: no Sync and no Follow-Up serves twice. */
  ghost predicate Disjoint(fed: seq<Fed>) {
    forall j, k :: 0 <= j < k < |fed| ==> fed[j].followUp.at < fed[k].sync.at
  }

  ghost predicate PairsGood(p: Port, es: seq<Event>) {
    && p.history.now == |es| && p.version == CurrentVersion(es)
    && (p.lastSync.Some? ==> Arrived(es, p.lastSync.value))
    && (forall x :: x in p.history.fed ==> Paired(es, x) && (p.lastSync.Some? ==> x.followUp.at < p.lastSync.value.at))
    && Disjoint(p.history.fed)
  }

  /** What a pair may do to the port. */
  lemma PairFrame(p: Port, s: PeerDelay.Logged<Sync>, f: PeerDelay.Logged<FollowUp>)
    ensures var q := ProcessPair(p, s, f);
            && q == p.(prevMaster := q.prevMaster, prevSync := q.prevSync, clock := q.clock,
                       history := p.history.(fed := q.history.fed, servo := q.history.servo))
            && (q.history.fed == p.history.fed ||
                exists u, a :: q.history.fed == p.history.fed + [Fed(s, f, p.version, u, a)])
  {
    if Usable(p, f.msg) {
      var (q, ratio) := RateDifference(p, MasterTime(f.msg.origin, CorrectionOf(p, f.msg)), s.msg.rx);
      assert q.version == p.version && q.role == p.role && q.history.fed == p.history.fed;
    }
  }

  lemma PairedLater(es: seq<Event>, e: Event, x: Fed)
    requires Paired(es, x)
    ensures Paired(es + [e], x)
  {
    assert (es + [e])[..x.followUp.at] == es[..x.followUp.at];
  }

  lemma FollowUpFrame(p: Port, f: PeerDelay.Logged<FollowUp>)
    ensures var q := ProcessFollowUp(p, f);
            && q.version == p.version && q.history.now == p.history.now
            && (q.lastSync == p.lastSync || q.lastSync.None?)
            && (q.history.fed == p.history.fed ||
                (&& p.lastSync.Some? && q.lastSync.None?
                 && SameMessage(p.lastSync.value.msg, f.msg) && p.lastSync.value.msg.rx.version == p.version
                 && exists u, a :: q.history.fed == p.history.fed + [Fed(p.lastSync.value, f, p.version, u, a)]))
  {
    if p.lastSync.Some? {
      PairFrame(p, p.lastSync.value, f);
    }
  }

  lemma AppendPair(es: seq<Event>, fed: seq<Fed>, x: Fed)
    requires Disjoint(fed) && forall y :: y in fed ==> Paired(es, y) && y.followUp.at < x.sync.at
    requires Paired(es, x)
    ensures Disjoint(fed + [x]) && forall y :: y in fed + [x] ==> Paired(es, y)
  {
    forall j, k | 0 <= j < k < |fed + [x]|
      ensures (fed + [x])[j].followUp.at < (fed + [x])[k].sync.at
    {
      if k == |fed| {
        assert fed[j] in fed;
      }
    }
  }

  lemma FollowUpPairs(p: Port, es: seq<Event>, f: FollowUp)
    requires PairsGood(p, es)
    ensures PairsGood(Step(p, RxFollowUp(f)), es + [RxFollowUp(f)])
  {
    var q, after := Step(p, RxFollowUp(f)), es + [RxFollowUp(f)];
    var logged := PeerDelay.Logged(f, |es|);
    assert after[..|es|] == es;
    FollowUpFrame(p, logged);
    forall x | x in p.history.fed
      ensures Paired(after, x)
    {
      PairedLater(es, RxFollowUp(f), x);
    }
    if q.history.fed != p.history.fed {
      var u, a :| q.history.fed == p.history.fed + [Fed(p.lastSync.value, logged, p.version, u, a)];
      AppendPair(after, p.history.fed, Fed(p.lastSync.value, logged, p.version, u, a));
    }
  }

  lemma StepPairs(p: Port, es: seq<Event>, e: Event)
    requires PairsGood(p, es)
    ensures PairsGood(Step(p, e), es + [e])
  {
    assert (es + [e])[..|es|] == es;
    if e.RxFollowUp? {
      FollowUpPairs(p, es, e.f);
    } else {
      forall x | x in p.history.fed
        ensures Paired(es + [e], x)
      {
        PairedLater(es, e, x);
      }
    }
  }

  /** On every run the servo is driven only by matching, current pairs, and every
      Sync and every Follow-Up is used at most once. */
  lemma {:induction false} RunPairs(cfg: Config, es: seq<Event>)
    ensures PairsGood(After(cfg, es), es)
    decreases |es|
  {
    if es == [] {
    } else {
      RunPairs(cfg, es[..|es| - 1]);
      StepPairs(After(cfg, es[..|es| - 1]), es[..|es| - 1], es[|es| - 1]);
      assert es[..|es| - 1] + [es[|es| - 1]] == es;
    }
  }

  // ---- Follow-Ups without their Sync --------------------------------------------------

  /** The port was made a master once per threshold of mismatches, and the counter
      holds the remainder. */
  ghost predicate Counted(p: Port) {
    && p.wrongSeq < p.cfg.threshold
    && p.history.mismatches == p.cfg.threshold * p.history.forced + p.wrongSeq
  }

  lemma StepCounts(p: Port, e: Event)
    requires Counted(p)
    ensures Counted(Step(p, e)) && Step(p, e).cfg == p.cfg
  {
    if e.RxFollowUp? && !Ignores(p.role) && p.lastSync.Some? {
      PairFrame(p, p.lastSync.value, PeerDelay.Logged(e.f, p.history.now));
      OneMore(p.cfg.threshold, p.history.forced);
    }
  }

  lemma OneMore(threshold: nat, forced: nat)
    ensures threshold * (forced + 1) == threshold * forced + threshold
  {
  }

  lemma {:induction false} RunCounts(cfg: Config, es: seq<Event>)
    requires cfg.threshold >= 1
    ensures Counted(After(cfg, es)) && After(cfg, es).cfg == cfg
    decreases |es|
  {
    if es == [] {
    } else {
      RunCounts(cfg, es[..|es| - 1]);
      StepCounts(After(cfg, es[..|es| - 1]), es[|es| - 1]);
    }
  }

  /** With a zero threshold a port that is not even asCapable, and so counts nothing,
      is made a master by a single mismatch. */
  lemma ZeroThreshold(s: Sync, f: FollowUp, cfg: Config) returns (es: seq<Event>)
    requires cfg.threshold == 0 && !SameMessage(s, f)
    ensures After(cfg, es).history.forced == 1 && After(cfg, es).history.mismatches == 0
    ensures After(cfg, es).role == Master && !After(cfg, es).asCapable
  {
    es := [RxSync(s), RxFollowUp(f)];
    assert es[..1] == [RxSync(s)];
    assert es[..1][..0] == [];
    assert After(cfg, es[..1]) == Step(Start(cfg), RxSync(s));
  }

  lemma ForcedOnce(p: Port)
    requires Counted(p) && p.history.forced > 0
    ensures p.history.mismatches >= p.cfg.threshold
  {
    var before: nat := p.history.forced - 1;
    OneMore(p.cfg.threshold, before);
    assert p.cfg.threshold * before >= 0;
  }

  /** Mismatches alone account for the forced masters exactly when the threshold is not zero. */
  lemma CountsExactly(cfg: Config)
    ensures (forall es :: var p := After(cfg, es); p.history.forced > 0 ==>
            p.history.mismatches >= cfg.threshold && p.history.mismatches > 0)
            <==> cfg.threshold >= 1
  {
    if cfg.threshold >= 1 {
      forall es
        ensures var p := After(cfg, es); p.history.forced > 0 ==> p.history.mismatches >= cfg.threshold
      {
        RunCounts(cfg, es);
        if After(cfg, es).history.forced > 0 {
          ForcedOnce(After(cfg, es));
        }
      }
    } else {
      var id := PeerDelay.PortId([0, 0, 0, 0, 0, 0, 0, 0], 0);
      var ts := Timestamp(0, 0, 0, 0);
      var es := ZeroThreshold(Sync(0, id, ts), FollowUp(1, id, ts, 0, 0), cfg);
      assert After(cfg, es).history.forced == 1;
    }
  }

  // ---- which Follow-Ups drive the servo ------------------------------------------------

  /** The master did not go back; and it advanced, unless the arrival is the same too. */
  predicate Advances(p: Port, master: Timestamp, arrival: Timestamp) {
    || !p.clock.masterRate
    || ToNs(master) > ToNs(p.prevMaster)
    || (ToNs(master) == ToNs(p.prevMaster) && ToNs(arrival) == ToNs(p.prevSync))
  }

  /** The rate that a pair shows: one without a baseline or without local time passed, and
      otherwise the master's time that passed over the local time that passed. */
  predicate RatioIs(p: Port, master: Timestamp, arrival: Timestamp, ratio: real) {
    if !p.clock.masterRate || ToNs(arrival) == ToNs(p.prevSync) then ratio == 1.0
    else
      L.Times(ratio, ToUint64(ToNs(arrival) - ToNs(p.prevSync)) as real) == (ToNs(master) - ToNs(p.prevMaster)) as real
  }

  /** What the servo is told of the held Sync and its Follow-Up. */
  predicate UpdateIs(p: Port, f: FollowUp, u: Servo.Update)
    requires p.lastSync.Some? && Usable(p, f)
  {
    var master, arrival := MasterTime(f.origin, CorrectionOf(p, f)), p.lastSync.value.msg.rx;
    u.offset == OffsetNs(arrival, master) && u.perSecond == p.cfg.perSecond && RatioIs(p, master, arrival, u.ratio)
  }

  /** A Follow-Up drives the servo exactly when the port is a slave holding its
      current Sync, the link and the correction field are usable, and the master
      advances; then the offset is that of OffsetMeaning, the rate that of the time
      passed since the baseline, and the phase is adjusted as the servo does; otherwise
      the trim and the phase are left alone. */
  lemma DrivesExactly(p: Port, f: PeerDelay.Logged<FollowUp>)
    ensures var q := ProcessFollowUp(p, f);
            && (q.history.fed != p.history.fed <==>
                && p.role == Slave && p.lastSync.Some? && SameMessage(p.lastSync.value.msg, f.msg)
                && p.lastSync.value.msg.rx.version == p.version && Usable(p, f.msg)
                && Advances(p, MasterTime(f.msg.origin, CorrectionOf(p, f.msg)), p.lastSync.value.msg.rx))
            && (q.history.fed == p.history.fed ==> q.clock == p.clock.(masterRate := q.clock.masterRate))
            && (q.history.fed != p.history.fed ==>
                && |q.history.fed| == |p.history.fed| + 1 && Usable(p, f.msg) && p.lastSync.Some?
                && var x := q.history.fed[|p.history.fed|];
                   UpdateIs(p, f.msg, x.update) && x.adjusted == Servo.Adjustment(p.clock, x.update))
  {
    if p.lastSync.Some? && Usable(p, f.msg) {
      var master, arrival := MasterTime(f.msg.origin, CorrectionOf(p, f.msg)), p.lastSync.value.msg.rx;
      RatioIsZero(p, master, arrival);
      if Advances(p, master, arrival) {
        RatioMeans(p, master, arrival);
      }
    }
  }

  lemma RatioMeans(p: Port, master: Timestamp, arrival: Timestamp)
    requires Advances(p, master, arrival)
    ensures RatioIs(p, master, arrival, RateDifference(p, master, arrival).1)
  {
    ElapsedIsZero(ToNs(arrival), ToNs(p.prevSync));
    var elapsed := ToUint64(ToNs(arrival) - ToNs(p.prevSync));
    if p.clock.masterRate && elapsed != 0 {
      QuotientBack((ToNs(master) - ToNs(p.prevMaster)) as real, elapsed as real);
    }
  }

  lemma QuotientBack(x: real, y: real)
    requires y > 0.0
    ensures L.Times(x / y, y) == x
  {
  }

  lemma RatioIsZero(p: Port, master: Timestamp, arrival: Timestamp)
    ensures var (q, ratio) := RateDifference(p, master, arrival);
            && (ratio != 0.0 <==> Advances(p, master, arrival))
            && q.history.fed == p.history.fed && q.role == p.role && q.cfg == p.cfg
            && q.clock == p.clock.(masterRate := q.clock.masterRate)
  {
    if p.clock.masterRate && ToNs(master) >= ToNs(p.prevMaster) {
      ElapsedIsZero(ToNs(arrival), ToNs(p.prevSync));
      var elapsed := ToUint64(ToNs(arrival) - ToNs(p.prevSync));
      if elapsed != 0 {
        QuotientIsZero((ToNs(master) - ToNs(p.prevMaster)) as real, elapsed as real);
      }
    }
  }

  lemma ElapsedIsZero(x: uint64, y: uint64)
    ensures ToUint64(x - y) == 0 <==> x == y
  {
  }

  lemma QuotientIsZero(x: real, y: real)
    requires y > 0.0
    ensures x / y == 0.0 <==> x == 0.0
  {
    assert x / y * y == x;
  }

  // ---- the servo's share of the run ---------------------------------------------------

  /** The updates among the servo's events. */
  function Updates(log: seq<Servo.Event>): seq<Servo.Update> {
    if log == [] then []
    else
      var front := Updates(log[..|log| - 1]);
      if log[|log| - 1].Offset? then front + [log[|log| - 1].u] else front
  }

  function UpdatesOf(fed: seq<Fed>): seq<Servo.Update> { seq(|fed|, i requires 0 <= i < |fed| => fed[i].update) }

  /** The clock is the servo run on the log, whose updates are those of the pairs. */
  ghost predicate DrivenBy(clock: Servo.State, log: seq<Servo.Event>, fed: seq<Fed>) {
    clock == Servo.After(log) && Updates(log) == UpdatesOf(fed)
  }

  ghost predicate Driven(p: Port) { DrivenBy(p.clock, p.history.servo, p.history.fed) }

  lemma TellDriven(p: Port, e: Servo.Event)
    requires Driven(p) && !e.Offset?
    ensures Driven(Tell(p, e))
  {
    assert (p.history.servo + [e])[..|p.history.servo|] == p.history.servo;
  }

  lemma FeedDriven(p: Port, x: Fed)
    requires Driven(p)
    ensures Driven(Tell(p.(history := p.history.(fed := p.history.fed + [x])), Servo.Offset(x.update)))
  {
    assert (p.history.servo + [Servo.Offset(x.update)])[..|p.history.servo|] == p.history.servo;
    assert UpdatesOf(p.history.fed + [x]) == UpdatesOf(p.history.fed) + [x.update];
  }

  lemma RateDriven(p: Port, master: Timestamp, arrival: Timestamp)
    requires Driven(p)
    ensures Driven(RateDifference(p, master, arrival).0)
  {
    var stored := p.(prevMaster := master, prevSync := arrival);
    assert Driven(stored);
    TellDriven(stored, Servo.MasterRateKnown);
    TellDriven(p, Servo.MasterRateLost);
  }

  lemma PairDriven(p: Port, s: PeerDelay.Logged<Sync>, f: PeerDelay.Logged<FollowUp>)
    requires Driven(p)
    ensures Driven(ProcessPair(p, s, f))
  {
    if Usable(p, f.msg) {
      var master := MasterTime(f.msg.origin, CorrectionOf(p, f.msg));
      RateDriven(p, master, s.msg.rx);
      var (q, ratio) := RateDifference(p, master, s.msg.rx);
      var u := Servo.Update(OffsetNs(s.msg.rx, master), ratio, q.cfg.perSecond);
      FeedDriven(q, Fed(s, f, q.version, u, Servo.Adjustment(q.clock, u)));
    }
  }

  lemma MismatchDriven(p: Port)
    requires Driven(p)
    ensures Driven(Mismatched(p))
  {
  }

  lemma FollowUpDriven(p: Port, f: PeerDelay.Logged<FollowUp>)
    requires Driven(p)
    ensures Driven(ProcessFollowUp(p, f))
  {
    if !Ignores(p.role) && p.lastSync.Some? {
      var s := p.lastSync.value;
      if !SameMessage(s.msg, f.msg) {
        MismatchDriven(p);
        assert Driven(Mismatched(p).(lastSync := None));
      } else if s.msg.rx.version == p.version {
        PairDriven(p, s, f);
        assert Driven(ProcessPair(p, s, f).(lastSync := None));
      }
    }
  }

  lemma StepDriven(p: Port, e: Event)
    requires Driven(p)
    ensures Driven(Step(p, e))
  {
    match e {
      case RxFollowUp(f) => FollowUpDriven(p, PeerDelay.Logged(f, p.history.now));
      case LinkMeasured(delay, rate) => TellDriven(p.(delay := delay, rate := rate), Servo.PeerRateKnown);
      case NewSetPoint => TellDriven(p, Servo.NewSetPoint);
      case Capable(capable) => if !capable { TellDriven(p.(asCapable := false), Servo.PeerRateLost); }
      case _ =>
    }
  }

  /** On every run of messages the clock is the servo driven by exactly the pairs
      used, so everything proved of the servo holds of the port's clock. */
  lemma {:induction false} RunDriven(cfg: Config, es: seq<Event>)
    ensures Driven(After(cfg, es))
    ensures var p := After(cfg, es); Servo.Remembers(p.clock, Servo.Recall(p.history.servo))
    decreases |es|
  {
    if es == [] {
    } else {
      RunDriven(cfg, es[..|es| - 1]);
      StepDriven(After(cfg, es[..|es| - 1]), es[|es| - 1]);
    }
    Servo.RunRemembers(After(cfg, es).history.servo);
  }
}
