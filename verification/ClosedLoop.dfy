/** The servo in the loop with its master: a port whose Syncs arrive as the trimmed clock
    shows them, from a pending set point to the offset that is left. */
module ClosedLoop {
  import opened MachineInts
  import opened Timestamps
  import opened SyncFollowUp
  import opened SyncMeaning
  import L = LinkDelay
  import PeerDelay
  import Servo

  // ---- the clock and the line ---------------------------------------------------------------

  /** A slave's clock and its line to the master: the trim it needs in ppm, Syncs per second,
      and in nanoseconds how wrong an arrival is read, how wrong the master's time is when it
      comes here, how far a Sync is off its interval, and how much the clock drifts by itself
      between two of them. */
  datatype Line = Line(needed: real, perSecond: real, tick: real, skew: real, jitter: real, wander: real) {
    predicate Proper() {
      && perSecond > 0.0 && tick >= 0.0 && skew >= 0.0 && jitter >= 0.0 && wander >= 0.0
      && Abs(needed) <= 250.0 && Off() + Readings() < Period()
    }

    function Period(): real
      requires perSecond > 0.0
    {
      1000000000.0 / perSecond
    }

    /** How wrong the local time less the master's time is that passed between two Syncs. */
    function Readings(): real { 4.0 + 2.0 * tick + 2.0 * skew }

    /** How far the clock gets between two Syncs. */
    function Most(): real
      requires perSecond > 0.0
    {
      Servo.Reach(needed, perSecond) + wander
    }

    /** How far the local time between two Syncs is off their interval. */
    function Off(): real
      requires perSecond > 0.0
    {
      Most() + 2.0 * tick + jitter
    }

    /** How far a rate can be off one. */
    function RateOff(): real
      requires Proper()
    {
      (Most() + Readings()) / (Period() - Off())
    }

    /** What the servo sees: offsets to within two nanoseconds and the readings, and rates to
        within the readings, and what the interval is off. */
    function Plant(): (plant: Servo.Plant)
      requires Proper()
      ensures plant.Proper()
    {
      PartsArePositive(this);
      Servo.Plant(needed, perSecond, 2.0 + tick + skew, Readings() + wander + L.Times(RateOff(), Off()), wander)
    }
  }

  lemma PartsArePositive(line: Line)
    requires line.Proper()
    ensures line.Most() >= 0.0 && line.Off() >= 0.0 && L.Times(line.RateOff(), line.Off()) >= 0.0
  {
    L.DivideBound(0.0, 250.0 - Abs(line.needed), line.perSecond);
    L.DivideBound(0.0, line.Most() + line.Readings(), line.Period() - line.Off());
    ProductBound(0.0, 0.0, line.RateOff(), line.Off());
  }

  lemma ProductBound(x: real, y: real, a: real, b: real)
    requires Abs(x) <= a && Abs(y) <= b
    ensures Abs(L.Times(x, y)) <= L.Times(a, b)
  {
    var u, v := Abs(x), Abs(y);
    assert Abs(L.Times(x, y)) == u * v;
    assert u * v <= a * v <= a * b;
  }

  // ---- what a rate shows -----------------------------------------------------------------------

  lemma DividedOut(q: real, y: real)
    requires y > 0.0
    ensures q * y / y == q
  {
  }

  lemma FactorBound(q: real, y: real, most: real, least: real)
    requires Abs(L.Times(q, y)) <= most && y >= least > 0.0
    ensures Abs(q) <= most / least
  {
    var k := Abs(q);
    assert Abs(L.Times(q, y)) == k * y;
    assert k * least <= k * y;
    L.DivideBound(k * least, most, least);
    DividedOut(k, least);
  }

  lemma TimesSplit(q: real, x: real, y: real)
    ensures L.Times(q, x + y) == L.Times(q, x) + L.Times(q, y)
  {
  }

  /** The rate error over the local time that passed is the change of the offset. */
  lemma RateTimesMine(mine: real, passed: real, told: real, ratio: real, change: real, tick: real, skew: real)
    requires Abs(mine - (passed + change)) <= 2.0 * tick
    requires Abs(told - passed) <= 2.0 * skew && Abs(L.Times(ratio, mine) - told) <= 4.0
    ensures Abs(L.Times(ratio - 1.0, mine) + change) <= 4.0 + 2.0 * tick + 2.0 * skew
  {
    assert L.Times(ratio - 1.0, mine) == L.Times(ratio, mine) - mine;
  }

  /** And over the whole interval, which is at most off longer or shorter. */
  lemma RateTimesPeriod(q: real, mine: real, period: real, most: real, off: real)
    requires Abs(L.Times(q, mine)) <= most && Abs(period - mine) <= off < period
    ensures Abs(L.Times(q, period) - L.Times(q, mine)) <= L.Times(most / (period - off), off)
  {
    FactorBound(q, mine, most, period - off);
    ProductBound(q, period - mine, most / (period - off), off);
    TimesSplit(q, mine, period - mine);
  }

  /** Together, as plain numbers. */
  lemma RateOverInterval(
    mine: real, passed: real, told: real, ratio: real, change: real,
    period: real, most: real, tick: real, skew: real, jitter: real)
    requires Abs(change) <= most && Abs(passed - period) <= jitter && Abs(mine - (passed + change)) <= 2.0 * tick
    requires Abs(told - passed) <= 2.0 * skew && Abs(L.Times(ratio, mine) - told) <= 4.0
    requires most + 2.0 * tick + jitter < period
    ensures var readings, off := 4.0 + 2.0 * tick + 2.0 * skew, most + 2.0 * tick + jitter;
            Abs(L.Times(ratio - 1.0, period) + change) <= readings + L.Times((most + readings) / (period - off), off)
  {
    var readings, off := 4.0 + 2.0 * tick + 2.0 * skew, most + 2.0 * tick + jitter;
    RateTimesMine(mine, passed, told, ratio, change, tick, skew);
    RateTimesPeriod(ratio - 1.0, mine, period, most + readings, off);
  }

  /** So a rate makes up for the drift, to within what is misread. */
  lemma RateSeen(line: Line, mine: real, passed: real, told: real, ratio: real, change: real, drift: real)
    requires line.Proper()
    requires Abs(drift) <= Servo.Reach(line.needed, line.perSecond) && Abs(change - drift) <= line.wander
    requires Abs(passed - line.Period()) <= line.jitter && Abs(mine - (passed + change)) <= 2.0 * line.tick
    requires Abs(told - passed) <= 2.0 * line.skew && Abs(L.Times(ratio, mine) - told) <= 4.0
    ensures Abs(drift + L.Times(ratio - 1.0, line.Period())) <= line.Plant().eta
  {
    RateOverInterval(
      mine, passed, told, ratio, change, line.Period(), line.Most(), line.tick, line.skew, line.jitter);
  }

  lemma Rescaled(q: real, r: real)
    requires r > 0.0
    ensures q * 1000000.0 / r * 1000.0 == L.Times(q, 1000000000.0 / r)
  {
  }

  /** The drift under a trim to which a rate error is added. */
  lemma DriftOfRate(plant: Servo.Plant, ppm: real, u: Servo.Update)
    requires plant.Proper()
    ensures plant.Drift(ppm + Servo.RateError(u))
            == plant.Drift(ppm) + L.Times(u.ratio - 1.0, 1000000000.0 / plant.perSecond)
  {
    var off, q, r := ppm - plant.needed, u.ratio - 1.0, plant.perSecond;
    L.DivideSum(off, q * 1000000.0, r);
    Rescaled(q, r);
  }

  // ---- a pair that the servo uses ----------------------------------------------------------------

  /** The pair (i, j), of a Sync that arrived at the master's time m with the clock x ahead. */
  ghost predicate Reads(line: Line, es: seq<Event>, i: nat, j: nat, m: real, x: real) {
    && PairAt(es, i, j) && SoundAt(es, j)
    && Abs(Value(es[i].s.rx) as real - (m + x)) <= line.tick && Abs(TruthAt(es, j) - m) <= line.skew
    && Value(es[i].s.rx) < TWO_64 && TruthAt(es, j) < 18446744073709551613.0
  }

  /** No other pair is measured, and no set point comes. */
  ghost predicate Quiet(cfg: Config, es: seq<Event>, quiet: seq<Event>) {
    && (forall e :: e in quiet ==> !e.NewSetPoint?)
    && (forall i: nat, j: nat :: |es| <= j < |es + quiet| ==> !MeasuredAt(cfg, es + quiet, i, j))
  }

  /** Nothing that touches the trim or the phase was told since. */
  predicate Idles(log: seq<Servo.Event>, log': seq<Servo.Event>) {
    log <= log' && Servo.Passive(log'[|log|..])
  }

  lemma IdlesOn(a: seq<Servo.Event>, b: seq<Servo.Event>, c: seq<Servo.Event>)
    requires Idles(a, b) && Idles(b, c)
    ensures Idles(a, c)
  {
    assert c[|a|..] == b[|a|..] + c[|b|..];
  }

  lemma StepTellsLittle(p: Port, e: Event)
    requires !e.NewSetPoint? && !(e.RxFollowUp? && Measurable(p, e.f))
    ensures Idles(p.history.servo, Step(p, e).history.servo)
  {
    StepTells(p, e);
  }

  lemma QuietOne(cfg: Config, es: seq<Event>, e: Event)
    requires !e.NewSetPoint? && forall i: nat :: !MeasuredAt(cfg, es + [e], i, |es|)
    ensures Idles(After(cfg, es).history.servo, After(cfg, es + [e]).history.servo)
    ensures BaseAt(cfg, es + [e]) == BaseAt(cfg, es)
  {
    var p := After(cfg, es);
    RunTold(cfg, es);
    AfterOne(cfg, es, e);
    BaseKept(cfg, es, e);
    if e.RxFollowUp? && Measurable(p, e.f) {
      MeasuredExactly(cfg, es, e.f, p.lastSync.value.at);
    } else {
      StepTellsLittle(p, e);
    }
  }

  lemma QuietPrefix(cfg: Config, es: seq<Event>, front: seq<Event>, e: Event)
    requires Quiet(cfg, es, front + [e])
    ensures Quiet(cfg, es, front) && !e.NewSetPoint?
    ensures forall i: nat :: !MeasuredAt(cfg, es + front + [e], i, |es + front|)
  {
    assert es + (front + [e]) == es + front + [e];
    assert e in front + [e];
    forall i: nat, j: nat | |es| <= j < |es + front|
      ensures !MeasuredAt(cfg, es + front, i, j)
    {
      MeasuredLater(cfg, es + front, e, i, j);
    }
  }

  lemma {:induction false} QuietKeeps(cfg: Config, es: seq<Event>, quiet: seq<Event>)
    requires Quiet(cfg, es, quiet)
    ensures Idles(After(cfg, es).history.servo, After(cfg, es + quiet).history.servo)
    ensures BaseAt(cfg, es + quiet) == BaseAt(cfg, es)
    decreases |quiet|
  {
    if quiet == [] {
      assert es + quiet == es;
    } else {
      var front, e := quiet[..|quiet| - 1], quiet[|quiet| - 1];
      assert front + [e] == quiet && es + front + [e] == es + quiet;
      QuietPrefix(cfg, es, front, e);
      QuietKeeps(cfg, es, front);
      QuietOne(cfg, es + front, e);
      IdlesOn(After(cfg, es).history.servo, After(cfg, es + front).history.servo, After(cfg, es + quiet).history.servo);
    }
  }

  /** The last pair used told the servo u, which made this adjustment. */
  ghost predicate LastFed(cfg: Config, es: seq<Event>, u: Servo.Update, adjusted: Option<int>) {
    var fed := After(cfg, es).history.fed;
    fed != [] && fed[|fed| - 1].update == u && fed[|fed| - 1].adjusted == adjusted
  }

  /** What the servo is told before a pair is: that there is a baseline, if there was none. */
  ghost function First(cfg: Config, es: seq<Event>): seq<Servo.Event> {
    if BaseAt(cfg, es).Some? then [] else [Servo.MasterRateKnown]
  }

  /** What a pair does that is used: it is told to the servo, and becomes the baseline
      unless it steps the phase. */
  lemma Use(cfg: Config, es: seq<Event>, f: FollowUp, i: nat) returns (x: Fed)
    requires After(cfg, es).role == Slave && MeasuredAt(cfg, es + [RxFollowUp(f)], i, |es|)
    requires Onwards(cfg, es + [RxFollowUp(f)], i, |es|)
    ensures Meant(cfg, es + [RxFollowUp(f)], x) && x.sync.at == i && x.followUp.at == |es|
    ensures LastFed(cfg, es + [RxFollowUp(f)], x.update, x.adjusted)
    ensures After(cfg, es + [RxFollowUp(f)]).history.servo
            == After(cfg, es).history.servo + First(cfg, es) + [Servo.Offset(x.update)]
    ensures var j: nat := |es|;
            BaseAt(cfg, es + [RxFollowUp(f)]) == if x.adjusted.Some? then None else Some((i, j))
  {
    var p, e, es' := After(cfg, es), RxFollowUp(f), es + [RxFollowUp(f)];
    RunDrives(cfg, es, f);
    AfterOne(cfg, es, e);
    RunTold(cfg, es);
    RunTold(cfg, es');
    RunPairs(cfg, es);
    MeasuredExactly(cfg, es, f, i);
    FollowUpFrame(p, PeerDelay.Logged(f, |es|));
    StepTells(p, e);
    x := After(cfg, es').history.fed[|p.history.fed|];
    assert x in After(cfg, es').history.fed;
    NewMaster(p, es, f);
    SteppedLast(cfg, es, e);
    BaseMoves(cfg, es, e, i);
    assert es'[..|es|] == es;
  }

  // ---- one Sync after the other -------------------------------------------------------------------

  /** Events until a pair is used: the index of its Sync, its Follow_Up, the master's time
      when the Sync arrived, and how far the clock was ahead then. */
  datatype Round = Round(quiet: seq<Event>, sync: nat, f: FollowUp, m: real, x: real) {
    function Events(): seq<Event> { quiet + [RxFollowUp(f)] }
  }

  function Log(cfg: Config, es: seq<Event>): seq<Servo.Event> { After(cfg, es).history.servo }

  ghost predicate Comes(cfg: Config, line: Line, es: seq<Event>, r: Round) {
    var j: nat := |es + r.quiet|;
    && Quiet(cfg, es, r.quiet) && After(cfg, es + r.quiet).role == Slave
    && MeasuredAt(cfg, es + r.Events(), r.sync, j) && Reads(line, es + r.Events(), r.sync, j, r.m, r.x)
  }

  /** The baseline is a pair that arrived at m with the clock x ahead. */
  ghost predicate Held(cfg: Config, line: Line, es: seq<Event>, m: real, x: real) {
    match BaseAt(cfg, es)
    case None => false
    case Some((k, l)) => Reads(line, es, k, l, m, x)
  }

  lemma ReadsLater(line: Line, es: seq<Event>, more: seq<Event>, i: nat, j: nat, m: real, x: real)
    requires Reads(line, es, i, j, m, x)
    ensures Reads(line, es + more, i, j, m, x)
  {
    assert (es + more)[..j] == es[..j];
  }

  lemma EventsAre(es: seq<Event>, r: Round)
    ensures es + r.Events() == es + r.quiet + [RxFollowUp(r.f)] && (es + r.Events())[..|es + r.quiet|] == es + r.quiet
  {
    assert es + r.Events() == es + r.quiet + [RxFollowUp(r.f)];
  }

  /** What the servo is told of a pair that is used, and what it does. */
  ghost predicate Informs(
    cfg: Config, line: Line, es: seq<Event>, i: nat, x: real, u: Servo.Update, adjusted: Option<int>)
    requires |es| > 0
  {
    var j: nat := |es| - 1;
    && Abs(u.offset as real - x) <= 2.0 + line.tick + line.skew && u.perSecond == cfg.perSecond
    && PairAt(es, i, j) && RateTold(cfg, es, i, j, u.ratio)
    && (adjusted.Some? ==> Abs(x + adjusted.value as real) <= 2.0 + line.tick + line.skew)
    && BaseAt(cfg, es) == (if adjusted.Some? then None else Some((i, j)))
    && LastFed(cfg, es, u, adjusted)
  }

  /** What was told of the last pair, against the clock and the line. */
  lemma MeantInforms(cfg: Config, line: Line, es: seq<Event>, y: Fed, m: real, x: real)
    requires Meant(cfg, es, y) && Reads(line, es, y.sync.at, y.followUp.at, m, x) && y.followUp.at == |es| - 1
    requires Abs(x) + line.tick + line.skew <= 9223372036854775805.0 && LastFed(cfg, es, y.update, y.adjusted)
    requires BaseAt(cfg, es) == if y.adjusted.Some? then None else Some((y.sync.at, y.followUp.at))
    ensures Informs(cfg, line, es, y.sync.at, x, y.update, y.adjusted)
  {
  }

  lemma PairTellsServo(cfg: Config, line: Line, es: seq<Event>, f: FollowUp, i: nat, m: real, x: real)
    returns (u: Servo.Update, adjusted: Option<int>)
    requires After(cfg, es).role == Slave && MeasuredAt(cfg, es + [RxFollowUp(f)], i, |es|)
    requires Onwards(cfg, es + [RxFollowUp(f)], i, |es|) && Reads(line, es + [RxFollowUp(f)], i, |es|, m, x)
    requires Abs(x) + line.tick + line.skew <= 9223372036854775805.0
    ensures Informs(cfg, line, es + [RxFollowUp(f)], i, x, u, adjusted)
    ensures Log(cfg, es + [RxFollowUp(f)]) == Log(cfg, es) + First(cfg, es) + [Servo.Offset(u)]
    ensures adjusted.Some? <==> !Servo.Idle(u) && Servo.ShouldStep(Servo.Recall(Log(cfg, es)))
  {
    var y := Use(cfg, es, f, i);
    assert (es + [RxFollowUp(f)])[..|es|] == es;
    MeantInforms(cfg, line, es + [RxFollowUp(f)], y, m, x);
    u, adjusted := y.update, y.adjusted;
  }

  lemma Merge(log: seq<Servo.Event>, log': seq<Servo.Event>, first: seq<Servo.Event>) returns (before: seq<Servo.Event>)
    requires Idles(log, log') && Servo.Passive(first)
    ensures Servo.Passive(before) && log' + first == log + before && Servo.Recall(log') == Servo.Recall(log)
  {
    before := log'[|log|..] + first;
    assert log' == log + log'[|log|..];
    Servo.PassiveKeeps(log, log'[|log|..]);
  }

  /** The same in a round. */
  lemma RoundTells(cfg: Config, line: Line, es: seq<Event>, r: Round)
    returns (before: seq<Servo.Event>, u: Servo.Update, adjusted: Option<int>)
    requires Comes(cfg, line, es, r) && Onwards(cfg, es + r.Events(), r.sync, |es + r.quiet|)
    requires Abs(r.x) + line.tick + line.skew <= 9223372036854775805.0
    ensures Informs(cfg, line, es + r.Events(), r.sync, r.x, u, adjusted)
    ensures Servo.Passive(before) && Log(cfg, es + r.Events()) == Log(cfg, es) + before + [Servo.Offset(u)]
    ensures adjusted.Some? <==> !Servo.Idle(u) && Servo.ShouldStep(Servo.Recall(Log(cfg, es)))
    ensures BaseAt(cfg, es + r.quiet) == BaseAt(cfg, es)
  {
    var es1 := es + r.quiet;
    EventsAre(es, r);
    QuietKeeps(cfg, es, r.quiet);
    u, adjusted := PairTellsServo(cfg, line, es1, r.f, r.sync, r.m, r.x);
    before := Merge(Log(cfg, es), Log(cfg, es1), First(cfg, es1));
  }

  /** A round that comes an interval after a Sync at m with the clock x ahead, under the trim
      that the clock has since. */
  ghost predicate Fits(cfg: Config, line: Line, es: seq<Event>, m: real, x: real, r: Round)
    requires line.Proper()
  {
    && Comes(cfg, line, es, r) && Abs(r.m - m - line.Period()) <= line.jitter
    && Abs(r.x - Servo.Ahead(line.Plant(), Log(cfg, es), x)) <= line.wander
  }

  lemma IdealBounds(delay: nat, rate: Rate, f: FollowUp)
    requires delay < PeerDelay.INVALID_LINKDELAY && f.correctionField == 0
    ensures 0.0 <= Ideal(delay, rate, f) <= 7200000000000.0
  {
    RatioBounds(rate, f);
    ScaledDelay(delay as real, MasterRatio(rate, f));
  }

  /** A slave that knows its link delay. */
  ghost predicate Ready(cfg: Config, es: seq<Event>) {
    After(cfg, es).role == Slave && DelayAt(es) < PeerDelay.INVALID_LINKDELAY
  }

  lemma SyncThenFollowUp(cfg: Config, es: seq<Event>, s: Sync, f: FollowUp)
    requires Ready(cfg, es) && SameMessage(s, f) && s.rx.version == CurrentVersion(es) && f.correctionField == 0
    ensures var r := Round([RxSync(s)], |es|, f, 0.0, 0.0);
            && Quiet(cfg, es, r.quiet) && After(cfg, es + r.quiet).role == Slave
            && MeasuredAt(cfg, es + r.Events(), r.sync, |es + r.quiet|)
            && LinkAt((es + r.Events())[..|es + r.quiet|]) == LinkAt(es)
            && (es + r.Events())[r.sync] == RxSync(s) && (es + r.Events())[|es + r.quiet|] == RxFollowUp(f)
            && Ready(cfg, es + r.Events())
  {
    var r := Round([RxSync(s)], |es|, f, 0.0, 0.0);
    var es1, es' := es + [RxSync(s)], es + r.Events();
    EventsAre(es, r);
    AfterOne(cfg, es, RxSync(s));
    NotMeasured(cfg, es, RxSync(s));
    LinkOne(es, RxSync(s));
    assert es1[..|es|] == es && es'[..|es1|] == es1;
    assert HeardAt(cfg, es1, |es|) && HeardAt(cfg, es', |es1|);
    AfterOne(cfg, es1, RxFollowUp(f));
    LinkOne(es1, RxFollowUp(f));
    MismatchExactly(After(cfg, es1), PeerDelay.Logged(f, After(cfg, es1).history.now));
  }

  /** Times that 64 bits can tell, with room for a correction. */
  predicate InRange(m: real, x: real) {
    10000000000000.0 <= m < 18446744073709551600.0 && 0.0 <= m + x < 18446744073709551600.0
  }

  /** A round is a Sync and its Follow_Up, at whatever time and offset, read to a nanosecond. */
  lemma RoundComes(
    cfg: Config, line: Line, es: seq<Event>, m: real, x: real, seqId: uint16, source: PeerDelay.PortId)
    returns (r: Round)
    requires Ready(cfg, es) && line.tick >= 1.0 && line.skew >= 1.0
    requires InRange(m, x)
    ensures r.m == m && r.x == x && Comes(cfg, line, es, r) && Ready(cfg, es + r.Events())
  {
    var ts := Timestamp(0, 0, 0, CurrentVersion(es));
    var correction := Ideal(DelayAt(es), LinkAt(es).1, FollowUp(seqId, source, ts, 0, 0));
    IdealBounds(DelayAt(es), LinkAt(es).1, FollowUp(seqId, source, ts, 0, 0));
    var origin, arrival := (m - correction).Floor, (m + x).Floor;
    Set64Value(ts, origin);
    Set64Value(ts, arrival);
    var s := Sync(seqId, source, Set64(ts, arrival));
    var f := FollowUp(seqId, source, Set64(ts, origin), 0, 0);
    r := Round([RxSync(s)], |es|, f, m, x);
    SyncThenFollowUp(cfg, es, s, f);
    assert Truth(DelayAt(es), LinkAt(es).1, f) == origin as real + correction;
  }

  /** Two pairs an interval apart. */
  ghost predicate Spaced(
    line: Line, es: seq<Event>, k: nat, l: nat, m: real, x: real, i: nat, j: nat, m': real, x': real)
    requires line.Proper()
  {
    && Reads(line, es, k, l, m, x) && Reads(line, es, i, j, m', x')
    && Abs(m' - m - line.Period()) <= line.jitter && Abs(x' - x) <= line.Most()
  }

  lemma BothAdvance(
    line: Line, es: seq<Event>, k: nat, l: nat, m: real, x: real, i: nat, j: nat, m': real, x': real)
    requires line.Proper() && Spaced(line, es, k, l, m, x, i, j, m', x')
    ensures Value(es[k].s.rx) < Value(es[i].s.rx) && TruthAt(es, l) + 4.0 < TruthAt(es, j)
  {
    PartsArePositive(line);
  }

  lemma MasterAdvances(
    line: Line, es: seq<Event>, k: nat, l: nat, m: real, x: real, i: nat, j: nat, m': real, x': real)
    requires line.Proper() && Spaced(line, es, k, l, m, x, i, j, m', x')
    ensures ToNs(MasterAt(es, l)) < ToNs(MasterAt(es, j))
  {
    BothAdvance(line, es, k, l, m, x, i, j, m', x');
    MasterAtIsClose(es, i, j);
    MasterAtIsClose(es, k, l);
    Fits64(Value(MasterAt(es, j)));
    Fits64(Value(MasterAt(es, l)));
  }

  lemma RateOfPairs(
    line: Line, es: seq<Event>, k: nat, l: nat, m: real, x: real, i: nat, j: nat, m': real, x': real,
    ratio: real, drift: real)
    requires line.Proper() && Spaced(line, es, k, l, m, x, i, j, m', x') && RateMeant(es, i, j, k, l, ratio)
    requires Abs(drift) <= Servo.Reach(line.needed, line.perSecond) && Abs(x' - x - drift) <= line.wander
    ensures Abs(drift + L.Times(ratio - 1.0, line.Period())) <= line.Plant().eta
  {
    BothAdvance(line, es, k, l, m, x, i, j, m', x');
    var mine, told := (Value(es[i].s.rx) - Value(es[k].s.rx)) as real, TruthAt(es, j) - TruthAt(es, l);
    RateSeen(line, mine, m' - m, told, ratio, x' - x, drift);
  }

  /** The state of the loop: a baseline, no step to come, and a drift within reach. */
  ghost predicate Looping(cfg: Config, line: Line, es: seq<Event>, m: real, x: real)
    requires line.Proper()
  {
    && cfg.perSecond == line.perSecond && Held(cfg, line, es, m, x) && !Servo.ShouldStep(Servo.Recall(Log(cfg, es)))
    && Abs(line.Plant().Drift(Servo.After(Log(cfg, es)).ppm)) <= Servo.Reach(line.needed, line.perSecond)
  }

  lemma FitsSpaced(cfg: Config, line: Line, es: seq<Event>, m: real, x: real, r: Round, k: nat, l: nat)
    requires line.Proper() && Looping(cfg, line, es, m, x) && Fits(cfg, line, es, m, x, r)
    requires BaseAt(cfg, es) == Some((k, l))
    ensures Spaced(line, es + r.Events(), k, l, m, x, r.sync, |es + r.quiet|, r.m, r.x)
  {
    ReadsLater(line, es, r.Events(), k, l, m, x);
  }

  lemma PrefixMaster(es: seq<Event>, n: nat, l: nat)
    requires l < n <= |es| && es[l].RxFollowUp? && DelayAt(es[..l]) < PeerDelay.INVALID_LINKDELAY
    ensures es[..n][..l] == es[..l] && MasterAt(es[..n], l) == MasterAt(es, l)
  {
    assert es[..n][..l] == es[..l];
  }

  lemma FitsOnwards(cfg: Config, line: Line, es: seq<Event>, m: real, x: real, r: Round)
    requires line.Proper() && Looping(cfg, line, es, m, x) && Fits(cfg, line, es, m, x, r)
    ensures Onwards(cfg, es + r.Events(), r.sync, |es + r.quiet|)
  {
    var (k, l) := BaseAt(cfg, es).value;
    FitsSpaced(cfg, line, es, m, x, r, k, l);
    MasterAdvances(line, es + r.Events(), k, l, m, x, r.sync, |es + r.quiet|, r.m, r.x);
    EventsAre(es, r);
    QuietKeeps(cfg, es, r.quiet);
    PrefixMaster(es + r.Events(), |es + r.quiet|, l);
  }

  lemma RateSince(cfg: Config, es: seq<Event>, i: nat, j: nat, k: nat, l: nat, ratio: real)
    requires PairAt(es, i, j) && RateTold(cfg, es, i, j, ratio) && BaseAt(cfg, es[..j]) == Some((k, l))
    ensures PairAt(es, k, l) && RateMeant(es, i, j, k, l, ratio)
  {
  }

  lemma ObservedBy(plant: Servo.Plant, x: real, ppm: real, u: Servo.Update)
    requires plant.Proper() && u.perSecond == plant.perSecond && Abs(u.offset as real - x) <= plant.eps
    requires Abs(plant.Drift(ppm) + L.Times(u.ratio - 1.0, 1000000000.0 / plant.perSecond)) <= plant.eta
    ensures Servo.Observed(plant, x, ppm, u)
  {
    DriftOfRate(plant, ppm, u);
  }

  lemma ToldIsObserved(
    line: Line, es: seq<Event>, k: nat, l: nat, m: real, x: real, i: nat, j: nat, m': real, x': real,
    u: Servo.Update, ppm: real)
    requires line.Proper() && Spaced(line, es, k, l, m, x, i, j, m', x') && RateMeant(es, i, j, k, l, u.ratio)
    requires u.perSecond == line.perSecond && Abs(u.offset as real - x') <= 2.0 + line.tick + line.skew
    requires Abs(line.Plant().Drift(ppm)) <= Servo.Reach(line.needed, line.perSecond)
    requires Abs(x' - (x + line.Plant().Drift(ppm))) <= line.wander
    ensures Servo.Observed(line.Plant(), x', ppm, u)
  {
    RateOfPairs(line, es, k, l, m, x, i, j, m', x', u.ratio, line.Plant().Drift(ppm));
    ObservedBy(line.Plant(), x', ppm, u);
  }

  /** A pair that does not step the phase becomes the baseline. */
  lemma HeldThen(cfg: Config, line: Line, es: seq<Event>, r: Round, u: Servo.Update)
    requires Comes(cfg, line, es, r) && Informs(cfg, line, es + r.Events(), r.sync, r.x, u, None)
    ensures Held(cfg, line, es + r.Events(), r.m, r.x)
  {
  }

  /** What is told in a round with a baseline and without a step. */
  lemma BasedRoundTells(cfg: Config, line: Line, es: seq<Event>, r: Round, k: nat, l: nat)
    returns (before: seq<Servo.Event>, u: Servo.Update)
    requires Comes(cfg, line, es, r) && Onwards(cfg, es + r.Events(), r.sync, |es + r.quiet|)
    requires BaseAt(cfg, es) == Some((k, l)) && !Servo.ShouldStep(Servo.Recall(Log(cfg, es)))
    requires Abs(r.x) + line.tick + line.skew <= 1000000000.0
    ensures Servo.Passive(before) && Log(cfg, es + r.Events()) == Log(cfg, es) + before + [Servo.Offset(u)]
    ensures Abs(u.offset as real - r.x) <= 2.0 + line.tick + line.skew && u.perSecond == cfg.perSecond
    ensures var es', j: nat := es + r.Events(), |es + r.quiet|;
            PairAt(es', r.sync, j) && PairAt(es', k, l) && RateMeant(es', r.sync, j, k, l, u.ratio)
    ensures Held(cfg, line, es + r.Events(), r.m, r.x)
  {
    var adjusted;
    before, u, adjusted := RoundTells(cfg, line, es, r);
    EventsAre(es, r);
    HeldThen(cfg, line, es, r, u);
    RateSince(cfg, es + r.Events(), r.sync, |es + r.quiet|, k, l, u.ratio);
  }

  /** In the loop a round shows the servo its offset and, since the baseline, its drift. */
  lemma RoundObserved(cfg: Config, line: Line, es: seq<Event>, m: real, x: real, r: Round)
    returns (before: seq<Servo.Event>, u: Servo.Update)
    requires line.Proper() && Looping(cfg, line, es, m, x) && Fits(cfg, line, es, m, x, r)
    requires Abs(r.x) + line.tick + line.skew <= 1000000000.0
    ensures Servo.Passive(before) && Log(cfg, es + r.Events()) == Log(cfg, es) + before + [Servo.Offset(u)]
    ensures Servo.Observed(line.Plant(), r.x, Servo.After(Log(cfg, es)).ppm, u)
    ensures Held(cfg, line, es + r.Events(), r.m, r.x)
  {
    var (k, l) := BaseAt(cfg, es).value;
    FitsOnwards(cfg, line, es, m, x, r);
    FitsSpaced(cfg, line, es, m, x, r, k, l);
    before, u := BasedRoundTells(cfg, line, es, r, k, l);
    ToldIsObserved(
      line, es + r.Events(), k, l, m, x, r.sync, |es + r.quiet|, r.m, r.x, u, Servo.After(Log(cfg, es)).ppm);
  }

  // ---- every run ------------------------------------------------------------------------------------

  function RunEvents(rs: seq<Round>): seq<Event> { if rs == [] then [] else rs[0].Events() + RunEvents(rs[1..]) }

  /** Rounds that each fit the one before. */
  ghost predicate Goes(cfg: Config, line: Line, es: seq<Event>, m: real, x: real, rs: seq<Round>)
    requires line.Proper()
    decreases |rs|
  {
    rs != [] ==>
      Fits(cfg, line, es, m, x, rs[0]) && Goes(cfg, line, es + rs[0].Events(), rs[0].m, rs[0].x, rs[1..])
  }

  lemma RunOn(es: seq<Event>, rs: seq<Round>)
    ensures rs == [] ==> es + RunEvents(rs) == es
    ensures rs != [] ==> es + RunEvents(rs) == es + rs[0].Events() + RunEvents(rs[1..])
  {
  }

  /** A round is a turn of the servo's loop, wherever the next Sync then finds the clock. */
  lemma RoundTurns(cfg: Config, line: Line, es: seq<Event>, m: real, x: real, r: Round, next: real, start: real)
    returns (t: Servo.Turn)
    requires line.Proper() && Looping(cfg, line, es, m, x) && Fits(cfg, line, es, m, x, r)
    requires Servo.Closed(line.Plant(), Log(cfg, es), r.x, start)
    requires Abs(next - Servo.Ahead(line.Plant(), Log(cfg, es + r.Events()), r.x)) <= line.wander
    ensures t.next == next && Servo.Moves(line.Plant(), Log(cfg, es), r.x, t)
    ensures Log(cfg, es + r.Events()) == Log(cfg, es) + t.Told()
    ensures Looping(cfg, line, es + r.Events(), r.m, r.x)
    ensures Servo.Closed(line.Plant(), Log(cfg, es + r.Events()), next, Servo.Less(start))
  {
    var before, u := RoundObserved(cfg, line, es, m, x, r);
    t := Servo.Turn(before, u, next);
    assert Log(cfg, es) + t.Told() == Log(cfg, es) + before + [Servo.Offset(u)];
    Servo.TurnCloses(line.Plant(), Log(cfg, es), r.x, t, start);
  }

  /** At every Sync the offset is at most seven tenths of what it was, down to the floor. */
  ghost predicate Shrinks(rs: seq<Round>, start: real, floor: real) {
    rs != [] ==> Abs(rs[0].x) <= start + floor && Shrinks(rs[1..], Servo.Less(start), floor)
  }

  lemma {:induction false} ShrinksAt(rs: seq<Round>, start: real, floor: real, k: nat)
    requires Shrinks(rs, start, floor) && k < |rs|
    ensures Abs(rs[k].x) <= Servo.Shrunk(k, start) + floor
    decreases k
  {
    if k == 0 {
    } else {
      ShrinksAt(rs[1..], Servo.Less(start), floor, k - 1);
    }
  }

  lemma FirstOfRun(cfg: Config, line: Line, es: seq<Event>, m: real, x: real, rs: seq<Round>, start: real)
    returns (t: Servo.Turn)
    requires line.Proper() && Looping(cfg, line, es, m, x) && Goes(cfg, line, es, m, x, rs)
    requires rs != [] && Servo.Closed(line.Plant(), Log(cfg, es), rs[0].x, start)
    ensures Servo.Moves(line.Plant(), Log(cfg, es), rs[0].x, t)
    ensures Log(cfg, es + rs[0].Events()) == Log(cfg, es) + t.Told()
    ensures Looping(cfg, line, es + rs[0].Events(), rs[0].m, rs[0].x)
    ensures |rs| > 1 ==>
            t.next == rs[1].x && Servo.Closed(line.Plant(), Log(cfg, es + rs[0].Events()), rs[1].x, Servo.Less(start))
  {
    var next := if |rs| == 1 then Servo.Ahead(line.Plant(), Log(cfg, es + rs[0].Events()), rs[0].x) else rs[1].x;
    t := RoundTurns(cfg, line, es, m, x, rs[0], next, start);
  }

  /** From a baseline on, whatever else happens between the Syncs, the updates that the servo
      is told follow the plant with the errors of the line; so at every Sync the clock is
      ahead or behind by at most seven tenths of what it was at the one before, down to
      what is left of the errors. */
  lemma {:induction false} RunFollows(
    cfg: Config, line: Line, es: seq<Event>, m: real, x: real, rs: seq<Round>, start: real)
    returns (ts: seq<Servo.Turn>)
    requires line.Proper() && Looping(cfg, line, es, m, x) && Goes(cfg, line, es, m, x, rs)
    requires rs != [] && Servo.Closed(line.Plant(), Log(cfg, es), rs[0].x, start)
    ensures |ts| == |rs| && Servo.Follows(line.Plant(), Log(cfg, es), rs[0].x, ts)
    ensures Log(cfg, es + RunEvents(rs)) == Log(cfg, es) + Servo.AllTold(ts)
    ensures Shrinks(rs, start, line.Plant().Floor())
    decreases |rs|
  {
    var r, rest, es' := rs[0], rs[1..], es + rs[0].Events();
    RunOn(es, rs);
    var t := FirstOfRun(cfg, line, es, m, x, rs, start);
    var more: seq<Servo.Turn> := [];
    if rest == [] {
      RunOn(es', rest);
    } else {
      more := RunFollows(cfg, line, es', r.m, r.x, rest, Servo.Less(start));
    }
    ts := [t] + more;
    Servo.FollowsOn(line.Plant(), Log(cfg, es), r.x, t, more);
  }

  // ---- from a pending set point on -------------------------------------------------------------------

  /** No baseline yet: the drift of the trim is not seen. */
  ghost predicate Unbased(cfg: Config, line: Line, es: seq<Event>) {
    cfg.perSecond == line.perSecond && BaseAt(cfg, es).None?
  }

  lemma UnbasedOnwards(cfg: Config, line: Line, es: seq<Event>, r: Round)
    requires Unbased(cfg, line, es) && Comes(cfg, line, es, r)
    ensures Onwards(cfg, es + r.Events(), r.sync, |es + r.quiet|)
  {
    EventsAre(es, r);
    QuietKeeps(cfg, es, r.quiet);
  }

  lemma UnbasedRate(cfg: Config, line: Line, es: seq<Event>, r: Round, u: Servo.Update, adjusted: Option<int>)
    requires Unbased(cfg, line, es) && Comes(cfg, line, es, r)
    requires Informs(cfg, line, es + r.Events(), r.sync, r.x, u, adjusted)
    ensures u.ratio == 1.0
  {
    EventsAre(es, r);
    QuietKeeps(cfg, es, r.quiet);
  }

  /** The first pair without a step: its offset is steered against, its drift goes on, and it
      becomes the baseline. */
  lemma FirstRound(cfg: Config, line: Line, es: seq<Event>, r: Round, drift: real)
    requires line.Proper() && Unbased(cfg, line, es) && Comes(cfg, line, es, r)
    requires !Servo.ShouldStep(Servo.Recall(Log(cfg, es)))
    requires Abs(line.Plant().Drift(Servo.After(Log(cfg, es)).ppm)) <= drift
    requires line.Plant().(eta := drift).Room(Abs(r.x))
    ensures Looping(cfg, line, es + r.Events(), r.m, r.x)
    ensures Abs(Servo.Ahead(line.Plant(), Log(cfg, es + r.Events()), r.x))
            <= 0.7 * Abs(r.x) + 0.3 * line.Plant().eps + drift
  {
    UnbasedOnwards(cfg, line, es, r);
    var before, u, adjusted := RoundTells(cfg, line, es, r);
    UnbasedRate(cfg, line, es, r, u, adjusted);
    HeldThen(cfg, line, es, r, u);
    Servo.BlindTurn(line.Plant(), drift, Log(cfg, es), before, r.x, u);
  }

  /** The adjustment that the last pair used made. */
  ghost function Adjusted(cfg: Config, es: seq<Event>): int {
    var fed := After(cfg, es).history.fed;
    if fed != [] && fed[|fed| - 1].adjusted.Some? then fed[|fed| - 1].adjusted.value else 0
  }

  /** A clock with a set point pending and no baseline, and the round that steps it. */
  ghost predicate Steps(cfg: Config, line: Line, es: seq<Event>, step: Round)
    requires line.Proper()
  {
    && Unbased(cfg, line, es) && Servo.ShouldStep(Servo.Recall(Log(cfg, es))) && Comes(cfg, line, es, step)
    && line.Plant().eps < Abs(step.x) && Abs(step.x) + line.tick + line.skew <= 9223372036854775805.0
  }

  /** A pair that steps the phase: it takes the clock to the master's time, and leaves trim
      and baseline as they were. */
  lemma StepRound(cfg: Config, line: Line, es: seq<Event>, r: Round)
    requires line.Proper() && Steps(cfg, line, es, r)
    ensures Abs(r.x + Adjusted(cfg, es + r.Events()) as real) <= line.Plant().eps
    ensures Unbased(cfg, line, es + r.Events()) && !Servo.ShouldStep(Servo.Recall(Log(cfg, es + r.Events())))
    ensures Servo.After(Log(cfg, es + r.Events())).ppm == Servo.After(Log(cfg, es)).ppm
  {
    UnbasedOnwards(cfg, line, es, r);
    var before, u, adjusted := RoundTells(cfg, line, es, r);
    UnbasedRate(cfg, line, es, r, u, adjusted);
    Servo.StepTurn(Log(cfg, es), before, u);
  }

  /** Such a clock, the round after that one, which is told no rate, and those after. */
  ghost predicate Enters(cfg: Config, line: Line, es: seq<Event>, step: Round, first: Round, rs: seq<Round>)
    requires line.Proper()
  {
    var es' := es + step.Events();
    && Steps(cfg, line, es, step) && Comes(cfg, line, es', first)
    && Abs(first.x - Servo.Ahead(line.Plant(), Log(cfg, es'), step.x + Adjusted(cfg, es') as real)) <= line.wander
    && Goes(cfg, line, es' + first.Events(), first.m, first.x, rs)
  }

  /** The limit of the trim leaves room for a clock that drifts this much when it is stepped,
      at this trim, and start is what that makes of its offset before the first rate is told. */
  ghost predicate Wide(line: Line, ppm: real, drift: real, start: real)
    requires line.Proper()
  {
    var plant, far := line.Plant(), line.Plant().eps + drift + line.wander;
    && Abs(plant.Drift(ppm)) <= drift && plant.(eta := drift).Room(far)
    && start >= 0.0 && plant.Room(start + plant.Floor())
    && 0.7 * far + 0.3 * plant.eps + drift + line.wander <= start + plant.Floor()
  }

  lemma NearAfterStep(x: real, y: real, d: real, eps: real, drift: real, wander: real)
    requires Abs(x - (y + d)) <= wander && Abs(y) <= eps && Abs(d) <= drift
    ensures Abs(x) <= eps + drift + wander
  {
  }

  /** Stepped, the clock is found as far off as it drifts until the next Sync. */
  lemma Stepped(cfg: Config, line: Line, es: seq<Event>, step: Round, first: Round, rs: seq<Round>, drift: real)
    requires line.Proper() && Enters(cfg, line, es, step, first, rs)
    requires Abs(line.Plant().Drift(Servo.After(Log(cfg, es)).ppm)) <= drift
    ensures Abs(first.x) <= line.Plant().eps + drift + line.wander
    ensures Unbased(cfg, line, es + step.Events())
    ensures !Servo.ShouldStep(Servo.Recall(Log(cfg, es + step.Events())))
    ensures Servo.After(Log(cfg, es + step.Events())).ppm == Servo.After(Log(cfg, es)).ppm
  {
    var es' := es + step.Events();
    StepRound(cfg, line, es, step);
    NearAfterStep(
      first.x, step.x + Adjusted(cfg, es') as real, line.Plant().Drift(Servo.After(Log(cfg, es')).ppm),
      line.Plant().eps, drift, line.wander);
  }

  lemma StartsNear(x: real, next: real, ahead: real, plant: Servo.Plant, drift: real, start: real)
    requires var far := plant.eps + drift + plant.wander;
             Abs(x) <= far && 0.7 * far + 0.3 * plant.eps + drift + plant.wander <= start + plant.Floor()
    requires Abs(ahead) <= 0.7 * Abs(x) + 0.3 * plant.eps + drift && Abs(next - ahead) <= plant.wander
    ensures Abs(next) <= start + plant.Floor()
  {
  }

  /** And the Sync after that finds a loop with a baseline. */
  lemma FirstCloses(cfg: Config, line: Line, es: seq<Event>, first: Round, next: real, drift: real, start: real)
    requires line.Proper() && Unbased(cfg, line, es) && !Servo.ShouldStep(Servo.Recall(Log(cfg, es)))
    requires Wide(line, Servo.After(Log(cfg, es)).ppm, drift, start)
    requires Comes(cfg, line, es, first) && Abs(first.x) <= line.Plant().eps + drift + line.wander
    requires Abs(next - Servo.Ahead(line.Plant(), Log(cfg, es + first.Events()), first.x)) <= line.wander
    ensures Looping(cfg, line, es + first.Events(), first.m, first.x)
    ensures Servo.Closed(line.Plant(), Log(cfg, es + first.Events()), next, start)
  {
    var plant := line.Plant();
    Servo.LessRoom(plant.(eta := drift), Abs(first.x), plant.eps + drift + line.wander);
    FirstRound(cfg, line, es, first, drift);
    StartsNear(
      first.x, next, Servo.Ahead(plant, Log(cfg, es + first.Events()), first.x), plant, drift, start);
  }

  lemma EntersShrinks(
    cfg: Config, line: Line, es: seq<Event>, step: Round, first: Round, rs: seq<Round>, drift: real, start: real)
    requires line.Proper() && Enters(cfg, line, es, step, first, rs)
    requires Wide(line, Servo.After(Log(cfg, es)).ppm, drift, start)
    ensures Shrinks(rs, start, line.Plant().Floor())
  {
    if rs != [] {
      Stepped(cfg, line, es, step, first, rs, drift);
      FirstCloses(cfg, line, es + step.Events(), first, rs[0].x, drift, start);
      var ts := RunFollows(cfg, line, es + step.Events() + first.Events(), first.m, first.x, rs, start);
    }
  }

  /** The whole way in: whatever the offset when a set point is pending, the clock is stepped,
      and from the third Sync on its offset shrinks to seven tenths at each, down to what is
      left of the errors of the line. */
  lemma LockIn(
    cfg: Config, line: Line, es: seq<Event>, step: Round, first: Round, rs: seq<Round>, drift: real, start: real,
    k: nat)
    requires line.Proper() && Enters(cfg, line, es, step, first, rs) && k < |rs|
    requires Wide(line, Servo.After(Log(cfg, es)).ppm, drift, start)
    ensures Abs(rs[k].x) <= Servo.Shrunk(k, start) + line.Plant().Floor()
  {
    EntersShrinks(cfg, line, es, step, first, rs, drift, start);
    ShrinksAt(rs, start, line.Plant().Floor(), k);
  }

  // ---- such runs exist ------------------------------------------------------------------------------------

  function OneLater(line: Line, m: real): real
    requires line.perSecond > 0.0
  {
    m + line.Period()
  }

  /** The master's time, and that of the Syncs after it, can be told in 64 bits. */
  predicate InTime(line: Line, m: real, ids: seq<uint16>)
    requires line.perSecond > 0.0
    decreases |ids|
  {
    10000000000000.0 <= m <= 18446744070000000000.0 && (ids != [] ==> InTime(line, OneLater(line, m), ids[1..]))
  }

  /** A slave in the loop whose next Syncs, with these ids, come exactly when and where they
      are due. */
  ghost predicate Due(cfg: Config, line: Line, es: seq<Event>, m: real, x: real, start: real, ids: seq<uint16>)
    requires line.Proper()
  {
    && line.tick >= 1.0 && line.skew >= 1.0 && InTime(line, m, ids)
    && Ready(cfg, es) && Looping(cfg, line, es, m, x)
    && Servo.Closed(line.Plant(), Log(cfg, es), Servo.Ahead(line.Plant(), Log(cfg, es), x), start)
  }

  predicate Near(x: real) { Abs(x) <= 1000000000.0 }

  lemma ClosedIsNear(plant: Servo.Plant, log: seq<Servo.Event>, x: real, start: real)
    requires plant.Proper() && Servo.Closed(plant, log, x, start)
    ensures Near(x)
  {
  }

  lemma NextInRange(line: Line, m: real, x: real, ids: seq<uint16>)
    requires line.perSecond > 0.0 && InTime(line, m, ids) && ids != [] && Near(x)
    ensures InRange(OneLater(line, m), x)
  {
  }

  lemma NextComes(
    cfg: Config, line: Line, es: seq<Event>, m: real, x: real, source: PeerDelay.PortId, start: real,
    ids: seq<uint16>)
    returns (r: Round)
    requires line.Proper() && Due(cfg, line, es, m, x, start, ids) && ids != []
    ensures Fits(cfg, line, es, m, x, r) && Due(cfg, line, es + r.Events(), r.m, r.x, Servo.Less(start), ids[1..])
  {
    var ahead := Servo.Ahead(line.Plant(), Log(cfg, es), x);
    ClosedIsNear(line.Plant(), Log(cfg, es), ahead, start);
    NextInRange(line, m, ahead, ids);
    r := RoundComes(cfg, line, es, OneLater(line, m), ahead, ids[0], source);
    var next := Servo.Ahead(line.Plant(), Log(cfg, es + r.Events()), r.x);
    var t := RoundTurns(cfg, line, es, m, x, r, next, start);
  }

  lemma GoesOn(cfg: Config, line: Line, es: seq<Event>, m: real, x: real, r: Round, rest: seq<Round>)
    requires line.Proper() && Fits(cfg, line, es, m, x, r)
    requires Goes(cfg, line, es + r.Events(), r.m, r.x, rest)
    ensures Goes(cfg, line, es, m, x, [r] + rest)
  {
    assert ([r] + rest)[1..] == rest;
  }

  lemma {:induction false} RoundsCome(
    cfg: Config, line: Line, es: seq<Event>, m: real, x: real, source: PeerDelay.PortId, start: real,
    ids: seq<uint16>)
    returns (rs: seq<Round>)
    requires line.Proper() && Due(cfg, line, es, m, x, start, ids)
    ensures |rs| == |ids| && Goes(cfg, line, es, m, x, rs)
    decreases |ids|
  {
    if ids == [] {
      rs := [];
    } else {
      var r := NextComes(cfg, line, es, m, x, source, start, ids);
      var rest := RoundsCome(cfg, line, es + r.Events(), r.m, r.x, source, Servo.Less(start), ids[1..]);
      rs := [r] + rest;
      GoesOn(cfg, line, es, m, x, r, rest);
    }
  }

  /** A port that became a slave with a set point pending. */
  function Fresh(): seq<Event> { [NewRole(Slave), LinkMeasured(0, 1.0), NewSetPoint] }

  lemma FreshServo()
    ensures var log := [Servo.PeerRateKnown, Servo.NewSetPoint];
            Servo.After(log).ppm == 0.0 && Servo.ShouldStep(Servo.Recall(log))
  {
    var log := [Servo.PeerRateKnown, Servo.NewSetPoint];
    var known := [Servo.PeerRateKnown];
    assert log[..1] == known && known[..0] == [];
    assert Servo.After(known).ppm == 0.0;
    assert Servo.Recall(log).pending;
  }

  lemma FreshIs(cfg: Config)
    ensures Ready(cfg, Fresh()) && BaseAt(cfg, Fresh()).None?
    ensures Log(cfg, Fresh()) == [Servo.PeerRateKnown, Servo.NewSetPoint]
    ensures Servo.After(Log(cfg, Fresh())).ppm == 0.0 && Servo.ShouldStep(Servo.Recall(Log(cfg, Fresh())))
  {
    var a, b: seq<Event> := [NewRole(Slave)], [NewRole(Slave), LinkMeasured(0, 1.0)];
    assert [] + [NewRole(Slave)] == a && a + [LinkMeasured(0, 1.0)] == b && b + [NewSetPoint] == Fresh();
    AfterOne(cfg, [], NewRole(Slave));
    AfterOne(cfg, a, LinkMeasured(0, 1.0));
    AfterOne(cfg, b, NewSetPoint);
    NotMeasured(cfg, [], NewRole(Slave));
    NotMeasured(cfg, a, LinkMeasured(0, 1.0));
    NotMeasured(cfg, b, NewSetPoint);
    BaseKept(cfg, [], NewRole(Slave));
    BaseKept(cfg, a, LinkMeasured(0, 1.0));
    BaseKept(cfg, b, NewSetPoint);
    LinkOne(a, LinkMeasured(0, 1.0));
    LinkOne(b, NewSetPoint);
    FreshServo();
  }

  /** The Sync after the step comes where it is due. */
  lemma FirstComes(
    cfg: Config, line: Line, es: seq<Event>, step: Round, source: PeerDelay.PortId, drift: real, start: real,
    ids: seq<uint16>)
    returns (first: Round)
    requires line.Proper() && line.tick >= 1.0 && line.skew >= 1.0 && Steps(cfg, line, es, step)
    requires Ready(cfg, es + step.Events()) && Wide(line, Servo.After(Log(cfg, es)).ppm, drift, start)
    requires InTime(line, step.m, ids) && ids != []
    ensures Enters(cfg, line, es, step, first, []) && first.m == OneLater(line, step.m)
    ensures Ready(cfg, es + step.Events() + first.Events())
  {
    var es' := es + step.Events();
    StepRound(cfg, line, es, step);
    var y := step.x + Adjusted(cfg, es') as real;
    var ahead := Servo.Ahead(line.Plant(), Log(cfg, es'), y);
    WideIsNear(line, Servo.After(Log(cfg, es')).ppm, y, drift, start);
    NextInRange(line, step.m, ahead, ids);
    first := RoundComes(cfg, line, es', OneLater(line, step.m), ahead, ids[0], source);
  }

  lemma WideIsNear(line: Line, ppm: real, y: real, drift: real, start: real)
    requires line.Proper() && Wide(line, ppm, drift, start) && Abs(y) <= line.Plant().eps
    ensures Near(y + line.Plant().Drift(ppm))
  {
    NearAfterStep(y + line.Plant().Drift(ppm), y, line.Plant().Drift(ppm), line.Plant().eps, drift, line.wander);
  }

  /** And so do those after it. */
  lemma RestComes(
    cfg: Config, line: Line, es: seq<Event>, step: Round, first: Round, source: PeerDelay.PortId, drift: real,
    start: real, ids: seq<uint16>)
    returns (rs: seq<Round>)
    requires line.Proper() && line.tick >= 1.0 && line.skew >= 1.0 && Enters(cfg, line, es, step, first, [])
    requires Ready(cfg, es + step.Events() + first.Events()) && InTime(line, first.m, ids)
    requires Wide(line, Servo.After(Log(cfg, es)).ppm, drift, start)
    ensures Enters(cfg, line, es, step, first, rs) && |rs| == |ids|
  {
    var es' := es + step.Events() + first.Events();
    var ahead := Servo.Ahead(line.Plant(), Log(cfg, es'), first.x);
    Stepped(cfg, line, es, step, first, [], drift);
    FirstCloses(cfg, line, es + step.Events(), first, ahead, drift, start);
    rs := RoundsCome(cfg, line, es', first.m, first.x, source, start, ids);
  }

  /** From any offset there is such a run, with as many Syncs as 64 bits can tell. */
  lemma RunsExist(
    cfg: Config, line: Line, m: real, x: real, source: PeerDelay.PortId, drift: real, start: real, ids: seq<uint16>)
    returns (step: Round, first: Round, rs: seq<Round>)
    requires line.Proper() && line.tick >= 1.0 && line.skew >= 1.0 && cfg.perSecond == line.perSecond
    requires Wide(line, 0.0, drift, start) && InTime(line, m, ids) && ids != [] && InRange(m, x)
    requires line.Plant().eps < Abs(x) && Abs(x) + line.tick + line.skew <= 9223372036854775805.0
    ensures Enters(cfg, line, Fresh(), step, first, rs) && step.m == m && step.x == x && |rs| == |ids| - 1
  {
    var es := Fresh();
    FreshIs(cfg);
    step := RoundComes(cfg, line, es, m, x, 0, source);
    first := FirstComes(cfg, line, es, step, source, drift, start, ids);
    rs := RestComes(cfg, line, es, step, first, source, drift, start, ids[1..]);
  }

  // ---- usual numbers -----------------------------------------------------------------------------------

  /** A trim of up to 100 ppm, eight Syncs per second, to within 10 us; arrivals read to within
      8 ns, the master's time known to within 22 ns, and a nanosecond of drift by itself. */
  predicate Usual(line: Line) {
    && -100.0 <= line.needed <= 100.0 && line.perSecond == 8.0 && 0.0 <= line.tick <= 8.0 && 0.0 <= line.skew <= 22.0
    && 0.0 <= line.jitter <= 10000.0 && 0.0 <= line.wander <= 1.0
  }

  lemma UsualIsProper(line: Line)
    requires Usual(line)
    ensures line.Proper() && line.Off() <= 41267.0 && line.Most() + line.Readings() <= 31315.0
    ensures 18750.0 <= Servo.Reach(line.needed, line.perSecond) <= 31250.0
  {
  }

  lemma RatioBound(x: real, a: real, y: real, b: real, q: real)
    requires 0.0 <= x <= a && y >= b > 0.0 && a <= q * b
    ensures 0.0 <= x / y <= q
  {
    L.DivideBound(0.0, x, y);
    assert q * b <= q * y;
    L.DivideBound(x, q * y, y);
    DividedOut(q, y);
  }

  lemma UsualEta(line: Line)
    requires Usual(line) && line.Proper()
    ensures line.Plant().eta <= 76.0
  {
    UsualIsProper(line);
    PartsArePositive(line);
    RatioBound(line.Most() + line.Readings(), 31315.0, line.Period() - line.Off(), 124900000.0, 0.000251);
    ProductBound(line.RateOff(), line.Off(), 0.000251, 41267.0);
  }

  lemma Pow7Falls(k: nat)
    requires k >= 32
    ensures Servo.Pow7(k) <= 0.0000125
  {
    Servo.Pow7Of32();
    Servo.Pow7Sum(32, k - 32);
    ProductBound(Servo.Pow7(32), Servo.Pow7(k - 32), 0.0000125, 1.0);
  }

  predicate Within100(line: Line, ppm: real) { Abs(ppm - line.needed) <= 100.0 }

  lemma UsualWide(line: Line, ppm: real)
    requires Usual(line) && line.Proper() && Within100(line, ppm)
    ensures Wide(line, ppm, 12500.0, 21300.0) && line.Plant().Floor() <= 289.0
  {
    UsualIsProper(line);
    UsualEta(line);
  }

  lemma Under(x: real, k: nat, floor: real)
    requires Abs(x) <= Servo.Shrunk(k, 21300.0) + floor && k >= 32 && floor <= 289.0
    ensures Abs(x) <= 290.0
  {
    Servo.ShrunkIs(k, 21300.0);
    Pow7Falls(k);
  }

  /** Then a clock that is within 100 ppm of the trim it needs when it is stepped is within
      290 ns of its master after 34 Syncs, a little more than four seconds, and stays there,
      however far off it was. */
  lemma UsualLockIn(
    cfg: Config, line: Line, es: seq<Event>, step: Round, first: Round, rs: seq<Round>, k: nat)
    requires Usual(line) && line.Proper() && Enters(cfg, line, es, step, first, rs) && 32 <= k < |rs|
    requires Within100(line, Servo.After(Log(cfg, es)).ppm)
    ensures Abs(rs[k].x) <= 290.0
  {
    UsualWide(line, Servo.After(Log(cfg, es)).ppm);
    LockIn(cfg, line, es, step, first, rs, 12500.0, 21300.0, k);
    Under(rs[k].x, k, line.Plant().Floor());
  }
}
