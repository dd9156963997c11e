/** What a port's peer-delay exchange measures, told by its events alone: which events
    make a measurement, when the port is asCapable, and how good the neighbour rate ratio
    and the delay are. */
module Measurements {
  import opened MachineInts
  import opened Timestamps
  import opened LinkDelay
  import opened PeerDelay

  // ---- which events measure -------------------------------------------------------------

  /** The transmit timestamp of the last request: the first one reported after it was sent
      that is not pending. */
  function Stamp(es: seq<Event>): Timestamp {
    if es == [] then Timestamp(0xC000_0001, 0, 0, 0xFF)
    else
      var front, e := es[..|es| - 1], es[|es| - 1];
      if e.Interval? then Timestamp(0xC000_0001, 0, 0, 0xFF)
      else if e.TxDone? && Awaiting(front) then e.stamp
      else Stamp(front)
  }

  /** The follow-up that an event brings or takes up again. */
  function Brought(es: seq<Event>, e: Event): Option<FollowUp> {
    match e
    case RxFollowUp(f) => Some(f)
    case Deferred => Hold(es).fup
    case _ => None
  }

  /** A follow-up to the last request and the held response, with the request validly
      stamped in the version of the response. */
  predicate Complete(es: seq<Event>, r: Response, f: FollowUp) {
    && Requests(es) > 0 && f.seqId == (Requests(es) - 1) % TWO_16 && r.seqId == f.seqId
    && r.requesting.number == f.requesting.number && r.source == f.source
    && Stamp(es).nanoseconds != 0xC000_0000 && Stamp(es).nanoseconds != 0xC000_0001
    && Stamp(es).version == r.rx.version
  }

  predicate Measures(es: seq<Event>, e: Event) {
    && !Hold(es).dead && Hold(es).resp.Some? && Brought(es, e).Some?
    && Complete(es, Hold(es).resp.value, Brought(es, e).value)
  }

  /** The four timestamps of the measurement that an event makes. */
  function Gauge(es: seq<Event>, e: Event): Exchange
    requires Measures(es, e)
  {
    var r := Hold(es).resp.value;
    Exchange(Stamp(es), r.rx, r.receipt, Brought(es, e).value.origin)
  }

  lemma StampOne(es: seq<Event>, e: Event)
    ensures Stamp(es + [e]) == if e.Interval? then Timestamp(0xC000_0001, 0, 0, 0xFF)
                               else if e.TxDone? && Awaiting(es) then e.stamp else Stamp(es)
  {
    assert (es + [e])[..|es|] == es;
  }

  ghost predicate Stamped(p: Port, es: seq<Event>) {
    !p.aborted && p.request.Some? ==> p.request.value.msg.stamp == Stamp(es)
  }

  lemma RequestKept(p: Port, e: Event)
    requires !p.aborted && !e.Interval? && !e.TxDone?
    ensures Step(p, e).request == p.request
  {
    if e.RxResponse? {
      ResponseFrame(Tick(p), e.r);
    }
  }

  lemma StepStamped(p: Port, es: seq<Event>, e: Event)
    requires Agrees(p, es) && Stamped(p, es)
    ensures Stamped(Step(p, e), es + [e])
  {
    StampOne(es, e);
    if !p.aborted && !e.Interval? && !e.TxDone? {
      RequestKept(p, e);
    }
  }

  lemma {:induction false} RunStamped(cfg: Config, es: seq<Event>)
    ensures Stamped(After(cfg, es), es)
    decreases |es|
  {
    if es == [] {
    } else {
      var before, e := es[..|es| - 1], es[|es| - 1];
      RunStamped(cfg, before);
      RunAgrees(cfg, before);
      StepStamped(After(cfg, before), before, e);
      assert before + [e] == es;
    }
  }

  /** The parts of the port that measurements change. */
  ghost predicate SameLink(p: Port, p': Port) {
    && p'.history.accepted == p.history.accepted && p'.delay == p.delay && p'.rate == p.rate
  }

  /** One more measurement, from these timestamps. */
  ghost predicate Gauged(p: Port, p': Port, x: Exchange) {
    && |p'.history.accepted| == |p.history.accepted| + 1
    && p'.history.accepted[..|p.history.accepted|] == p.history.accepted
    && var m := p'.history.accepted[|p.history.accepted|];
       && ExchangeOf(m.request.msg, m.response.msg, m.followUp.msg) == x
       && m.rate == p.rate && m.delay == Measured(x, p.rate) == p'.delay
       && p'.baseline == Some((x.reqTx, x.reqRx))
       && p'.rate == NextRate(p.rate, p.baseline, p.delay, x, p'.delay)
  }

  /** What a port knows when a follow-up comes, against what the events say. */
  ghost predicate Knows(p: Port, es: seq<Event>, r: Option<Response>) {
    && (p.request.Some? <==> Requests(es) > 0)
    && (p.request.Some? ==> p.request.value.msg == Request((Requests(es) - 1) % TWO_16, Stamp(es)))
    && (p.response.Some? <==> r.Some?) && (p.response.Some? ==> p.response.value.msg == r.value)
  }

  /** asCapable, the rate baseline and the count of measurements, which other events change too. */
  datatype Standing = Standing(capable: bool, baseline: Option<(Timestamp, Timestamp)>, count: nat)

  function StandingOf(p: Port): Standing { Standing(p.asCapable, p.baseline, p.pdelayCount) }

  function Magnitude(x: int): nat { if x < 0 then -x else x }

  /** After a measurement of this delay. */
  function Settled(cfg: Config, s: Standing, x: Exchange, delay: int64): Standing {
    Standing(if cfg.automotive then s.capable else Magnitude(delay) <= cfg.threshold,
             Some((x.reqTx, x.reqRx)), s.count + 1)
  }

  lemma FollowUpMeasures(p: Port, es: seq<Event>, r: Option<Response>, f: Logged<FollowUp>)
    requires Knows(p, es, r)
    ensures var p' := ProcessFollowUp(p, f).0;
            if r.Some? && Complete(es, r.value, f.msg) then
              var x := Exchange(Stamp(es), r.value.rx, r.value.receipt, f.msg.origin);
              Gauged(p, p', x) && StandingOf(p') == Settled(p.cfg, StandingOf(p), x, p'.delay)
            else SameLink(p, p') && StandingOf(p') == StandingOf(p)
  {
  }

  /** What an event that measures nothing does to the standing of a live port. */
  function Disturbed(cfg: Config, s: Standing, e: Event): Standing {
    match e
    case ResponseTimeout => if cfg.automotive then s.(count := 0) else Standing(false, None, 0)
    case LinkDown => if cfg.automotive then s else s.(capable := false, baseline := None)
    case Fault => if cfg.automotive then s else s.(capable := false, baseline := None)
    case LinkUp => if cfg.automotive then s.(capable := true, count := 0) else s
    case PhaseStep => s.(baseline := None)
    case _ => s
  }

  lemma OthersMeasureNothing(p: Port, e: Event)
    requires !p.aborted && !e.RxFollowUp? && !e.Deferred?
    ensures SameLink(p, Step(p, e)) && StandingOf(Step(p, e)) == Disturbed(p.cfg, StandingOf(p), e)
  {
    if e.RxResponse? {
      ResponseFrame(Tick(p), e.r);
    }
  }

  lemma StepMeasures(p: Port, es: seq<Event>, e: Event)
    requires Agrees(p, es) && Stamped(p, es)
    ensures var p' := Step(p, e);
            if Measures(es, e) then
              Gauged(p, p', Gauge(es, e)) && StandingOf(p') == Settled(p.cfg, StandingOf(p), Gauge(es, e), p'.delay)
            else
              && SameLink(p, p')
              && StandingOf(p') == if Hold(es).dead then StandingOf(p) else Disturbed(p.cfg, StandingOf(p), e)
  {
    var t, r := Tick(p), Hold(es).resp;
    if p.aborted {
    } else if e.RxFollowUp? {
      FollowUpMeasures(t, es, r, Logged(e.f, t.Current()));
    } else if e.Deferred? {
      if p.followUp.Some? {
        FollowUpMeasures(t.(followUp := None), es, r, p.followUp.value);
      }
    } else {
      OthersMeasureNothing(p, e);
    }
  }

  lemma AfterOne(cfg: Config, es: seq<Event>, e: Event)
    ensures After(cfg, es + [e]) == Step(After(cfg, es), e)
  {
    assert (es + [e])[..|es|] == es;
  }

  /** On every run an event adds exactly one measurement, made from the timestamps that the
      events say, and sets the delay to it, if and only if it brings or takes up again a
      follow-up that completes the exchange; any other event leaves measurements, delay and
      ratio alone. */
  lemma RunMeasures(cfg: Config, es: seq<Event>, e: Event)
    ensures var p, p' := After(cfg, es), After(cfg, es + [e]);
            if Measures(es, e) then Gauged(p, p', Gauge(es, e)) else SameLink(p, p')
  {
    RunAgrees(cfg, es);
    RunStamped(cfg, es);
    StepMeasures(After(cfg, es), es, e);
    AfterOne(cfg, es, e);
  }

  /** On every run, exactly when the port is asCapable, which baseline its next ratio is
      measured from, and how many measurements it has made since a reset. */
  lemma RunStanding(cfg: Config, es: seq<Event>, e: Event)
    ensures var p, p' := After(cfg, es), After(cfg, es + [e]);
            StandingOf(p') == if Measures(es, e) then Settled(cfg, StandingOf(p), Gauge(es, e), p'.delay)
                              else if Hold(es).dead then StandingOf(p)
                              else Disturbed(cfg, StandingOf(p), e)
  {
    RunAgrees(cfg, es);
    RunStamped(cfg, es);
    RunLinkGood(cfg, es);
    StepMeasures(After(cfg, es), es, e);
    AfterOne(cfg, es, e);
  }

  /** asCapable, baseline and count told by the events: a standard port is not capable at first,
      an automotive one is. */
  function StandingAt(cfg: Config, es: seq<Event>): Standing {
    if es == [] then Standing(cfg.automotive, None, 0)
    else
      var front, e := es[..|es| - 1], es[|es| - 1];
      if Measures(front, e) then
        Settled(cfg, StandingAt(cfg, front), Gauge(front, e), Measured(Gauge(front, e), After(cfg, front).rate))
      else if Hold(front).dead then StandingAt(cfg, front)
      else Disturbed(cfg, StandingAt(cfg, front), e)
  }

  lemma {:induction false} RunStands(cfg: Config, es: seq<Event>)
    ensures StandingOf(After(cfg, es)) == StandingAt(cfg, es)
    decreases |es|
  {
    if es == [] {
    } else {
      var front, e := es[..|es| - 1], es[|es| - 1];
      assert front + [e] == es;
      RunStands(cfg, front);
      RunStanding(cfg, front, e);
      RunMeasures(cfg, front, e);
    }
  }

  /** The events that take the rate baseline away. */
  predicate Drops(cfg: Config, e: Event) {
    e.PhaseStep? || (!cfg.automotive && (e.ResponseTimeout? || e.LinkDown? || e.Fault?))
  }

  /** A measurement is the baseline until such an event. */
  lemma {:induction false} BaselineKept(cfg: Config, es: seq<Event>, k: nat)
    requires k < |es| && Measures(es[..k], es[k]) && forall j :: k < j < |es| ==> !Drops(cfg, es[j])
    ensures After(cfg, es).baseline.Some?
    decreases |es|
  {
    var front, e := es[..|es| - 1], es[|es| - 1];
    assert front + [e] == es;
    RunStanding(cfg, front, e);
    if k < |front| {
      assert front[..k] == es[..k] && front[k] == es[k];
      assert forall j :: k < j < |front| ==> front[j] == es[j];
      BaselineKept(cfg, front, k);
    } else {
      assert es[..k] == front;
    }
  }

  /** A port of the standard profile becomes asCapable exactly by a measurement within the
      threshold. */
  lemma BecomesCapable(cfg: Config, es: seq<Event>, e: Event)
    requires !cfg.automotive && !After(cfg, es).asCapable
    ensures After(cfg, es + [e]).asCapable <==>
            Measures(es, e) && Magnitude(Measured(Gauge(es, e), After(cfg, es).rate)) <= cfg.threshold
  {
    RunStanding(cfg, es, e);
    RunMeasures(cfg, es, e);
  }

  // ---- when requests are halted ---------------------------------------------------------------

  /** The third of a streak of repeated responses halts, and so does a link that goes down;
      the end of the halt and a link that comes up end it. */
  function HaltedBy(es: seq<Event>): bool {
    if es == [] then false
    else
      var front, e := es[..|es| - 1], es[|es| - 1];
      if Hold(front).dead then HaltedBy(front)
      else match e
        case RxResponse(_) => HaltedBy(front) || (|Streak(es)| == 3 && Streak(es) != Streak(front))
        case LinkDown => true
        case LinkUp => false
        case MisbehavingTimeout => false
        case _ => HaltedBy(front)
  }

  lemma StepHalted(p: Port, e: Event)
    requires !p.aborted
    ensures var p' := Step(p, e);
            p'.halted == match e
                         case RxResponse(_) => p.halted || p'.history.misbehaved > p.history.misbehaved
                         case LinkDown => true
                         case LinkUp => false
                         case MisbehavingTimeout => false
                         case _ => p.halted
  {
  }

  lemma {:induction false} RunHalted(cfg: Config, es: seq<Event>)
    ensures After(cfg, es).halted == HaltedBy(es)
    decreases |es|
  {
    if es == [] {
    } else {
      var front, e := es[..|es| - 1], es[|es| - 1];
      assert front + [e] == es;
      RunHalted(cfg, front);
      RunAgrees(cfg, front);
      HaltsOnThirdDuplicate(cfg, front, e);
      AfterOne(cfg, front, e);
      if !After(cfg, front).aborted {
        StepHalted(After(cfg, front), e);
      }
    }
  }

  // ---- how good the ratio is ---------------------------------------------------------------

  /** What passed between two moments on our clock and on that of a peer, and the
      nanoseconds by which the code lengthens theirs. */
  datatype Span = Span(mine: nat, theirs: nat, stretch: int) {
    function Total(): int { theirs + stretch }

    /** How much more than mine has passed for a peer whose clock advances by 1/rho per
        nanosecond of ours: nothing but what the two clocks were misread. */
    function Slip(rho: real): real { Times(theirs as real, rho) - mine as real }

    /** What the code takes for time that passed, and did not, in nanoseconds of ours. */
    function Excess(rho: real): real { Times(rho, stretch as real) + Slip(rho) }
  }

  function SpanOf(baseline: (Timestamp, Timestamp), delay: int64, x: Exchange, link: int64): Span
    requires Value(baseline.0) <= Value(x.reqTx) && Value(baseline.1) <= Value(x.reqRx)
  {
    Span(Value(x.reqTx) - Value(baseline.0), Value(x.reqRx) - Value(baseline.1), Positive(link) - Positive(delay))
  }

  /** Nothing overflows, and both clocks advance. */
  predicate Forward(baseline: (Timestamp, Timestamp), delay: int64, x: Exchange, link: int64) {
    && Value(baseline.0) <= Value(x.reqTx) < TWO_64 && Value(baseline.1) <= Value(x.reqRx) < TWO_64
    && 0 < SpanOf(baseline, delay, x, link).Total() < TWO_64
  }

  /** Quotients as named terms, like products. */
  function Per(x: real, y: real): real
    requires y != 0.0
  {
    x / y
  }

  /** The quotient that the code computes is off from the true ratio by the excess over the
      length of the span. */
  lemma QuotientError(s: Span, rho: real)
    requires s.Total() > 0
    ensures Per(s.mine as real, s.Total() as real) == rho - Per(s.Excess(rho), s.Total() as real)
  {
    Split(rho, s.theirs as real, s.stretch as real, s.Total() as real, s.mine as real);
  }

  lemma Split(rho: real, theirs: real, stretch: real, total: real, mine: real)
    requires total == theirs + stretch > 0.0
    ensures Per(mine, total) == rho - Per(Times(rho, stretch) + (Times(theirs, rho) - mine), total)
  {
    assert Times(rho, stretch) + Times(theirs, rho) == rho * total;
    assert (rho * total - mine) / total == rho * total / total - mine / total;
    assert rho * total / total == rho;
  }

  /** The new ratio is the local time over the peer's that passed since the baseline, if that is
      within 250 ppm of one, and otherwise the old one. */
  lemma RatioIsQuotient(rate: real, baseline: (Timestamp, Timestamp), delay: int64, x: Exchange, link: int64)
    requires Forward(baseline, delay, x, link)
    ensures var s := SpanOf(baseline, delay, x, link);
            var q := Per(s.mine as real, s.Total() as real);
            NextRate(rate, Some(baseline), delay, x, link) == if 0.99975 < q < 1.00025 then q else rate
  {
    Fits64(Value(x.reqTx));
    Fits64(Value(x.reqRx));
    Fits64(Value(baseline.0));
    Fits64(Value(baseline.1));
    Fits64(Value(x.reqTx) - Value(baseline.0));
    Fits64(SpanOf(baseline, delay, x, link).Total());
  }

  lemma NoExcess(s: Span, rho: real)
    requires s.stretch == 0 && Abs(s.Slip(rho)) <= 2.0 * Times(rho, 0.0) && s.Total() > 0
    ensures Per(s.Excess(rho), s.Total() as real) == 0.0
  {
    assert Times(rho, 0.0) == 0.0;
  }

  /** With the baseline and the new request over the same delay to a clock of ratio rho, read
      to within e, the new ratio is off from rho by exactly the excess over the time that
      passed at the peer, unless that is implausible and the old one is kept.  The excess is
      rho times the change of the measured delay and at most two misreadings, so the ratio
      is rho if the measured delay did not change and the clocks are read exactly. */
  lemma NeighbourRatio(
    rate: real, baseline: (Timestamp, Timestamp), delay: int64, x: Exchange, link: int64,
    d: real, offset: real, rho: real, e: real)
    requires rho > 0.0 && Forward(baseline, delay, x, link)
    requires Shows(baseline.0, baseline.1, d, offset, rho, e) && Shows(x.reqTx, x.reqRx, d, offset, rho, e)
    ensures var s := SpanOf(baseline, delay, x, link);
            var q := rho - Per(s.Excess(rho), s.Total() as real);
            && NextRate(rate, Some(baseline), delay, x, link) == (if 0.99975 < q < 1.00025 then q else rate)
            && s.Excess(rho) == Times(rho, (Positive(link) - Positive(delay)) as real) + s.Slip(rho)
            && Abs(s.Slip(rho)) <= 2.0 * Times(rho, e)
            && (Positive(link) == Positive(delay) && e == 0.0 ==> q == rho)
  {
    var s := SpanOf(baseline, delay, x, link);
    PassedAtPeer(baseline, (x.reqTx, x.reqRx), d, d, offset, rho, e);
    QuotientError(s, rho);
    RatioIsQuotient(rate, baseline, delay, x, link);
    if s.stretch == 0 && e == 0.0 {
      NoExcess(s, rho);
    }
  }

  // ---- how good ratio and delay are on every run ------------------------------------------------

  /** A peer of ratio rho behind a symmetric path of delay d that answers within turn, asked
      at least gap apart on its clock, with clocks read to within e, and a bound on the error
      of the ratio that such a peer cannot make worse: the first ratio, one, meets it, and so
      does each that is measured from delays with the error it allows. */
  datatype Peer = Peer(d: real, offset: real, rho: real, turn: real, gap: real, e: real, bound: real) {
    /** How far two delays can be apart that are measured with ratios within the bound. */
    function Slack(): real { Times(bound, turn) + 2.0 * Times(rho, e) + 2.0 }

    ghost predicate Steady() {
      && rho > 0.0 && turn >= 0.0 && e >= 0.0 && Abs(1.0 - rho) <= bound
      && Slack() < gap && Times(rho, Slack() + 2.0 * e) <= Times(bound, gap - Slack())
    }

    /** The error of a ratio that was measured. */
    ghost function Fine(): real
      requires Steady()
    {
      Per(Times(rho, Slack() + 2.0 * e), gap - Slack())
    }

    /** The error of a delay that was measured with a ratio off by this much. */
    function Miss(off: real): real { Times(off, turn) / 2.0 + Times(rho, e) + 1.0 }
  }

  function X(m: Measurement): Exchange { ExchangeOf(m.request.msg, m.response.msg, m.followUp.msg) }

  ghost predicate From(m: Measurement, o: Peer)
    requires o.rho > 0.0
  {
    && Symmetric(X(m), o.d, o.offset, o.rho, o.e) && Sane(X(m), m.rate) && X(m).Turn() as real <= o.turn
    && Value(X(m).reqTx) < TWO_63 && Value(X(m).reqRx) < TWO_63
  }

  ghost predicate Apart(a: Measurement, b: Measurement, o: Peer) {
    && Value(X(a).reqTx) <= Value(X(b).reqTx)
    && (Value(X(b).reqRx) - Value(X(a).reqRx)) as real >= o.gap
  }

  ghost predicate AllFrom(ms: seq<Measurement>, o: Peer)
    requires o.rho > 0.0
  {
    && (forall i :: 0 <= i < |ms| ==> From(ms[i], o))
    && (forall i, j :: 0 <= i && j == i + 1 < |ms| ==> Apart(ms[i], ms[j], o))
  }

  /** The first ratio, or one that was measured; both are within the bound. */
  ghost predicate Good(rate: real, o: Peer)
    requires o.Steady()
  {
    Abs(rate - o.rho) <= o.bound && (rate == 1.0 || Abs(rate - o.rho) <= o.Fine())
  }

  /** A delay measured with this ratio. */
  ghost predicate Close(delay: int64, rate: real, o: Peer)
    requires o.Steady()
  {
    Abs(delay as real - o.d) <= o.Miss(o.bound) && (rate == 1.0 || Abs(delay as real - o.d) <= o.Miss(o.Fine()))
  }

  lemma TimesMonotone(x: real, y: real, u: real, v: real)
    requires 0.0 <= x <= y && 0.0 <= u <= v
    ensures Times(x, u) <= Times(y, v)
  {
    assert x * u <= y * u <= y * v;
  }

  lemma GoodDelay(x: Exchange, rate: real, o: Peer)
    requires o.Steady() && Good(rate, o) && RatioGood(rate)
    requires Symmetric(x, o.d, o.offset, o.rho, o.e) && Sane(x, rate) && x.Turn() as real <= o.turn
    ensures Close(Measured(x, rate), rate, o)
  {
    ErrorBound(x, rate, o.d, o.offset, o.rho, o.e);
    assert Applied(rate) == rate;
    TimesMonotone(Abs(rate - o.rho), o.bound, x.Turn() as real, o.turn);
    if rate != 1.0 {
      TimesMonotone(Abs(rate - o.rho), o.Fine(), x.Turn() as real, o.turn);
    }
  }

  lemma StretchBound(a: int64, b: int64, o: Peer)
    requires Abs(a as real - o.d) <= o.Slack() / 2.0 && Abs(b as real - o.d) <= o.Slack() / 2.0
    ensures Abs((Positive(b) - Positive(a)) as real) <= o.Slack()
  {
  }

  lemma PerLess(x: real, u: real, y: real)
    requires 0.0 <= x <= u && y > 0.0
    ensures 0.0 <= Per(x, y) <= Per(u, y)
  {
    var k := u - x;
    assert k / y >= 0.0 && x / y >= 0.0;
    assert (x + k) / y == x / y + k / y;
  }

  lemma PerTimes(q: real, y: real)
    requires y > 0.0
    ensures Per(Times(q, y), y) == q
  {
  }

  lemma PerMonotone(x: real, y: real, u: real, v: real)
    requires 0.0 <= x <= u && 0.0 < v <= y
    ensures 0.0 <= Per(x, y) <= Per(u, v)
  {
    var q := Per(u, v);
    PerLess(0.0, u, v);
    assert Times(q, v) == u;
    TimesMonotone(q, q, v, y);
    PerLess(x, Times(q, y), y);
    PerTimes(q, y);
  }

  lemma FineIsGood(o: Peer)
    requires o.Steady()
    ensures 0.0 <= o.Fine() <= o.bound
  {
    var g := o.gap - o.Slack();
    SlackIsPositive(o);
    ScaledBound(0.0, o.Slack() + 2.0 * o.e, o.rho);
    PerLess(Times(o.rho, o.Slack() + 2.0 * o.e), Times(o.bound, g), g);
    PerTimes(o.bound, g);
  }

  lemma SlackIsPositive(o: Peer)
    requires o.Steady()
    ensures o.Slack() > 0.0
  {
    ScaledBound(0.0, o.e, o.rho);
    TimesMonotone(0.0, o.bound, 0.0, o.turn);
  }

  lemma SignOut(x: real, y: real)
    requires y > 0.0
    ensures Abs(Per(x, y)) == Per(Abs(x), y)
  {
    if x < 0.0 {
      assert Per(-x, y) == -Per(x, y);
      PerLess(0.0, -x, y);
    } else {
      PerLess(0.0, x, y);
    }
  }

  lemma ExcessBound(s: Span, o: Peer)
    requires o.Steady() && Abs(s.stretch as real) <= o.Slack() && Abs(s.Slip(o.rho)) <= 2.0 * Times(o.rho, o.e)
    ensures Abs(s.Excess(o.rho)) <= Times(o.rho, o.Slack() + 2.0 * o.e)
  {
    ScaledBound(s.stretch as real, o.Slack(), o.rho);
    assert Times(o.rho, o.Slack() + 2.0 * o.e) == Times(o.rho, o.Slack()) + 2.0 * Times(o.rho, o.e);
  }

  lemma ErrorOfRatio(excess: real, total: real, o: Peer)
    requires o.Steady() && Abs(excess) <= Times(o.rho, o.Slack() + 2.0 * o.e) && total >= o.gap - o.Slack()
    ensures total > 0.0 && Abs(Per(excess, total)) <= o.Fine()
  {
    PerMonotone(Abs(excess), total, Times(o.rho, o.Slack() + 2.0 * o.e), o.gap - o.Slack());
    SignOut(excess, total);
  }

  ghost predicate AllClose(ms: seq<Measurement>, o: Peer)
    requires o.Steady()
  {
    forall i :: 0 <= i < |ms| ==> Good(ms[i].rate, o) && Close(ms[i].delay, ms[i].rate, o)
  }

  lemma OneMoreClose(ms: seq<Measurement>, m: Measurement, o: Peer)
    requires o.Steady() && AllClose(ms, o) && Good(m.rate, o) && Close(m.delay, m.rate, o)
    ensures AllClose(ms + [m], o)
  {
  }

  lemma OneMoreGauged(p: Port, p': Port, x: Exchange)
    requires Gauged(p, p', x)
    ensures p'.history.accepted == p.history.accepted + [p'.history.accepted[|p.history.accepted|]]
  {
    var ms, ms' := p.history.accepted, p'.history.accepted;
    assert ms' == ms'[..|ms|] + [ms'[|ms|]];
  }

  /** Every ratio and every delay is within the bound, and the baseline is that of the last
      measurement. */
  ghost predicate Accurate(p: Port, o: Peer)
    requires o.Steady()
  {
    var ms := p.history.accepted;
    && Good(p.rate, o) && AllClose(ms, o)
    && (p.baseline.Some? ==>
          && ms != []
          && p.baseline == Some((X(ms[|ms| - 1]).reqTx, X(ms[|ms| - 1]).reqRx)) && p.delay == ms[|ms| - 1].delay)
  }

  lemma NextIsGood(rate: real, a: Measurement, b: Measurement, o: Peer)
    requires o.Steady() && From(a, o) && From(b, o) && Apart(a, b, o) && Good(rate, o)
    requires Close(a.delay, a.rate, o) && Close(b.delay, b.rate, o)
    ensures Good(NextRate(rate, Some((X(a).reqTx, X(a).reqRx)), a.delay, X(b), b.delay), o)
  {
    var baseline := (X(a).reqTx, X(a).reqRx);
    var s := SpanOf(baseline, a.delay, X(b), b.delay);
    StretchBound(a.delay, b.delay, o);
    FineIsGood(o);
    NeighbourRatio(rate, baseline, a.delay, X(b), b.delay, o.d, o.offset, o.rho, o.e);
    ExcessBound(s, o);
    ErrorOfRatio(s.Excess(o.rho), s.Total() as real, o);
  }

  lemma GaugedAccurate(p: Port, p': Port, x: Exchange, o: Peer)
    requires o.Steady() && Accurate(p, o) && RatioGood(p.rate) && Gauged(p, p', x) && AllFrom(p'.history.accepted, o)
    ensures Accurate(p', o)
  {
    var ms, ms' := p.history.accepted, p'.history.accepted;
    var n := |ms|;
    var m := ms'[n];
    assert From(m, o);
    GoodDelay(x, p.rate, o);
    OneMoreGauged(p, p', x);
    OneMoreClose(ms, m, o);
    if p.baseline.Some? {
      assert Apart(ms'[n - 1], ms'[n], o) && From(ms'[n - 1], o);
      NextIsGood(p.rate, ms'[n - 1], m, o);
    }
  }

  /** The ratio of such a peer is never taken for implausible. */
  ghost predicate Plausible(o: Peer)
    requires o.Steady()
  {
    0.99975 < o.rho - o.Fine() && o.rho + o.Fine() < 1.00025
  }

  /** The ratio is one that was measured. */
  ghost predicate Tuned(rate: real, o: Peer)
    requires o.Steady()
  {
    Abs(rate - o.rho) <= o.Fine()
  }

  lemma NextIsTuned(rate: real, a: Measurement, b: Measurement, o: Peer)
    requires o.Steady() && Plausible(o) && From(a, o) && From(b, o) && Apart(a, b, o)
    requires Close(a.delay, a.rate, o) && Close(b.delay, b.rate, o)
    ensures Tuned(NextRate(rate, Some((X(a).reqTx, X(a).reqRx)), a.delay, X(b), b.delay), o)
  {
    var baseline := (X(a).reqTx, X(a).reqRx);
    var s := SpanOf(baseline, a.delay, X(b), b.delay);
    StretchBound(a.delay, b.delay, o);
    NeighbourRatio(rate, baseline, a.delay, X(b), b.delay, o.d, o.offset, o.rho, o.e);
    ExcessBound(s, o);
    ErrorOfRatio(s.Excess(o.rho), s.Total() as real, o);
  }

  lemma TunedDelay(x: Exchange, rate: real, o: Peer)
    requires o.Steady() && Tuned(rate, o) && RatioGood(rate)
    requires Symmetric(x, o.d, o.offset, o.rho, o.e) && Sane(x, rate) && x.Turn() as real <= o.turn
    ensures Abs(Measured(x, rate) as real - o.d) <= o.Miss(o.Fine())
  {
    ErrorBound(x, rate, o.d, o.offset, o.rho, o.e);
    assert Applied(rate) == rate;
    TimesMonotone(Abs(rate - o.rho), o.Fine(), x.Turn() as real, o.turn);
  }

  /** A second measurement tunes the ratio. */
  lemma GaugedTuned(p: Port, p': Port, x: Exchange, o: Peer)
    requires o.Steady() && Plausible(o) && Accurate(p, o) && Accurate(p', o)
    requires Gauged(p, p', x) && AllFrom(p'.history.accepted, o)
    ensures p.baseline.Some? || Tuned(p.rate, o) ==> Tuned(p'.rate, o)
  {
    var ms, ms' := p.history.accepted, p'.history.accepted;
    var n := |ms|;
    if p.baseline.Some? {
      assert ms'[n - 1] == ms'[..n][n - 1] == ms[n - 1];
      assert Apart(ms'[n - 1], ms'[n], o) && From(ms'[n - 1], o) && From(ms'[n], o);
      NextIsTuned(p.rate, ms'[n - 1], ms'[n], o);
    }
  }

  lemma AllFromPrefix(ms: seq<Measurement>, n: nat, o: Peer)
    requires o.rho > 0.0 && AllFrom(ms, o) && n <= |ms|
    ensures AllFrom(ms[..n], o)
  {
    forall i, j | 0 <= i && j == i + 1 < n
      ensures Apart(ms[..n][i], ms[..n][j], o)
    {
      assert Apart(ms[i], ms[j], o);
    }
  }

  lemma SameIsAccurate(p: Port, p': Port, o: Peer)
    requires o.Steady() && Accurate(p, o) && SameLink(p, p') && (p'.baseline == p.baseline || p'.baseline.None?)
    ensures Accurate(p', o)
  {
  }

  lemma StepAccurate(cfg: Config, es: seq<Event>, e: Event, o: Peer)
    requires o.Steady() && AllFrom(After(cfg, es + [e]).history.accepted, o) && Accurate(After(cfg, es), o)
    ensures Accurate(After(cfg, es + [e]), o)
  {
    var p, p' := After(cfg, es), After(cfg, es + [e]);
    RunMeasures(cfg, es, e);
    if Measures(es, e) {
      RunLinkGood(cfg, es);
      GaugedAccurate(p, p', Gauge(es, e), o);
    } else {
      RunStanding(cfg, es, e);
      assert StandingOf(p').baseline == StandingOf(p).baseline || StandingOf(p').baseline.None?;
      SameIsAccurate(p, p', o);
    }
  }

  /** On every run whose measurements are all of one such peer, every ratio used is within the
      bound of its ratio, and every delay accepted is within half the bound times the longest
      turn-around, plus a reading and one nanosecond, of the true delay; with a ratio that was
      measured the bound is the change of delays so allowed, plus two readings, over the time
      between requests. */
  lemma {:induction false} RunAccurate(cfg: Config, es: seq<Event>, o: Peer)
    requires o.Steady() && AllFrom(After(cfg, es).history.accepted, o)
    ensures Accurate(After(cfg, es), o)
    decreases |es|
  {
    if es == [] {
    } else {
      var front, e := es[..|es| - 1], es[|es| - 1];
      var p, p' := After(cfg, front), After(cfg, es);
      assert front + [e] == es;
      RunMeasures(cfg, front, e);
      AllFromPrefix(p'.history.accepted, |p.history.accepted|, o);
      assert p'.history.accepted[..|p.history.accepted|] == p.history.accepted;
      RunAccurate(cfg, front, o);
      StepAccurate(cfg, front, e, o);
    }
  }

  lemma StepTuned(cfg: Config, es: seq<Event>, e: Event, o: Peer)
    requires o.Steady() && Plausible(o) && AllFrom(After(cfg, es + [e]).history.accepted, o)
    ensures var p, p' := After(cfg, es), After(cfg, es + [e]);
            (Measures(es, e) && p.baseline.Some?) || Tuned(p.rate, o) ==> Tuned(p'.rate, o)
  {
    var p, p' := After(cfg, es), After(cfg, es + [e]);
    RunMeasures(cfg, es, e);
    if Measures(es, e) {
      FromBefore(cfg, es, e, o);
      RunAccurate(cfg, es, o);
      RunAccurate(cfg, es + [e], o);
      GaugedTuned(p, p', Gauge(es, e), o);
    }
  }

  lemma FromBefore(cfg: Config, es: seq<Event>, e: Event, o: Peer)
    requires o.rho > 0.0 && AllFrom(After(cfg, es + [e]).history.accepted, o)
    ensures AllFrom(After(cfg, es).history.accepted, o)
  {
    var ms, ms' := After(cfg, es).history.accepted, After(cfg, es + [e]).history.accepted;
    RunMeasures(cfg, es, e);
    AllFromPrefix(ms', |ms|, o);
    assert ms'[..|ms|] == ms;
  }

  /** The measurements from the n-th on are made with a measured ratio. */
  ghost predicate TunedFrom(ms: seq<Measurement>, n: nat, o: Peer)
    requires o.Steady()
  {
    forall j :: n <= j < |ms| ==> Tuned(ms[j].rate, o) && Abs(ms[j].delay as real - o.d) <= o.Miss(o.Fine())
  }

  lemma OneMoreTuned(ms: seq<Measurement>, m: Measurement, n: nat, o: Peer)
    requires o.Steady() && TunedFrom(ms, n, o)
    requires Tuned(m.rate, o) && Abs(m.delay as real - o.d) <= o.Miss(o.Fine())
    ensures TunedFrom(ms + [m], n, o)
  {
  }

  lemma GrowsTuned(p: Port, p': Port, x: Exchange, n: nat, o: Peer)
    requires o.Steady() && Gauged(p, p', x) && AllFrom(p'.history.accepted, o) && RatioGood(p.rate)
    requires Tuned(p.rate, o) && TunedFrom(p.history.accepted, n, o)
    ensures TunedFrom(p'.history.accepted, n, o)
  {
    var ms, ms' := p.history.accepted, p'.history.accepted;
    assert From(ms'[|ms|], o);
    TunedDelay(x, p.rate, o);
    OneMoreGauged(p, p', x);
    OneMoreTuned(ms, ms'[|ms|], n, o);
  }

  lemma StepTunedFrom(cfg: Config, es: seq<Event>, e: Event, n: nat, o: Peer)
    requires o.Steady() && AllFrom(After(cfg, es + [e]).history.accepted, o)
    requires Tuned(After(cfg, es).rate, o) && TunedFrom(After(cfg, es).history.accepted, n, o)
    ensures TunedFrom(After(cfg, es + [e]).history.accepted, n, o)
  {
    RunMeasures(cfg, es, e);
    if Measures(es, e) {
      RunLinkGood(cfg, es);
      GrowsTuned(After(cfg, es), After(cfg, es + [e]), Gauge(es, e), n, o);
    }
  }

  /** On every such run, if the peer is within what is plausible: once a measurement is made with
      a baseline the ratio is tuned for good, and every delay accepted after it is that
      accurate. */
  lemma {:induction false} RunTuned(cfg: Config, es: seq<Event>, o: Peer, i: nat)
    requires o.Steady() && Plausible(o) && AllFrom(After(cfg, es).history.accepted, o)
    requires i < |es| && Measures(es[..i], es[i]) && After(cfg, es[..i]).baseline.Some?
    ensures Tuned(After(cfg, es).rate, o)
    ensures TunedFrom(After(cfg, es).history.accepted, |After(cfg, es[..i + 1]).history.accepted|, o)
    decreases |es|
  {
    var front, e := es[..|es| - 1], es[|es| - 1];
    var n := |After(cfg, es[..i + 1]).history.accepted|;
    assert front + [e] == es;
    StepTuned(cfg, front, e, o);
    if i == |front| {
      assert es[..i] == front && es[..i + 1] == es;
    } else {
      assert front[..i] == es[..i] && front[..i + 1] == es[..i + 1];
      FromBefore(cfg, front, e, o);
      RunTuned(cfg, front, o, i);
      StepTunedFrom(cfg, front, e, n, o);
    }
  }

  /** A peer within 200 ppm that answers within 10 ms and is asked every 0.9 s or less often,
      with clocks read to within e, of up to 100 ns. */
  predicate Typical(o: Peer) {
    && 0.9998 <= o.rho <= 1.0002 && o.turn == 10000000.0 && o.gap == 900000000.0 && o.bound == 0.0002
    && 0.0 <= o.e <= 100.0
  }

  /** Its ratios measured are within 3 ppm, which is plausible, and the delays then within
      12.2 ns and 1.03 e, which is 21 ns for readings to within 8 ns. */
  lemma TypicalPeer(o: Peer)
    requires Typical(o)
    ensures o.Steady() && Plausible(o) && o.Fine() <= 0.000003 && o.Miss(o.Fine()) <= 12.2 + 1.03 * o.e
  {
    var rho, e := o.rho, o.e;
    TimesMonotone(0.0, rho, 0.0, e);
    TimesMonotone(rho, 1.0002, e, e);
    var slack, most := o.Slack(), 2002.0 + 2.0004 * e;
    assert 2002.0 <= slack <= most;
    TimesMonotone(rho, 1.0002, slack + 2.0 * e, most + 2.0 * e);
    FineIsGood(o);
    TimesMonotone(0.0, rho, 0.0, slack + 2.0 * e);
    PerMonotone(Times(rho, slack + 2.0 * e), o.gap - slack, 1.0002 * (most + 2.0 * e), 899997000.0);
  }

  /** The same for a second measurement of which the events say that it has a baseline. */
  lemma RunTunedKept(cfg: Config, es: seq<Event>, k: nat, i: nat, o: Peer)
    requires o.Steady() && Plausible(o) && AllFrom(After(cfg, es).history.accepted, o)
    requires k < i < |es| && Measures(es[..k], es[k]) && Measures(es[..i], es[i])
    requires forall l :: k < l < i ==> !Drops(cfg, es[l])
    ensures Tuned(After(cfg, es).rate, o)
    ensures TunedFrom(After(cfg, es).history.accepted, |After(cfg, es[..i + 1]).history.accepted|, o)
  {
    assert es[..i][..k] == es[..k];
    BaselineKept(cfg, es[..i], k);
    RunTuned(cfg, es, o, i);
  }

  /** The ratio within 3 ppm, and the delay within 12.2 ns and 1.03 e. */
  predicate Sharp(rate: real, delay: int64, o: Peer) {
    Abs(rate - o.rho) <= 0.000003 && Abs(delay as real - o.d) <= 12.2 + 1.03 * o.e
  }

  lemma TunedIsSharp(rate: real, ms: seq<Measurement>, n: nat, j: nat, o: Peer)
    requires Typical(o) && o.Steady() && n <= j < |ms| && Tuned(rate, o) && TunedFrom(ms, n, o)
    ensures Sharp(rate, ms[j].delay, o)
  {
    TypicalPeer(o);
  }

  /** So on every run with such a peer the second measurement, if nothing took the baseline away
      since the first, makes the ratio so sharp for good, and every delay accepted from then
      on. */
  lemma TypicalRun(cfg: Config, es: seq<Event>, k: nat, i: nat, j: nat, o: Peer)
    requires Typical(o) && AllFrom(After(cfg, es).history.accepted, o)
    requires k < i < |es| && Measures(es[..k], es[k]) && Measures(es[..i], es[i])
    requires forall l :: k < l < i ==> !Drops(cfg, es[l])
    requires |After(cfg, es[..i + 1]).history.accepted| <= j < |After(cfg, es).history.accepted|
    ensures Sharp(After(cfg, es).rate, After(cfg, es).history.accepted[j].delay, o)
  {
    TypicalPeer(o);
    RunTunedKept(cfg, es, k, i, o);
    var p, n := After(cfg, es), |After(cfg, es[..i + 1]).history.accepted|;
    TunedIsSharp(p.rate, p.history.accepted, n, j, o);
  }
}
