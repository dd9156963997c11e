/** The peer-delay exchange of an Ethernet port: request, response and follow-up
    slots, deferral until the transmit timestamp is known, duplicate-response
    detection, asCapable, link delay and neighbour rate ratio. */
module PeerDelay {
  import opened MachineInts
  import opened Timestamps
  import opened PriorityVectors
  import opened LinkDelay

  datatype PortId = PortId(clock: Identity, number: uint16)
  datatype Request = Request(seqId: uint16, stamp: Timestamp)
  datatype Response = Response(seqId: uint16, source: PortId, requesting: PortId, receipt: Timestamp, rx: Timestamp)
  datatype FollowUp = FollowUp(seqId: uint16, source: PortId, requesting: PortId, origin: Timestamp)

  /** A message with the number of the event that brought it. */
  datatype Logged<T> = Logged(msg: T, at: nat)

  const INVALID_NS: uint32 := 0xC000_0000
  const PENDING_NS: uint32 := 0xC000_0001
  const INVALID_LINKDELAY: int64 := 3_600_000_000_000
  const DUPLICATE_RESP_THRESH: nat := 3
  const UPPER_RATIO: real := 1.0 + 250.0 / 1000000.0
  const LOWER_RATIO: real := 1.0 - 250.0 / 1000000.0

  datatype Config = Config(automotive: bool, threshold: int64)

  /** An accepted measurement: what it was made from and with which ratio. */
  datatype Measurement = Measurement(
    request: Logged<Request>, stampedAt: nat, response: Logged<Response>, followUp: Logged<FollowUp>,
    rate: real, delay: int64)

  /** A counted duplicate: one sequence id, two responses. */
  datatype Duplicate = Duplicate(id: uint16, first: nat, second: nat)

  datatype Port = Port(
    cfg: Config,
    request: Option<Logged<Request>>, response: Option<Logged<Response>>, followUp: Option<Logged<FollowUp>>,
    nextSeq: uint16, dupCounter: nat, lastInvalid: uint16, halted: bool,
    asCapable: bool, delay: int64, rate: real, baseline: Option<(Timestamp, Timestamp)>, pdelayCount: nat,
    aborted: bool,
    history: History)
  {
    /** The number of the event being handled. */
    function Current(): nat { if history.now == 0 then 0 else history.now - 1 }
  }

  /** Number of events begun, when the request was stamped, and what was accepted,
      counted since the last counter reset, and halted for misbehaviour. */
  datatype History = History(
    now: nat, stampedAt: nat, accepted: seq<Measurement>, dups: seq<Duplicate>, misbehaved: nat)

  function Start(cfg: Config): Port {
    Port(cfg, None, None, None, 0, 0, 0, false, cfg.automotive, INVALID_LINKDELAY, 1.0, None, 0, false,
         History(0, 0, [], [], 0))
  }

  datatype Event =
    | Interval                 // PDELAY_INTERVAL: a new request is stored and sent
    | TxDone(stamp: Timestamp) // its transmit timestamp, or INVALID_TIMESTAMP
    | RxResponse(r: Response) | RxFollowUp(f: FollowUp)
    | Deferred                 // PDELAY_DEFERRED_PROCESSING
    | ResponseTimeout | MisbehavingTimeout | LinkUp | LinkDown | Fault
    | PhaseStep                // the servo invalidates the rate baseline

  // ---- the handlers ------------------------------------------------------------

  function SetAsCapable(p: Port, capable: bool): Port {
    p.(asCapable := capable, baseline := if capable then p.baseline else None)
  }

  function SendRequest(p: Port): Port {
    p.(request := Some(Logged(Request(p.nextSeq, Timestamp(PENDING_NS, 0, 0, INVALID_VERSION)), p.Current())),
       nextSeq := (p.nextSeq + 1) % TWO_16)
  }

  function Pending(stamp: Timestamp): bool { stamp.nanoseconds == PENDING_NS }

  function StampRequest(p: Port, stamp: Timestamp): Port {
    if p.request.Some? && Pending(p.request.value.msg.stamp) then
      p.(request := Some(p.request.value.(msg := p.request.value.msg.(stamp := stamp))),
         history := p.history.(stampedAt := p.Current()))
    else p
  }

  function ResetDuplicates(p: Port): Port { p.(dupCounter := 0, history := p.history.(dups := [])) }

  /** incrementDuplicateRespCounter and, at the threshold, stopPDelay. */
  function CountDuplicate(p: Port, prev: Logged<Response>): Port {
    var dups := p.history.dups + [Duplicate(prev.msg.seqId, prev.at, p.Current())];
    var counted := p.(dupCounter := p.dupCounter + 1, history := p.history.(dups := dups));
    if counted.dupCounter == DUPLICATE_RESP_THRESH then
      counted.(halted := true, history := counted.history.(misbehaved := counted.history.misbehaved + 1))
    else counted
  }

  function CheckDuplicate(p: Port, r: Response): Port {
    if p.response.None? then p
    else
      var prev := p.response.value;
      if r.seqId != prev.msg.seqId then ResetDuplicates(p)
      else
        // the sum is an int: sequence id 0 never follows 65535
        (if r.source.number != prev.msg.source.number && (p.lastInvalid + 1 == r.seqId || p.dupCounter == 0)
         then CountDuplicate(p, prev) else ResetDuplicates(p)).(lastInvalid := r.seqId)
  }

  function StoreResponse(p: Port, r: Response): Port {
    CheckDuplicate(p, r).(response := Some(Logged(r, p.Current())))
  }

  predicate Matches(q: Request, r: Response, f: FollowUp) {
    && q.seqId == f.seqId && r.seqId == f.seqId
    && r.requesting.number == f.requesting.number && f.source == r.source
  }

  function Positive(x: int): nat { if x > 0 then x else 0 }

  /** The neighbour rate ratio after a measurement; implausible ones are ignored. */
  function NextRate(
    rate: real, baseline: Option<(Timestamp, Timestamp)>, delay: int64, x: Exchange, link: int64): real
  {
    if baseline.None? then rate
    else
      var (mine, theirs) := baseline.value;
      var mineElapsed := ToUint64(ToNs(x.reqTx) - ToNs(mine));
      var theirsElapsed := ToUint64(ToNs(x.reqRx) - ToNs(theirs) - Positive(delay) + Positive(link));
      if theirsElapsed != 0 && LOWER_RATIO < mineElapsed as real / theirsElapsed as real < UPPER_RATIO
      then mineElapsed as real / theirsElapsed as real else rate
  }

  function ExchangeOf(q: Request, r: Response, f: FollowUp): Exchange {
    Exchange(q.stamp, r.rx, r.receipt, f.origin)
  }

  predicate Within(link: int, threshold: int) { -threshold <= link <= threshold }

  function Accept(p: Port, q: Logged<Request>, r: Logged<Response>, f: Logged<FollowUp>): Port {
    var x := ExchangeOf(q.msg, r.msg, f.msg);
    var link := Measured(x, p.rate);
    var m := Measurement(q, p.history.stampedAt, r, f, p.rate, link);
    var rate := NextRate(p.rate, p.baseline, p.delay, x, link);
    var p' := p.(pdelayCount := p.pdelayCount + 1, rate := rate, delay := link,
                 history := p.history.(accepted := p.history.accepted + [m]));
    (if p.cfg.automotive then p' else SetAsCapable(p', Within(link, p.cfg.threshold)))
      .(baseline := Some((q.msg.stamp, r.msg.receipt)), response := None)
  }

  /** A follow-up: it is consumed together with the stored response, unless the
      request still waits for its timestamp; then it is kept for later. */
  function ProcessFollowUp(p: Port, f: Logged<FollowUp>): (Port, bool) {
    var drop := p.(response := None);
    if p.request.None? || p.response.None? then (drop, false)
    else
      var q, r := p.request.value, p.response.value;
      if !Matches(q.msg, r.msg, f.msg) || q.msg.stamp.nanoseconds == INVALID_NS then (drop, false)
      else if Pending(q.msg.stamp) then (p.(followUp := Some(f)), true)
      else if q.msg.stamp.version != r.msg.rx.version then (drop, false)
      else (Accept(p, q, r, f), false)
  }

  /** The kept follow-up is processed again, and kept again only if the timestamp is still missing. */
  function ProcessDeferred(p: Port): Port {
    if p.followUp.None? then p.(aborted := true)
    else ProcessFollowUp(p.(followUp := None), p.followUp.value).0
  }

  function LoseCapability(p: Port): Port { if p.cfg.automotive then p else SetAsCapable(p, false) }

  function Handle(p: Port, e: Event): Port {
    match e
    case Interval => SendRequest(p)
    case TxDone(stamp) => StampRequest(p, stamp)
    case RxResponse(r) => StoreResponse(p, r)
    case RxFollowUp(f) => ProcessFollowUp(p, Logged(f, p.Current())).0
    case Deferred => ProcessDeferred(p)
    case ResponseTimeout => LoseCapability(p).(pdelayCount := 0)
    case MisbehavingTimeout => p.(halted := false)
    case LinkUp =>
      if p.cfg.automotive then SetAsCapable(p, true).(halted := false, pdelayCount := 0) else p.(halted := false)
    case LinkDown => LoseCapability(p).(halted := true)
    case Fault => LoseCapability(p)
    case PhaseStep => p.(baseline := None)
  }

  function Tick(p: Port): Port { p.(history := p.history.(now := p.history.now + 1)) }

  /** Nothing happens to an aborted process. */
  function Step(p: Port, e: Event): Port {
    if p.aborted then Tick(p) else Handle(Tick(p), e)
  }

  function After(cfg: Config, es: seq<Event>): Port {
    if es == [] then Start(cfg) else Step(After(cfg, es[..|es| - 1]), es[|es| - 1])
  }

  // ---- the port, updated in place ----------------------------------------------------

  class EtherPort {
    const cfg: Config
    var request: Option<Logged<Request>>
    var response: Option<Logged<Response>>
    var followUp: Option<Logged<FollowUp>>
    var nextSeq: uint16
    var dupCounter: nat
    var lastInvalid: uint16
    var halted: bool
    var asCapable: bool
    var delay: int64
    var rate: real
    var baseline: Option<(Timestamp, Timestamp)>
    var pdelayCount: nat
    var aborted: bool
    var history: History

    function View(): Port
      reads this
    {
      Port(cfg, request, response, followUp, nextSeq, dupCounter, lastInvalid, halted,
           asCapable, delay, rate, baseline, pdelayCount, aborted, history)
    }

    constructor (cfg: Config)
      ensures View() == Start(cfg)
    {
      this.cfg := cfg;
      request, response, followUp, nextSeq := None, None, None, 0;
      dupCounter, lastInvalid, halted := 0, 0, false;
      asCapable, delay, rate, baseline, pdelayCount := cfg.automotive, INVALID_LINKDELAY, 1.0, None, 0;
      aborted, history := false, History(0, 0, [], [], 0);
    }

    method HandleInterval()
      modifies this
      ensures View() == SendRequest(old(View()))
    {
      var q := Request(nextSeq, Timestamp(PENDING_NS, 0, 0, INVALID_VERSION));
      nextSeq := (nextSeq + 1) % TWO_16;
      request := Some(Logged(q, View().Current()));
    }

    method HandleTxTimestamp(stamp: Timestamp)
      modifies this
      ensures View() == StampRequest(old(View()), stamp)
    {
      if request.Some? && Pending(request.value.msg.stamp) {
        request := Some(request.value.(msg := request.value.msg.(stamp := stamp)));
        history := history.(stampedAt := View().Current());
      }
    }

    method HandleResponse(r: Response)
      modifies this
      ensures View() == StoreResponse(old(View()), r)
    {
      if response.Some? {
        var prev := response.value;
        if r.seqId == prev.msg.seqId {
          if r.source.number != prev.msg.source.number && (lastInvalid + 1 == r.seqId || dupCounter == 0) {
            dupCounter := dupCounter + 1;
            history := history.(dups := history.dups + [Duplicate(prev.msg.seqId, prev.at, View().Current())]);
            if dupCounter == DUPLICATE_RESP_THRESH {
              halted := true;
              history := history.(misbehaved := history.misbehaved + 1);
            }
          } else {
            dupCounter := 0;
            history := history.(dups := []);
          }
          lastInvalid := r.seqId;
        } else {
          dupCounter := 0;
          history := history.(dups := []);
        }
      }
      response := Some(Logged(r, View().Current()));
    }

    method HandleFollowUp(f: Logged<FollowUp>) returns (deferred: bool)
      modifies this
      ensures (View(), deferred) == ProcessFollowUp(old(View()), f)
    {
      if request.None? || response.None? {
        response := None;
        return false;
      }
      var q, r := request.value, response.value;
      if q.msg.seqId != f.msg.seqId || r.msg.seqId != f.msg.seqId ||
         r.msg.requesting.number != f.msg.requesting.number || f.msg.source != r.msg.source {
        response := None;
        return false;
      }
      if q.msg.stamp.nanoseconds == INVALID_NS {
        response := None;
        return false;
      }
      if Pending(q.msg.stamp) {
        followUp := Some(f);
        return true;
      }
      if q.msg.stamp.version != r.msg.rx.version {
        response := None;
        return false;
      }
      MeasureLink(q, r, f);
      response := None;
      deferred := false;
    }

    /** setLinkDelay and setPeerRateOffset, from the four timestamps. */
    method UpdateLink(x: Exchange) returns (link: int64)
      modifies this
      ensures link == Measured(x, old(rate))
      ensures View() == old(View()).(rate := NextRate(old(rate), baseline, old(delay), x, link), delay := link)
    {
      link := Measured(x, rate);
      rate := NextRate(rate, baseline, delay, x, link);
      delay := link;
    }

    method MeasureLink(q: Logged<Request>, r: Logged<Response>, f: Logged<FollowUp>)
      modifies this
      ensures View().(response := None) == Accept(old(View()), q, r, f)
    {
      var used := rate;
      pdelayCount := pdelayCount + 1;
      var link := UpdateLink(ExchangeOf(q.msg, r.msg, f.msg));
      history := history.(accepted := history.accepted + [Measurement(q, history.stampedAt, r, f, used, link)]);
      if !cfg.automotive {
        asCapable := Within(link, cfg.threshold);
      }
      baseline := Some((q.msg.stamp, r.msg.receipt));
    }

    method HandleDeferred()
      modifies this
      ensures View() == ProcessDeferred(old(View()))
    {
      if followUp.None? {
        aborted := true;
        return;
      }
      var f := followUp.value;
      followUp := None;
      var deferred := HandleFollowUp(f);
    }

    method HandleOther(e: Event)
      requires e.ResponseTimeout? || e.MisbehavingTimeout? || e.LinkUp? || e.LinkDown? || e.Fault? || e.PhaseStep?
      modifies this
      ensures View() == Handle(old(View()), e)
    {
      match e {
        case ResponseTimeout =>
          LoseCapable();
          pdelayCount := 0;
        case MisbehavingTimeout => halted := false;
        case LinkUp =>
          halted := false;
          if cfg.automotive {
            asCapable := true;
            pdelayCount := 0;
          }
        case LinkDown =>
          halted := true;
          LoseCapable();
        case Fault => LoseCapable();
        case PhaseStep => baseline := None;
      }
    }

    method LoseCapable()
      modifies this
      ensures View() == LoseCapability(old(View()))
    {
      if !cfg.automotive {
        asCapable := false;
        baseline := None;
      }
    }
  }

  // ---- capability, delay and ratio ------------------------------------------------

  predicate RatioGood(rate: real) { LOWER_RATIO < rate < UPPER_RATIO }

  /** asCapable is earned by the current link delay, except in the automotive
      profile, where it is never lost; and the ratio stays plausible, so that it is
      always applied and never zero. */
  predicate LinkGood(p: Port) {
    && RatioGood(p.rate) && Applied(p.rate) == p.rate && p.rate > 0.0
    && (if p.cfg.automotive then p.asCapable else p.asCapable ==> Within(p.delay, p.cfg.threshold))
  }

  lemma NextRateGood(rate: real, baseline: Option<(Timestamp, Timestamp)>, delay: int64, x: Exchange, link: int64)
    requires RatioGood(rate)
    ensures RatioGood(NextRate(rate, baseline, delay, x, link))
  {
  }

  lemma FollowUpLinkGood(p: Port, f: Logged<FollowUp>)
    requires LinkGood(p)
    ensures LinkGood(ProcessFollowUp(p, f).0) && ProcessFollowUp(p, f).0.cfg == p.cfg
  {
    if p.request.Some? && p.response.Some? {
      var x := ExchangeOf(p.request.value.msg, p.response.value.msg, f.msg);
      NextRateGood(p.rate, p.baseline, p.delay, x, Measured(x, p.rate));
    }
  }

  /** A response changes only its slot and the duplicate bookkeeping. */
  lemma ResponseFrame(p: Port, r: Response)
    ensures var c := CheckDuplicate(p, r);
            c == p.(dupCounter := c.dupCounter, lastInvalid := c.lastInvalid, halted := c.halted,
                    history := p.history.(dups := c.history.dups, misbehaved := c.history.misbehaved))
  {
  }

  lemma StepLinkGood(p: Port, e: Event)
    requires LinkGood(p)
    ensures LinkGood(Step(p, e)) && Step(p, e).cfg == p.cfg
  {
    var t := Tick(p);
    if !p.aborted {
      match e {
        case RxResponse(r) => ResponseFrame(t, r);
        case RxFollowUp(f) => FollowUpLinkGood(t, Logged(f, t.Current()));
        case Deferred => if p.followUp.Some? { FollowUpLinkGood(t.(followUp := None), p.followUp.value); }
        case _ =>
      }
    }
  }

  /** In every reachable state of a port, over every run. */
  lemma {:induction false} RunLinkGood(cfg: Config, es: seq<Event>)
    ensures LinkGood(After(cfg, es)) && After(cfg, es).cfg == cfg && 0.99975 < After(cfg, es).rate < 1.00025
    decreases |es|
  {
    if es == [] {
    } else {
      RunLinkGood(cfg, es[..|es| - 1]);
      StepLinkGood(After(cfg, es[..|es| - 1]), es[|es| - 1]);
    }
  }

  // ---- where measurements come from -------------------------------------------------

  /** Requests sent so far. */
  function Requests(es: seq<Event>): nat {
    if es == [] then 0 else Requests(es[..|es| - 1]) + if es[|es| - 1].Interval? then 1 else 0
  }

  /** The n-th event was the sending of this request, numbered by the requests before it. */
  ghost predicate SentAt(es: seq<Event>, q: Logged<Request>) {
    q.at < |es| && es[q.at].Interval? && q.msg.seqId == Requests(es[..q.at]) % TWO_16
  }

  ghost predicate StampedAt(es: seq<Event>, q: Logged<Request>, i: nat) {
    q.at < i < |es| && es[i] == TxDone(q.msg.stamp)
  }

  ghost predicate ReceivedAt(es: seq<Event>, r: Logged<Response>) { r.at < |es| && es[r.at] == RxResponse(r.msg) }

  ghost predicate FollowedAt(es: seq<Event>, f: Logged<FollowUp>) { f.at < |es| && es[f.at] == RxFollowUp(f.msg) }

  /** A measurement made of one request that was sent and stamped, one response and
      one follow-up that were received, all with the request's sequence id, for one
      requesting port number and from one source port; stamped validly, in the
      response's timestamp version; and computed from those four timestamps. */
  ghost predicate Genuine(es: seq<Event>, m: Measurement) {
    var q, r, f := m.request.msg, m.response.msg, m.followUp.msg;
    && SentAt(es, m.request) && StampedAt(es, m.request, m.stampedAt)
    && ReceivedAt(es, m.response) && FollowedAt(es, m.followUp)
    && q.seqId == r.seqId == f.seqId
    && r.requesting.number == f.requesting.number && r.source == f.source
    && q.stamp.nanoseconds !in {0xC000_0000, 0xC000_0001} && q.stamp.version == r.rx.version
    && RatioGood(m.rate) && m.delay == Measured(ExchangeOf(q, r, f), m.rate)
  }

  /** No response and no follow-up is used twice; responses are used in order of arrival. */
  ghost predicate UsedOnce(ms: seq<Measurement>) {
    forall i, j :: 0 <= i < j < |ms| ==>
      ms[i].response.at < ms[j].response.at && ms[i].followUp.at != ms[j].followUp.at
  }

  ghost predicate Traced(p: Port, es: seq<Event>) {
    && p.history.now == |es| && (p.aborted || p.nextSeq == Requests(es) % TWO_16)
    && (p.request.Some? ==>
          && SentAt(es, p.request.value)
          && (Pending(p.request.value.msg.stamp) || StampedAt(es, p.request.value, p.history.stampedAt)))
    && (p.response.Some? ==> ReceivedAt(es, p.response.value))
    && (p.followUp.Some? ==> FollowedAt(es, p.followUp.value))
    && UsedOnce(p.history.accepted)
    && (forall m :: m in p.history.accepted ==>
          && Genuine(es, m)
          && (p.response.Some? ==> m.response.at < p.response.value.at)
          && (p.followUp.Some? ==> m.followUp.at != p.followUp.value.at))
  }

  lemma GenuineLater(es: seq<Event>, e: Event, m: Measurement)
    requires Genuine(es, m)
    ensures Genuine(es + [e], m)
  {
    assert (es + [e])[..m.request.at] == es[..m.request.at];
  }

  lemma RequestsLater(es: seq<Event>, e: Event)
    ensures Requests(es + [e]) == Requests(es) + if e.Interval? then 1 else 0
  {
    assert (es + [e])[..|es|] == es;
  }

  /** What a port knows is not changed by time passing. */
  lemma TickTraced(p: Port, es: seq<Event>, e: Event)
    requires Traced(p, es)
    ensures Traced(Tick(p).(nextSeq := Requests(es + [e]) % TWO_16), es + [e])
  {
    var es' := es + [e];
    if p.request.Some? {
      assert es'[..p.request.value.at] == es[..p.request.value.at];
    }
    forall m | m in p.history.accepted
      ensures Genuine(es', m)
    {
      GenuineLater(es, e, m);
    }
  }

  lemma AcceptTraced(p: Port, es: seq<Event>, f: Logged<FollowUp>)
    requires Traced(p, es) && RatioGood(p.rate) && FollowedAt(es, f)
    requires forall m :: m in p.history.accepted ==> m.followUp.at != f.at
    requires p.followUp.Some? ==> p.followUp.value.at != f.at
    requires p.request.Some? && p.response.Some?
    requires var q, r := p.request.value.msg, p.response.value.msg;
             && Matches(q, r, f.msg) && q.stamp.nanoseconds !in {0xC000_0000, 0xC000_0001}
             && q.stamp.version == r.rx.version
    ensures Traced(Accept(p, p.request.value, p.response.value, f), es)
  {
    var q, r := p.request.value, p.response.value;
    var p' := Accept(p, q, r, f);
    var m := Measurement(q, p.history.stampedAt, r, f, p.rate, Measured(ExchangeOf(q.msg, r.msg, f.msg), p.rate));
    assert Genuine(es, m);
    assert p'.history.accepted == p.history.accepted + [m];
  }

  /** Processing a follow-up that was received, at whatever later time. */
  lemma FollowUpTraced(p: Port, es: seq<Event>, f: Logged<FollowUp>)
    requires Traced(p, es) && RatioGood(p.rate) && FollowedAt(es, f)
    requires forall m :: m in p.history.accepted ==> m.followUp.at != f.at
    requires p.followUp.Some? ==> p.followUp.value.at != f.at
    ensures Traced(ProcessFollowUp(p, f).0, es)
  {
    if p.request.Some? && p.response.Some? {
      var q, r := p.request.value.msg, p.response.value.msg;
      if Matches(q, r, f.msg) && q.stamp.nanoseconds !in {0xC000_0000, 0xC000_0001} && q.stamp.version == r.rx.version {
        AcceptTraced(p, es, f);
      }
    }
  }

  lemma SendTraced(p: Port, es: seq<Event>)
    requires Traced(p, es) && !p.aborted
    ensures Traced(Step(p, Interval), es + [Interval])
  {
    TickTraced(p, es, Interval);
    RequestsLater(es, Interval);
    assert (es + [Interval])[..|es|] == es;
    assert (Requests(es) % TWO_16 + 1) % TWO_16 == (Requests(es) + 1) % TWO_16;
  }

  /** The part of the state that traces look at. */
  ghost predicate SameTrace(p: Port, p': Port) {
    && p'.request == p.request && p'.response == p.response && p'.followUp == p.followUp && p'.nextSeq == p.nextSeq
    && p'.aborted == p.aborted && p'.history.now == p.history.now
    && p'.history.stampedAt == p.history.stampedAt && p'.history.accepted == p.history.accepted
  }

  lemma OthersKeepTrace(p: Port, e: Event)
    requires e.ResponseTimeout? || e.MisbehavingTimeout? || e.LinkUp? || e.LinkDown? || e.Fault? || e.PhaseStep?
    ensures SameTrace(p, Handle(p, e))
  {
  }

  lemma StampTraced(t: Port, es: seq<Event>, stamp: Timestamp)
    requires Traced(t, es) && es != [] && es[|es| - 1] == TxDone(stamp)
    requires t.request.Some? ==> t.request.value.at < |es| - 1
    ensures Traced(StampRequest(t, stamp), es)
  {
  }

  lemma ResponseTraced(t: Port, es: seq<Event>, r: Response)
    requires Traced(t, es) && es != [] && es[|es| - 1] == RxResponse(r)
    requires forall m :: m in t.history.accepted ==> m.response.at < |es| - 1
    ensures Traced(StoreResponse(t, r), es)
  {
    ResponseFrame(t, r);
  }

  lemma SameTraced(t: Port, t': Port, es: seq<Event>)
    requires Traced(t, es) && SameTrace(t, t')
    ensures Traced(t', es)
  {
  }

  lemma DeferredTraced(t: Port, es: seq<Event>)
    requires Traced(t, es) && RatioGood(t.rate)
    ensures Traced(ProcessDeferred(t), es)
  {
    if t.followUp.Some? {
      FollowUpTraced(t.(followUp := None), es, t.followUp.value);
    }
  }

  lemma HandleTraced(t: Port, es: seq<Event>, e: Event)
    requires Traced(t, es) && RatioGood(t.rate) && !e.Interval? && es != [] && es[|es| - 1] == e
    requires e.TxDone? && t.request.Some? ==> t.request.value.at < |es| - 1
    requires e.RxFollowUp? ==> t.followUp.Some? ==> t.followUp.value.at < |es| - 1
    requires forall m :: m in t.history.accepted ==> m.followUp.at < |es| - 1 && m.response.at < |es| - 1
    ensures Traced(Handle(t, e), es)
  {
    match e {
      case TxDone(stamp) => StampTraced(t, es, stamp);
      case RxResponse(r) => ResponseTraced(t, es, r);
      case RxFollowUp(f) => FollowUpTraced(t, es, Logged(f, |es| - 1));
      case Deferred => DeferredTraced(t, es);
      case Interval =>
      case _ =>
        OthersKeepTrace(t, e);
        SameTraced(t, Handle(t, e), es);
    }
  }

  lemma StepTraced(p: Port, es: seq<Event>, e: Event)
    requires Traced(p, es) && RatioGood(p.rate)
    ensures Traced(Step(p, e), es + [e])
  {
    TickTraced(p, es, e);
    RequestsLater(es, e);
    if e.Interval? && !p.aborted {
      SendTraced(p, es);
    } else {
      assert Traced(Tick(p), es + [e]);
      if !p.aborted {
        HandleTraced(Tick(p), es + [e], e);
      }
    }
  }

  /** Over every run, every accepted delay measurement is genuine, and no response
      or follow-up is used for two of them. */
  lemma {:induction false} RunTraced(cfg: Config, es: seq<Event>)
    ensures Traced(After(cfg, es), es)
    ensures UsedOnce(After(cfg, es).history.accepted)
    ensures forall m :: m in After(cfg, es).history.accepted ==> Genuine(es, m)
    decreases |es|
  {
    if es == [] {
    } else {
      var before, e := es[..|es| - 1], es[|es| - 1];
      RunTraced(cfg, before);
      RunLinkGood(cfg, before);
      StepTraced(After(cfg, before), before, e);
      assert before + [e] == es;
    }
  }

  /** Hence its error over a symmetric path: the ratio it was made with is the one
      that counts. */
  lemma AcceptedDelayIsAccurate(
    cfg: Config, es: seq<Event>, m: Measurement, d: real, offset: real, rho: real, e: real)
    requires m in After(cfg, es).history.accepted && rho > 0.0
    requires var x := ExchangeOf(m.request.msg, m.response.msg, m.followUp.msg);
             Symmetric(x, d, offset, rho, e) && Sane(x, m.rate)
    ensures var x := ExchangeOf(m.request.msg, m.response.msg, m.followUp.msg);
            Abs(m.delay as real - d) <= Times(Abs(m.rate - rho), x.Turn() as real) / 2.0 + Times(rho, e) + 1.0
  {
    RunTraced(cfg, es);
    GenuineIsAccurate(es, m, d, offset, rho, e);
  }

  lemma GenuineIsAccurate(es: seq<Event>, m: Measurement, d: real, offset: real, rho: real, e: real)
    requires Genuine(es, m) && rho > 0.0
    requires var x := ExchangeOf(m.request.msg, m.response.msg, m.followUp.msg);
             Symmetric(x, d, offset, rho, e) && Sane(x, m.rate)
    ensures var x := ExchangeOf(m.request.msg, m.response.msg, m.followUp.msg);
            Abs(m.delay as real - d) <= Times(Abs(m.rate - rho), x.Turn() as real) / 2.0 + Times(rho, e) + 1.0
  {
    assert Applied(m.rate) == m.rate;
    ErrorBound(ExchangeOf(m.request.msg, m.response.msg, m.followUp.msg), m.rate, d, offset, rho, e);
  }

  // ---- misbehaving peers -------------------------------------------------------------

  /** Two responses with this sequence id and different source port numbers were received. */
  ghost predicate DuplicateAt(es: seq<Event>, d: Duplicate) {
    && d.first < d.second < |es| && es[d.first].RxResponse? && es[d.second].RxResponse?
    && es[d.first].r.seqId == es[d.second].r.seqId == d.id
    && es[d.first].r.source.number != es[d.second].r.source.number
  }

  /** The counter is the number of duplicates counted since its last reset; their
      ids are consecutive and end at the last invalid id. */
  ghost predicate DuplicatesGood(p: Port, es: seq<Event>) {
    var dups := p.history.dups;
    && p.dupCounter == |dups|
    && (forall i :: 0 <= i < |dups| ==> DuplicateAt(es, dups[i]) && dups[i].id == p.lastInvalid - (|dups| - 1 - i))
  }

  /** The part of the state that only a response can change. */
  ghost predicate SameDuplicates(p: Port, p': Port) {
    && p'.dupCounter == p.dupCounter && p'.lastInvalid == p.lastInvalid
    && p'.history.dups == p.history.dups && p'.history.misbehaved == p.history.misbehaved
  }

  lemma OthersKeepDuplicates(p: Port, e: Event)
    requires !e.RxResponse? || p.aborted
    ensures SameDuplicates(p, Step(p, e))
  {
  }

  lemma DuplicatesLater(p: Port, es: seq<Event>, e: Event)
    requires DuplicatesGood(p, es)
    ensures DuplicatesGood(p, es + [e])
  {
    forall i | 0 <= i < |p.history.dups|
      ensures DuplicateAt(es + [e], p.history.dups[i])
    {
      assert DuplicateAt(es, p.history.dups[i]);
    }
  }

  lemma StepDuplicatesGood(p: Port, es: seq<Event>, e: Event)
    requires Traced(p, es) && DuplicatesGood(p, es)
    ensures DuplicatesGood(Step(p, e), es + [e])
    ensures var p' := Step(p, e);
            p'.history.misbehaved == p.history.misbehaved +
              if |p'.history.dups| == DUPLICATE_RESP_THRESH && p'.history.dups != p.history.dups then 1 else 0
    ensures Step(p, e).history.misbehaved > p.history.misbehaved ==> Step(p, e).halted
  {
    DuplicatesLater(p, es, e);
    if !e.RxResponse? {
      OthersKeepDuplicates(p, e);
    } else if !p.aborted {
      var es' := es + [e];
      var c := CheckDuplicate(Tick(p), e.r);
      assert p.response.Some? ==> es'[p.response.value.at] == es[p.response.value.at];
      assert es'[|es|] == e;
      assert SameDuplicates(c, Step(p, e)) && Step(p, e).halted == c.halted;
    }
  }

  lemma {:induction false} RunDuplicatesGood(cfg: Config, es: seq<Event>)
    ensures DuplicatesGood(After(cfg, es), es)
    decreases |es|
  {
    if es == [] {
    } else {
      var before, e := es[..|es| - 1], es[|es| - 1];
      RunTraced(cfg, before);
      RunDuplicatesGood(cfg, before);
      StepDuplicatesGood(After(cfg, before), before, e);
      assert before + [e] == es;
    }
  }

  // ---- the same told by the events alone -------------------------------------------------

  /** The last request sent has no transmit timestamp yet. */
  function Awaiting(es: seq<Event>): bool {
    if es == [] then false
    else
      var front, e := es[..|es| - 1], es[|es| - 1];
      if e.Interval? then true else if e.TxDone? then Awaiting(front) && Pending(e.stamp) else Awaiting(front)
  }

  /** A follow-up that has to wait: it belongs to that request and to the held response. */
  predicate Waits(es: seq<Event>, r: Response, f: FollowUp) {
    && Requests(es) > 0 && Awaiting(es) && f.seqId == (Requests(es) - 1) % TWO_16
    && r.seqId == f.seqId && r.requesting.number == f.requesting.number && r.source == f.source
  }

  /** The response and the follow-up being held, and whether the process has aborted. */
  datatype Held = Held(resp: Option<Response>, fup: Option<FollowUp>, dead: bool)

  function Taken(es: seq<Event>, h: Held, f: FollowUp): Held {
    if h.resp.Some? && Waits(es, h.resp.value, f) then h.(fup := Some(f)) else h.(resp := None)
  }

  function Hold(es: seq<Event>): Held {
    if es == [] then Held(None, None, false)
    else
      var front, e := es[..|es| - 1], es[|es| - 1];
      var h := Hold(front);
      if h.dead then h
      else match e
        case RxResponse(r) => h.(resp := Some(r))
        case RxFollowUp(f) => Taken(front, h, f)
        case Deferred => if h.fup.None? then h.(dead := true) else Taken(front, h.(fup := None), h.fup.value)
        case _ => h
  }

  /** A response to what another port already answered: same id, other port number. */
  predicate Repeats(h: Held, r: Response) {
    h.resp.Some? && r.seqId == h.resp.value.seqId && r.source.number != h.resp.value.source.number
  }

  /** The latest repeated responses, by their places, as long as each id is one more
      than the one before; any other response to a held one ends the streak. */
  function Streak(es: seq<Event>): (s: seq<nat>)
    ensures forall i :: 0 <= i < |s| ==> s[i] < |es| && es[s[i]].RxResponse?
  {
    if es == [] then []
    else
      var front, e := es[..|es| - 1], es[|es| - 1];
      var s, h := Streak(front), Hold(front);
      if !e.RxResponse? || h.dead || h.resp.None? then s
      else if Repeats(h, e.r) && (s == [] || es[s[|s| - 1]].r.seqId + 1 == e.r.seqId) then s + [|front|]
      else []
  }

  /** What the events say about the port's slots. */
  ghost predicate Agrees(p: Port, es: seq<Event>) {
    && p.aborted == Hold(es).dead
    && (!p.aborted ==>
          && p.nextSeq == Requests(es) % TWO_16
          && (p.request.Some? <==> Requests(es) > 0)
          && (p.request.Some? ==>
                && p.request.value.msg.seqId == (Requests(es) - 1) % TWO_16
                && (Pending(p.request.value.msg.stamp) <==> Awaiting(es)))
          && (p.response.Some? <==> Hold(es).resp.Some?)
          && (p.response.Some? ==> p.response.value.msg == Hold(es).resp.value)
          && (p.followUp.Some? <==> Hold(es).fup.Some?)
          && (p.followUp.Some? ==> p.followUp.value.msg == Hold(es).fup.value))
  }

  lemma FollowUpAgrees(p: Port, es: seq<Event>, h: Held, f: Logged<FollowUp>)
    requires !p.aborted && (p.request.Some? <==> Requests(es) > 0)
    requires p.request.Some? ==>
               && p.request.value.msg.seqId == (Requests(es) - 1) % TWO_16
               && (Pending(p.request.value.msg.stamp) <==> Awaiting(es))
    requires (p.response.Some? <==> h.resp.Some?) && (p.response.Some? ==> p.response.value.msg == h.resp.value)
    ensures var p', h' := ProcessFollowUp(p, f).0, Taken(es, h, f.msg);
            && (p'.response.Some? <==> h'.resp.Some?) && (p'.response.Some? ==> p'.response.value.msg == h'.resp.value)
            && (p'.followUp == if h'.resp.Some? then Some(f) else p.followUp)
            && (h'.fup == if h'.resp.Some? then Some(f.msg) else h.fup)
            && p'.request == p.request && p'.nextSeq == p.nextSeq && p'.aborted == p.aborted
  {
  }

  /** The functions of the events, one event further. */
  lemma TellOne(es: seq<Event>, e: Event)
    ensures Requests(es + [e]) == Requests(es) + (if e.Interval? then 1 else 0)
    ensures Awaiting(es + [e]) == (e.Interval? || (Awaiting(es) && (e.TxDone? ==> Pending(e.stamp))))
    ensures !Hold(es).dead && e.RxResponse? ==> Hold(es + [e]) == Hold(es).(resp := Some(e.r))
    ensures !Hold(es).dead && e.RxFollowUp? ==> Hold(es + [e]) == Taken(es, Hold(es), e.f)
    ensures !Hold(es).dead && e.Deferred? ==>
              Hold(es + [e]) == if Hold(es).fup.None? then Hold(es).(dead := true)
                                else Taken(es, Hold(es).(fup := None), Hold(es).fup.value)
    ensures Hold(es).dead || !(e.RxResponse? || e.RxFollowUp? || e.Deferred?) ==> Hold(es + [e]) == Hold(es)
  {
    assert (es + [e])[..|es|] == es;
  }

  lemma NextId(n: nat)
    ensures (n % TWO_16 + 1) % TWO_16 == (n + 1) % TWO_16
  {
  }

  lemma SendAgrees(p: Port, es: seq<Event>)
    requires Agrees(p, es) && !p.aborted
    ensures Agrees(Step(p, Interval), es + [Interval])
  {
    TellOne(es, Interval);
    NextId(Requests(es));
  }

  lemma OthersAgree(p: Port, es: seq<Event>, e: Event)
    requires Agrees(p, es) && !p.aborted && !(e.RxResponse? || e.RxFollowUp? || e.Deferred? || e.Interval?)
    ensures Agrees(Step(p, e), es + [e])
  {
    TellOne(es, e);
    if !e.TxDone? {
      OthersKeepTrace(Tick(p), e);
    }
  }

  lemma StepAgrees(p: Port, es: seq<Event>, e: Event)
    requires Agrees(p, es)
    ensures Agrees(Step(p, e), es + [e])
  {
    TellOne(es, e);
    var t := Tick(p);
    if p.aborted {
    } else if e.RxResponse? {
      ResponseFrame(t, e.r);
    } else if e.RxFollowUp? {
      FollowUpAgrees(t, es, Hold(es), Logged(e.f, t.Current()));
    } else if e.Deferred? {
      if p.followUp.Some? {
        FollowUpAgrees(t.(followUp := None), es, Hold(es).(fup := None), p.followUp.value);
      }
    } else if e.Interval? {
      SendAgrees(p, es);
    } else {
      OthersAgree(p, es, e);
    }
  }

  lemma {:induction false} RunAgrees(cfg: Config, es: seq<Event>)
    ensures Agrees(After(cfg, es), es)
    decreases |es|
  {
    if es == [] {
    } else {
      var before, e := es[..|es| - 1], es[|es| - 1];
      RunAgrees(cfg, before);
      StepAgrees(After(cfg, before), before, e);
      assert before + [e] == es;
    }
  }

  /** The counter is the length of a streak, and the last invalid id is its last one. */
  ghost predicate CountsAs(p: Port, es: seq<Event>, s: seq<nat>) {
    && p.dupCounter == |s|
    && (s != [] ==>
          var last := s[|s| - 1];
          last < |es| && es[last].RxResponse? && p.lastInvalid == es[last].r.seqId)
  }

  ghost predicate Counts(p: Port, es: seq<Event>) { CountsAs(p, es, Streak(es)) }

  lemma StreakOne(es: seq<Event>, e: Event)
    ensures var s, h := Streak(es), Hold(es);
            Streak(es + [e])
            == if !e.RxResponse? || h.dead || h.resp.None? then s
               else if Repeats(h, e.r) && (s == [] || es[s[|s| - 1]].r.seqId + 1 == e.r.seqId) then s + [|es|]
               else []
  {
    assert (es + [e])[..|es|] == es;
  }

  /** The duplicate check in four numbers. */
  lemma CheckFacts(p: Port, r: Response)
    requires p.response.Some?
    ensures var c, prev := CheckDuplicate(p, r), p.response.value.msg;
            var counts := && r.seqId == prev.seqId && r.source.number != prev.source.number
                          && (p.lastInvalid + 1 == r.seqId || p.dupCounter == 0);
            && c.dupCounter == (if counts then p.dupCounter + 1 else 0)
            && c.lastInvalid == (if r.seqId == prev.seqId then r.seqId else p.lastInvalid)
            && c.history.misbehaved == p.history.misbehaved + if counts && p.dupCounter == 2 then 1 else 0
  {
  }

  /** A streak after a response, as StreakOne says. */
  predicate Grows(es: seq<Event>, h: Held, s: seq<nat>, r: Response)
    requires s != [] ==> s[|s| - 1] < |es| && es[s[|s| - 1]].RxResponse?
  {
    Repeats(h, r) && (s == [] || es[s[|s| - 1]].r.seqId + 1 == r.seqId)
  }

  lemma CheckCounts(p: Port, es: seq<Event>, r: Response, h: Held, s: seq<nat>)
    requires CountsAs(p, es, s)
    requires (p.response.Some? <==> h.resp.Some?) && (p.response.Some? ==> p.response.value.msg == h.resp.value)
    ensures var c := CheckDuplicate(p, r);
            var s' := if h.resp.None? then s else if Grows(es, h, s, r) then s + [|es|] else [];
            && CountsAs(c, es + [RxResponse(r)], s')
            && c.history.misbehaved == p.history.misbehaved + if |s'| == 3 && s' != s then 1 else 0
  {
    if p.response.Some? {
      CheckFacts(p, r);
    }
  }

  lemma StepCounts(p: Port, es: seq<Event>, e: Event)
    requires Agrees(p, es) && Counts(p, es)
    ensures Counts(Step(p, e), es + [e])
    ensures var p', s := Step(p, e), Streak(es + [e]);
            p'.history.misbehaved == p.history.misbehaved + if |s| == 3 && s != Streak(es) then 1 else 0
  {
    StreakOne(es, e);
    var s, s' := Streak(es), Streak(es + [e]);
    if e.RxResponse? && !p.aborted {
      ResponseCounts(p, es, e.r, Hold(es), s, s');
    } else {
      OthersKeepDuplicates(p, e);
      CountsKept(p, es, s, e, Step(p, e));
    }
  }

  lemma ResponseCounts(p: Port, es: seq<Event>, r: Response, h: Held, s: seq<nat>, s': seq<nat>)
    requires CountsAs(p, es, s) && !p.aborted
    requires (p.response.Some? <==> h.resp.Some?) && (p.response.Some? ==> p.response.value.msg == h.resp.value)
    requires s' == if h.resp.None? then s else if Grows(es, h, s, r) then s + [|es|] else []
    ensures CountsAs(Step(p, RxResponse(r)), es + [RxResponse(r)], s')
    ensures Step(p, RxResponse(r)).history.misbehaved
            == p.history.misbehaved + if |s'| == 3 && s' != s then 1 else 0
  {
    CheckCounts(Tick(p), es, r, h, s);
    assert SameDuplicates(CheckDuplicate(Tick(p), r), Step(p, RxResponse(r)));
  }

  lemma CountsKept(p: Port, es: seq<Event>, s: seq<nat>, e: Event, p': Port)
    requires CountsAs(p, es, s) && SameDuplicates(p, p')
    ensures CountsAs(p', es + [e], s)
  {
  }

  lemma {:induction false} RunStreak(cfg: Config, es: seq<Event>)
    ensures Counts(After(cfg, es), es)
    decreases |es|
  {
    if es == [] {
    } else {
      var before, e := es[..|es| - 1], es[|es| - 1];
      RunStreak(cfg, before);
      RunAgrees(cfg, before);
      StepCounts(After(cfg, before), before, e);
      assert before + [e] == es;
    }
  }

  /** On every run an event halts the requests for misbehaviour exactly when the
      events so far end in a streak of three that it completes. */
  lemma HaltsOnThirdDuplicate(cfg: Config, es: seq<Event>, e: Event)
    ensures var p, p' := After(cfg, es), After(cfg, es + [e]);
            && p'.history.misbehaved == p.history.misbehaved
                 + (if |Streak(es + [e])| == 3 && Streak(es + [e]) != Streak(es) then 1 else 0)
            && (p'.history.misbehaved > p.history.misbehaved ==> p'.halted)
  {
    assert (es + [e])[..|es|] == es;
    RunStreak(cfg, es);
    RunAgrees(cfg, es);
    StepCounts(After(cfg, es), es, e);
    RunTraced(cfg, es);
    RunDuplicatesGood(cfg, es);
    StepDuplicatesGood(After(cfg, es), es, e);
  }

  ghost predicate RepeatAt(es: seq<Event>, i: nat)
    requires i < |es|
  {
    es[i].RxResponse? && Repeats(Hold(es[..i]), es[i].r)
  }

  ghost predicate Consecutive(es: seq<Event>, i: nat, j: nat) {
    i < j < |es| && es[i].RxResponse? && es[j].RxResponse? && es[j].r.seqId == es[i].r.seqId + 1
  }

  ghost predicate GoodStreak(es: seq<Event>, s: seq<nat>) {
    && (forall i :: 0 <= i < |s| ==> s[i] < |es| && RepeatAt(es, s[i]))
    && (forall i :: 0 < i < |s| ==> Consecutive(es, s[i - 1], s[i]))
  }

  lemma RepeatLater(es: seq<Event>, e: Event, i: nat)
    requires i < |es| && RepeatAt(es, i)
    ensures RepeatAt(es + [e], i)
  {
    assert (es + [e])[..i] == es[..i];
  }

  lemma GoodLater(es: seq<Event>, e: Event, s: seq<nat>)
    requires GoodStreak(es, s)
    ensures GoodStreak(es + [e], s)
  {
    forall i | 0 <= i < |s|
      ensures RepeatAt(es + [e], s[i])
    {
      RepeatLater(es, e, s[i]);
    }
    assert forall i :: 0 < i < |s| ==> Consecutive(es, s[i - 1], s[i]);
  }

  lemma RepeatNow(es: seq<Event>, e: Event)
    requires e.RxResponse? && Repeats(Hold(es), e.r)
    ensures RepeatAt(es + [e], |es|)
  {
    assert (es + [e])[..|es|] == es;
  }

  /** A streak grows by an event that satisfies its conditions. */
  lemma GoodSnoc(es: seq<Event>, s: seq<nat>, n: nat)
    requires GoodStreak(es, s) && n < |es| && RepeatAt(es, n) && (s != [] ==> Consecutive(es, s[|s| - 1], n))
    ensures GoodStreak(es, s + [n])
  {
    var s' := s + [n];
    forall i | 0 <= i < |s'|
      ensures s'[i] < |es| && RepeatAt(es, s'[i])
    {
      assert s'[i] == if i < |s| then s[i] else n;
    }
    forall i | 0 < i < |s'|
      ensures Consecutive(es, s'[i - 1], s'[i])
    {
      assert s'[i - 1] == s[i - 1] && s'[i] == if i < |s| then s[i] else n;
    }
  }

  lemma GoodMore(es: seq<Event>, e: Event, s: seq<nat>)
    requires GoodStreak(es, s) && e.RxResponse? && Repeats(Hold(es), e.r)
    requires s != [] ==> es[s[|s| - 1]].RxResponse? && es[s[|s| - 1]].r.seqId + 1 == e.r.seqId
    ensures GoodStreak(es + [e], s + [|es|])
  {
    GoodLater(es, e, s);
    RepeatNow(es, e);
    GoodSnoc(es + [e], s, |es|);
  }

  /** A streak is made of repeated responses with consecutive ids, so it cannot go on
      past id 65535. */
  lemma {:induction false} StreakIds(es: seq<Event>)
    ensures GoodStreak(es, Streak(es))
    decreases |es|
  {
    if es == [] {
    } else {
      var front, e := es[..|es| - 1], es[|es| - 1];
      StreakIds(front);
      StreakOne(front, e);
      GoodLater(front, e, Streak(front));
      if Streak(es) == Streak(front) + [|front|] {
        GoodMore(front, e, Streak(front));
      }
      assert front + [e] == es;
    }
  }

  // ---- when consecutive duplicates do and do not halt -----------------------------------

  /** Events that bring no message of the exchange: requests, transmit timestamps,
      timeouts and link changes. */
  predicate Aside(e: Event) { !e.RxResponse? && !e.RxFollowUp? && !e.Deferred? }

  predicate AllAside(es: seq<Event>) { forall i :: 0 <= i < |es| ==> Aside(es[i]) }

  /** Two ports answer one request and a follow-up ends the exchange, with anything
      else going on before and in between. */
  datatype Doubled = Doubled(
    first: Response, second: Response, end: FollowUp,
    before: seq<Event>, between: seq<Event>, after: seq<Event>)

  /** An exchange up to its follow-up, and all of it. */
  function Answers(x: Doubled): seq<Event> {
    x.before + [RxResponse(x.first)] + x.between + [RxResponse(x.second)] + x.after
  }

  function Events(x: Doubled): seq<Event> { Answers(x) + [RxFollowUp(x.end)] }

  /** Both answers carry the id, and only exchange messages are left out in between. */
  predicate Proper(x: Doubled, id: uint16) {
    x.first.seqId == x.second.seqId == id && AllAside(x.before) && AllAside(x.between) && AllAside(x.after)
  }

  predicate Duplicates(x: Doubled) { x.first.source.number != x.second.source.number }

  /** The follow-up ends the exchange: it does not have to wait for a transmit timestamp.
      That of the first answer never does. */
  predicate Closes(es: seq<Event>, x: Doubled) { !Waits(es + Answers(x), x.second, x.end) }

  lemma FirstCloses(es: seq<Event>, x: Doubled)
    requires x.end.source == x.first.source && Duplicates(x)
    ensures Closes(es, x)
  {
  }

  predicate Rested(p: Port) { !p.aborted && p.response.None? }

  // Runs by their states, so that a proof about a run need not unfold its handlers.

  ghost predicate Moves(ps: seq<Port>, es: seq<Event>, i: nat)
    requires |ps| == |es| + 1 && i < |es|
  {
    ps[i + 1] == Step(ps[i], es[i])
  }

  ghost predicate States(cfg: Config, ps: seq<Port>, es: seq<Event>) {
    && |ps| == |es| + 1 && ps[0] == Start(cfg)
    && forall i {:trigger Moves(ps, es, i)} :: 0 <= i < |es| ==> Moves(ps, es, i)
  }

  /** The events lead to the state. */
  ghost predicate Ran(cfg: Config, es: seq<Event>, p: Port) {
    exists ps :: States(cfg, ps, es) && ps[|es|] == p
  }

  lemma {:induction false} StatesAfter(cfg: Config, ps: seq<Port>, es: seq<Event>)
    requires States(cfg, ps, es)
    ensures ps[|es|] == After(cfg, es)
    decreases |es|
  {
    if es == [] {
    } else {
      var ps', es' := ps[..|es|], es[..|es| - 1];
      forall i | 0 <= i < |es'|
        ensures Moves(ps', es', i)
      {
        assert Moves(ps, es, i);
      }
      StatesAfter(cfg, ps', es');
      assert Moves(ps, es, |es| - 1);
    }
  }

  lemma RanIsAfter(cfg: Config, es: seq<Event>, p: Port)
    requires Ran(cfg, es, p)
    ensures p == After(cfg, es)
  {
    var ps :| States(cfg, ps, es) && ps[|es|] == p;
    StatesAfter(cfg, ps, es);
  }

  lemma RanOne(cfg: Config, es: seq<Event>, p: Port, e: Event)
    requires Ran(cfg, es, p)
    ensures Ran(cfg, es + [e], Step(p, e))
  {
    var ps :| States(cfg, ps, es) && ps[|es|] == p;
    var ps', es' := ps + [Step(p, e)], es + [e];
    forall i | 0 <= i < |es'|
      ensures Moves(ps', es', i)
    {
      assert i < |es| ==> Moves(ps, es, i);
    }
    assert States(cfg, ps', es');
  }

  lemma {:induction false} AfterIsRan(cfg: Config, es: seq<Event>)
    ensures Ran(cfg, es, After(cfg, es))
    decreases |es|
  {
    if es == [] {
      assert States(cfg, [Start(cfg)], []);
    } else {
      var front, e := es[..|es| - 1], es[|es| - 1];
      AfterIsRan(cfg, front);
      RanOne(cfg, front, After(cfg, front), e);
      assert front + [e] == es;
    }
  }

  /** What events aside keep. */
  ghost predicate Untouched(p: Port, p': Port) {
    p'.aborted == p.aborted && p'.response == p.response && SameDuplicates(p, p')
  }

  lemma AsideStep(p: Port, e: Event)
    requires Aside(e)
    ensures Untouched(p, Step(p, e))
  {
    OthersKeepDuplicates(p, e);
  }

  lemma {:induction false} AsideKeeps(cfg: Config, es: seq<Event>, p: Port, more: seq<Event>) returns (p': Port)
    requires Ran(cfg, es, p) && AllAside(more)
    ensures Ran(cfg, es + more, p') && Untouched(p, p')
    decreases |more|
  {
    if more == [] {
      assert es + more == es;
      p' := p;
    } else {
      var front, e := more[..|more| - 1], more[|more| - 1];
      var q := AsideKeeps(cfg, es, p, front);
      RanOne(cfg, es + front, q, e);
      AsideStep(q, e);
      assert es + more == es + front + [e];
      p' := Step(q, e);
    }
  }

  /** A response that meets an empty slot changes nothing but the slot. */
  lemma FirstReply(p: Port, r: Response)
    requires Rested(p)
    ensures var p' := Step(p, RxResponse(r));
            !p'.aborted && SameDuplicates(p, p') && p'.response.Some? && p'.response.value.msg == r
  {
  }

  /** Whether a second answer counts as a duplicate. */
  predicate CountsNow(p: Port, id: uint16, other: bool) {
    other && (p.lastInvalid + 1 == id || p.dupCounter == 0)
  }

  /** The bookkeeping after an exchange. */
  ghost predicate Booked(p: Port, p': Port, id: uint16, other: bool) {
    && p'.lastInvalid == id && p'.dupCounter == (if CountsNow(p, id, other) then p.dupCounter + 1 else 0)
    && p'.history.misbehaved == p.history.misbehaved + if CountsNow(p, id, other) && p.dupCounter == 2 then 1 else 0
  }

  lemma SecondReply(p: Port, r: Response)
    requires !p.aborted && p.response.Some? && p.response.value.msg.seqId == r.seqId
    ensures var p', prev := Step(p, RxResponse(r)), p.response.value.msg;
            && !p'.aborted && p'.response.Some? && p'.response.value.msg == r
            && Booked(p, p', r.seqId, prev.source.number != r.source.number)
  {
    CheckFacts(Tick(p), r);
    ResponseFrame(Tick(p), r);
  }

  /** The slot holds a response. */
  predicate Holding(p: Port, r: Response) { !p.aborted && p.response.Some? && p.response.value.msg == r }

  lemma FirstAnswer(cfg: Config, es: seq<Event>, p: Port, before: seq<Event>, r: Response) returns (p': Port)
    requires Ran(cfg, es, p) && Rested(p) && AllAside(before)
    ensures Ran(cfg, es + before + [RxResponse(r)], p') && Holding(p', r) && SameDuplicates(p, p')
  {
    var q := AsideKeeps(cfg, es, p, before);
    RanOne(cfg, es + before, q, RxResponse(r));
    FirstReply(q, r);
    p' := Step(q, RxResponse(r));
  }

  lemma SecondAnswer(cfg: Config, es: seq<Event>, p: Port, prev: Response, between: seq<Event>, r: Response)
    returns (p': Port)
    requires Ran(cfg, es, p) && Holding(p, prev) && prev.seqId == r.seqId && AllAside(between)
    ensures Ran(cfg, es + between + [RxResponse(r)], p') && Holding(p', r)
    ensures Booked(p, p', r.seqId, prev.source.number != r.source.number)
  {
    var q := AsideKeeps(cfg, es, p, between);
    RanOne(cfg, es + between, q, RxResponse(r));
    SecondReply(q, r);
    p' := Step(q, RxResponse(r));
  }

  /** The two answers of an exchange that begins with an empty slot. */
  lemma AnswersEffect(cfg: Config, es: seq<Event>, p: Port, x: Doubled, id: uint16) returns (p': Port)
    requires Ran(cfg, es, p) && Rested(p) && Proper(x, id)
    ensures Ran(cfg, es + Answers(x), p') && Holding(p', x.second) && Booked(p, p', id, Duplicates(x))
  {
    var es1 := es + x.before + [RxResponse(x.first)];
    var p1 := FirstAnswer(cfg, es, p, x.before, x.first);
    var es2 := es1 + x.between + [RxResponse(x.second)];
    var p2 := SecondAnswer(cfg, es1, p1, x.first, x.between, x.second);
    p' := AsideKeeps(cfg, es2, p2, x.after);
    assert es + Answers(x) == es2 + x.after;
  }

  /** A follow-up that does not wait empties the slot. */
  lemma ClosesSlot(cfg: Config, es: seq<Event>, p: Port, r: Response, f: FollowUp)
    requires Ran(cfg, es, p) && Holding(p, r) && !Waits(es, r, f)
    ensures Rested(Step(p, RxFollowUp(f))) && SameDuplicates(p, Step(p, RxFollowUp(f)))
  {
    RanIsAfter(cfg, es, p);
    RunAgrees(cfg, es);
    StepAgrees(p, es, RxFollowUp(f));
    TellOne(es, RxFollowUp(f));
    OthersKeepDuplicates(p, RxFollowUp(f));
  }

  /** One exchange: its end, the counter, the last id and the halts. */
  lemma ExchangeEffect(cfg: Config, es: seq<Event>, p: Port, x: Doubled, id: uint16) returns (p': Port)
    requires Ran(cfg, es, p) && Rested(p) && Proper(x, id) && Closes(es, x)
    ensures Ran(cfg, es + Events(x), p') && Rested(p') && Booked(p, p', id, Duplicates(x))
  {
    var es1, e := es + Answers(x), RxFollowUp(x.end);
    var q := AnswersEffect(cfg, es, p, x, id);
    RanOne(cfg, es1, q, e);
    ClosesSlot(cfg, es1, q, x.second, x.end);
    p' := Step(q, e);
    assert es + Events(x) == es1 + [e];
  }

  /** Three exchanges with duplicates and consecutive sequence ids, from x on. */
  predicate Consecutives(es: seq<Event>, x: Doubled, y: Doubled, z: Doubled, id: uint16) {
    && Proper(x, id) && Proper(y, (id + 1) % TWO_16) && Proper(z, (id + 2) % TWO_16)
    && Duplicates(x) && Duplicates(y) && Duplicates(z)
    && Closes(es, x) && Closes(es + Events(x), y) && Closes(es + Events(x) + Events(y), z)
  }

  lemma ThreeBooked(p: Port, p1: Port, p2: Port, p3: Port, id: uint16)
    requires p.dupCounter == 0 && Booked(p, p1, id, true)
    requires Booked(p1, p2, (id + 1) % TWO_16, true) && Booked(p2, p3, (id + 2) % TWO_16, true)
    ensures p3.history.misbehaved == p.history.misbehaved + if id <= 65533 then 1 else 0
  {
  }

  lemma ThreeEffect(cfg: Config, es: seq<Event>, p: Port, x: Doubled, y: Doubled, z: Doubled, id: uint16)
    returns (p': Port)
    requires Ran(cfg, es, p) && Rested(p) && p.dupCounter == 0 && Consecutives(es, x, y, z, id)
    ensures Ran(cfg, es + Events(x) + Events(y) + Events(z), p') && Rested(p')
    ensures p'.history.misbehaved == p.history.misbehaved + if id <= 65533 then 1 else 0
  {
    var p1 := ExchangeEffect(cfg, es, p, x, id);
    var p2 := ExchangeEffect(cfg, es + Events(x), p1, y, (id + 1) % TWO_16);
    p' := ExchangeEffect(cfg, es + Events(x) + Events(y), p2, z, (id + 2) % TWO_16);
    ThreeBooked(p, p1, p2, p', id);
  }

  /** After any run that left no response held and no streak begun, with anything else
      going on between the messages, they halt the requests exactly when the ids do not
      wrap past 65535. */
  lemma ConsecutiveHalt(cfg: Config, es: seq<Event>, x: Doubled, y: Doubled, z: Doubled, id: uint16)
    requires Rested(After(cfg, es)) && After(cfg, es).dupCounter == 0 && Consecutives(es, x, y, z, id)
    ensures var p, p' := After(cfg, es), After(cfg, es + Events(x) + Events(y) + Events(z));
            Rested(p') && p'.history.misbehaved == p.history.misbehaved + if id <= 65533 then 1 else 0
  {
    AfterIsRan(cfg, es);
    var p' := ThreeEffect(cfg, es, After(cfg, es), x, y, z, id);
    RanIsAfter(cfg, es + Events(x) + Events(y) + Events(z), p');
  }

  const ZERO := Timestamp(0, 0, 0, 0)

  function Reply(id: uint16, from: PortId): Response { Response(id, from, from, ZERO, ZERO) }

  /** An exchange with nothing else going on. */
  function Plain(id: uint16, a: PortId, b: PortId): Doubled {
    Doubled(Reply(id, a), Reply(id, b), FollowUp(id, a, a, ZERO), [], [], [])
  }

  function ThreeExchanges(id: uint16, a: PortId, b: PortId): seq<Event> {
    Events(Plain(id, a, b)) + Events(Plain((id + 1) % TWO_16, a, b)) + Events(Plain((id + 2) % TWO_16, a, b))
  }

  lemma PlainHalt(cfg: Config, es: seq<Event>, p: Port, id: uint16, a: PortId, b: PortId) returns (p': Port)
    requires Ran(cfg, es, p) && Rested(p) && p.dupCounter == 0 && a.number != b.number
    ensures Ran(cfg, es + ThreeExchanges(id, a, b), p') && Rested(p')
    ensures p'.history.misbehaved == p.history.misbehaved + if id <= 65533 then 1 else 0
  {
    var x, y, z := Plain(id, a, b), Plain((id + 1) % TWO_16, a, b), Plain((id + 2) % TWO_16, a, b);
    FirstCloses(es, x);
    FirstCloses(es + Events(x), y);
    FirstCloses(es + Events(x) + Events(y), z);
    p' := ThreeEffect(cfg, es, p, x, y, z, id);
    assert es + ThreeExchanges(id, a, b) == es + Events(x) + Events(y) + Events(z);
  }

  /** Duplicates at 65534, 65535 and 0 do not halt. */
  lemma WrapDoesNotHalt(cfg: Config, a: PortId, b: PortId)
    requires a.number != b.number
    ensures var p := After(cfg, ThreeExchanges(65534, a, b)); p.history.misbehaved == 0 && !p.halted
  {
    var es := ThreeExchanges(65534, a, b);
    AfterIsRan(cfg, []);
    var p := PlainHalt(cfg, [], Start(cfg), 65534, a, b);
    assert [] + es == es;
    RanIsAfter(cfg, es, p);
    ThreeMessages(65534, a, b);
    assert LinkDown !in es;
    NotMisbehavedNotHalted(cfg, es);
  }

  /** Without a link loss only misbehaviour halts. */
  lemma {:induction false} NotMisbehavedNotHalted(cfg: Config, es: seq<Event>)
    requires LinkDown !in es
    ensures After(cfg, es).history.misbehaved == 0 ==> !After(cfg, es).halted
    decreases |es|
  {
    if es == [] {
    } else {
      var before, e := es[..|es| - 1], es[|es| - 1];
      NotMisbehavedNotHalted(cfg, before);
      assert e in es;
      HaltedStep(After(cfg, before), e);
    }
  }

  lemma HaltedStep(p: Port, e: Event)
    requires e != LinkDown
    ensures Step(p, e).halted ==> p.halted || Step(p, e).history.misbehaved > p.history.misbehaved
    ensures Step(p, e).history.misbehaved >= p.history.misbehaved
  {
    if e.RxResponse? && !p.aborted {
      ResponseFrame(Tick(p), e.r);
    }
  }

  ghost predicate Unfollowed(p: Port) {
    && p.history.misbehaved == 0 && p.dupCounter <= 1 && !p.aborted
    && (p.dupCounter == 1 ==> p.response.Some? && p.lastInvalid == p.response.value.msg.seqId)
  }

  lemma UnfollowedStep(p: Port, e: Event)
    requires Unfollowed(p) && !e.RxFollowUp? && !e.Deferred?
    ensures Unfollowed(Step(p, e))
  {
    if e.RxResponse? {
      if p.response.Some? {
        CheckFacts(Tick(p), e.r);
      }
      ResponseFrame(Tick(p), e.r);
    } else {
      OthersKeepDuplicates(p, e);
    }
  }

  /** No run without follow-ups halts, however many duplicates it has: the first
      response to a new request is held against the old one and ends the streak. */
  lemma {:induction false} NoFollowUpNeverHalts(cfg: Config, es: seq<Event>)
    requires forall i :: 0 <= i < |es| ==> !es[i].RxFollowUp? && !es[i].Deferred?
    ensures Unfollowed(After(cfg, es)) && After(cfg, es).history.misbehaved == 0
    decreases |es|
  {
    if es == [] {
    } else {
      var before, e := es[..|es| - 1], es[|es| - 1];
      NoFollowUpNeverHalts(cfg, before);
      UnfollowedStep(After(cfg, before), e);
    }
  }

  function SixReplies(id: uint16, a: PortId, b: PortId): seq<Event>
    requires id <= 65533
  {
    [RxResponse(Reply(id, a)), RxResponse(Reply(id, b)), RxResponse(Reply(id + 1, a)), RxResponse(Reply(id + 1, b)),
     RxResponse(Reply(id + 2, a)), RxResponse(Reply(id + 2, b))]
  }

  /** Three consecutive requests, each answered by two ports, but no follow-up. */
  lemma UnfollowedDoNotHalt(cfg: Config, id: uint16, a: PortId, b: PortId)
    requires id <= 65533 && a.number != b.number
    ensures var p := After(cfg, SixReplies(id, a, b)); p.history.misbehaved == 0 && !p.halted
  {
    NoFollowUpNeverHalts(cfg, SixReplies(id, a, b));
    NotMisbehavedNotHalted(cfg, SixReplies(id, a, b));
  }

  // ---- two timers of the exchange at once -------------------------------------------------

  /** Messages only: what a run needs to be found misbehaving. */
  predicate Messages(es: seq<Event>) { forall i :: 0 <= i < |es| ==> es[i].RxResponse? || es[i].RxFollowUp? }

  lemma PlainMessages(id: uint16, a: PortId, b: PortId)
    ensures Messages(Events(Plain(id, a, b)))
  {
  }

  lemma ThreeMessages(id: uint16, a: PortId, b: PortId)
    ensures Messages(ThreeExchanges(id, a, b))
  {
    PlainMessages(id, a, b);
    PlainMessages((id + 1) % TWO_16, a, b);
    PlainMessages((id + 2) % TWO_16, a, b);
  }

  /** One port answering twice ends any streak. */
  lemma EndsStreak(cfg: Config, es: seq<Event>, p: Port, id: uint16, a: PortId) returns (p': Port)
    requires Ran(cfg, es, p) && Rested(p) && !Awaiting(es)
    ensures Ran(cfg, es + Events(Plain(id, a, a)), p') && Rested(p') && !Awaiting(es + Events(Plain(id, a, a)))
    ensures p'.dupCounter == 0 && p'.history.misbehaved == p.history.misbehaved
  {
    var x := Plain(id, a, a);
    PlainMessages(id, a, a);
    MessagesAwait(es, Answers(x));
    MessagesAwait(es, Events(x));
    p' := ExchangeEffect(cfg, es, p, x, id);
  }

  lemma {:induction false} MessagesAwait(es: seq<Event>, more: seq<Event>)
    requires Messages(more)
    ensures Awaiting(es + more) == Awaiting(es)
    decreases |more|
  {
    if more == [] {
      assert es + more == es;
    } else {
      var front, e := more[..|more| - 1], more[|more| - 1];
      MessagesAwait(es, front);
      TellOne(es + front, e);
      assert es + more == es + front + [e];
    }
  }

  /** Messages that show the peer misbehaving once. */
  function HaltingMessages(a: PortId, b: PortId): seq<Event> {
    Events(Plain(7, a, a)) + ThreeExchanges(10, a, b)
  }

  lemma Misbehaves(cfg: Config, es: seq<Event>, p: Port, a: PortId, b: PortId) returns (p': Port)
    requires Ran(cfg, es, p) && Rested(p) && !Awaiting(es) && a.number != b.number
    ensures Ran(cfg, es + HaltingMessages(a, b), p') && Rested(p') && !Awaiting(es + HaltingMessages(a, b))
    ensures p'.history.misbehaved == p.history.misbehaved + 1
  {
    var x, t := Events(Plain(7, a, a)), ThreeExchanges(10, a, b);
    var q := EndsStreak(cfg, es, p, 7, a);
    p' := PlainHalt(cfg, es + x, q, 10, a, b);
    ThreeMessages(10, a, b);
    MessagesAwait(es + x, t);
    assert es + HaltingMessages(a, b) == es + x + t;
  }

  lemma HaltingAreMessages(a: PortId, b: PortId)
    ensures Messages(HaltingMessages(a, b)) && |HaltingMessages(a, b)| == 12
  {
    PlainMessages(7, a, a);
    ThreeMessages(10, a, b);
  }

  lemma Twice(es: seq<Event>, m: seq<Event>)
    ensures es + (m + m) == es + m + m
  {
  }

  lemma MisbehavesAgain(cfg: Config, es: seq<Event>, p: Port, a: PortId, b: PortId) returns (p': Port)
    requires Ran(cfg, es, p) && Rested(p) && !Awaiting(es) && a.number != b.number
    ensures Ran(cfg, es + (HaltingMessages(a, b) + HaltingMessages(a, b)), p')
    ensures p'.history.misbehaved == p.history.misbehaved + 2
  {
    var m := HaltingMessages(a, b);
    var q := Misbehaves(cfg, es, p, a, b);
    p' := Misbehaves(cfg, es + m, q, a, b);
    Twice(es, m);
  }

  /** After every run that left no response held and no timestamp awaited, messages alone
      can show the peer misbehaving twice, so before the first halt is over. */
  lemma MisbehavesTwice(cfg: Config, es: seq<Event>, a: PortId, b: PortId) returns (more: seq<Event>)
    requires Rested(After(cfg, es)) && !Awaiting(es) && a.number != b.number
    ensures Messages(more) && After(cfg, es + more).history.misbehaved == After(cfg, es).history.misbehaved + 2
    ensures |more| == 24
  {
    more := HaltingMessages(a, b) + HaltingMessages(a, b);
    HaltingAreMessages(a, b);
    AfterIsRan(cfg, es);
    var p := MisbehavesAgain(cfg, es, After(cfg, es), a, b);
    RanIsAfter(cfg, es + more, p);
  }

  /** A follow-up to the request under way waits for its timestamp. */
  lemma Defers(p: Port, f: Logged<FollowUp>)
    requires p.request.Some? && p.response.Some? && Pending(p.request.value.msg.stamp)
    requires Matches(p.request.value.msg, p.response.value.msg, f.msg)
    ensures ProcessFollowUp(p, f) == (p.(followUp := Some(f)), true)
  {
  }

  /** While a request has no timestamp, every follow-up to its held response is deferred
      and takes the place of the one kept before. */
  lemma DefersTwice(cfg: Config, es: seq<Event>, r: Response, f: FollowUp, g: FollowUp)
    requires Hold(es).resp == Some(r) && !Hold(es).dead && Waits(es, r, f) && Waits(es, r, g)
    ensures var p, q := After(cfg, es + [RxFollowUp(f)]), After(cfg, es + [RxFollowUp(f), RxFollowUp(g)]);
            && p.followUp == Some(Logged(f, |es|)) && p.response.Some? && p.response.value.msg == r
            && q.followUp == Some(Logged(g, |es| + 1)) && q.response == p.response
  {
    var p0 := After(cfg, es);
    RunAgrees(cfg, es);
    RunTraced(cfg, es);
    AfterIsRan(cfg, es);
    RanOne(cfg, es, p0, RxFollowUp(f));
    Defers(Tick(p0), Logged(f, |es|));
    var p1 := Step(p0, RxFollowUp(f));
    RanOne(cfg, es + [RxFollowUp(f)], p1, RxFollowUp(g));
    Defers(Tick(p1), Logged(g, |es| + 1));
    assert es + [RxFollowUp(f)] + [RxFollowUp(g)] == es + [RxFollowUp(f), RxFollowUp(g)];
    RanIsAfter(cfg, es + [RxFollowUp(f)], p1);
    RanIsAfter(cfg, es + [RxFollowUp(f), RxFollowUp(g)], Step(p1, RxFollowUp(g)));
  }
}
