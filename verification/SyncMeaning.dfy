/** What the servo is told by a Sync and its Follow_Up: the offset from the master's time
    at the arrival of the Sync, and the master's rate. */
module SyncMeaning {
  import opened MachineInts
  import opened Timestamps
  import opened SyncFollowUp
  import L = LinkDelay
  import PeerDelay
  import Servo

  // ---- one pair ---------------------------------------------------------------------------

  /** The link delay in the master's time, without rounding: the cumulative rate offset
      counts 2^-41. */
  function Scaled(delay: nat, rate: Rate, f: FollowUp): real {
    L.Times(delay as real, (1.0 + f.rateOffset as real / 2199023255552.0) / rate)
  }

  /** Residence and link delay in the master's time, without rounding: the field counts
      2^-16 ns. */
  function Ideal(delay: nat, rate: Rate, f: FollowUp): real {
    f.correctionField as real / 65536.0 + Scaled(delay, rate, f)
  }

  /** The field without its fraction of a nanosecond, towards zero. */
  lemma FieldIsClose(f: FollowUp)
    ensures var field, c := f.correctionField, CorrectionNs(f);
            if field >= 0 then 65536 * c <= field < 65536 * (c + 1) else 65536 * (c - 1) < field <= 65536 * c
    ensures Abs(CorrectionNs(f) as real - f.correctionField as real / 65536.0) < 1.0
  {
  }

  lemma TruncateIsClose(x: real)
    ensures Abs(Truncate(x) as real - x) < 1.0
    ensures if x >= 0.0 then 0.0 <= x - Truncate(x) as real < 1.0 else 0.0 <= Truncate(x) as real - x < 1.0
  {
  }

  lemma CorrectionIs(delay: nat, rate: Rate, f: FollowUp)
    ensures Correction(delay, rate, f) == Truncate(Scaled(delay, rate, f) + CorrectionNs(f) as real)
  {
    assert MasterRatio(rate, f) == (1.0 + f.rateOffset as real / 2199023255552.0) / rate;
  }

  /** Each of the two truncations, of the field and of its sum with the link delay in the
      master's time, is towards zero and loses less than a nanosecond. */
  lemma CorrectionIsClose(delay: nat, rate: Rate, f: FollowUp)
    ensures var sum, c := Scaled(delay, rate, f) + CorrectionNs(f) as real, Correction(delay, rate, f) as real;
            if sum >= 0.0 then 0.0 <= sum - c < 1.0 else 0.0 <= c - sum < 1.0
    ensures Abs(Correction(delay, rate, f) as real - Ideal(delay, rate, f)) < 2.0
  {
    FieldIsClose(f);
    CorrectionIs(delay, rate, f);
    TruncateIsClose(Scaled(delay, rate, f) + CorrectionNs(f) as real);
  }

  /** The master's time when the Sync arrived. */
  function Truth(delay: nat, rate: Rate, f: FollowUp): real { Value(f.origin) as real + Ideal(delay, rate, f) }

  /** A valid origin, and a master's time that a timestamp can hold. */
  predicate Sound(delay: nat, rate: Rate, f: FollowUp) {
    Normalized(f.origin) && 2.0 <= Truth(delay, rate, f) <= SPAN as real - 2.0
  }

  lemma StaysInRange(origin: Timestamp, correction: int64)
    requires correction > -TWO_63 && Normalized(origin) && 0 <= Value(origin) + correction < SPAN
    ensures SecondsStayInRange(origin, [SyncFollowUp.Change(correction)])
  {
    var none: seq<Timestamps.Change> := [];
    assert [SyncFollowUp.Change(correction)][1..] == none;
  }

  /** The corrected origin is the master's time to within two nanoseconds. */
  lemma MasterIsClose(delay: nat, rate: Rate, f: FollowUp)
    requires delay < PeerDelay.INVALID_LINKDELAY && Sound(delay, rate, f)
    ensures -TWO_63 < Correction(delay, rate, f) < TWO_63
    ensures Abs(Value(MasterTime(f.origin, Correction(delay, rate, f))) as real - Truth(delay, rate, f)) < 2.0
  {
    CorrectionFits(delay, rate, f);
    CorrectionIsClose(delay, rate, f);
    StaysInRange(f.origin, Correction(delay, rate, f));
    MasterTimeMeaning(f.origin, Correction(delay, rate, f));
  }

  /** And so the offset: arrival minus origin, correction field and link delay. */
  lemma OffsetIsClose(delay: nat, rate: Rate, f: FollowUp, arrival: Timestamp)
    requires delay < PeerDelay.INVALID_LINKDELAY && Sound(delay, rate, f)
    requires Abs(Value(arrival) as real - Truth(delay, rate, f)) <= 9223372036854775805.0
    ensures -TWO_63 < Correction(delay, rate, f) < TWO_63
    ensures var offset := OffsetNs(arrival, MasterTime(f.origin, Correction(delay, rate, f)));
            Abs(offset as real - (Value(arrival) as real - Truth(delay, rate, f))) < 2.0
  {
    var c := Correction(delay, rate, f);
    CorrectionFits(delay, rate, f);
    CorrectionIsClose(delay, rate, f);
    StaysInRange(f.origin, c);
    OffsetMeaning(f.origin, c, arrival);
  }

  // ---- two pairs: the master's rate ------------------------------------------------------------

  /** Timestamps that the 64-bit arithmetic takes as they are, both clocks advancing. */
  predicate Onward(m: Timestamp, a: Timestamp, m': Timestamp, a': Timestamp) {
    Value(m) <= Value(m') < TWO_64 && Value(a) < Value(a') < TWO_64
  }

  lemma QuotientTimes(x: int, y: int)
    requires y > 0
    ensures L.Times(x as real / y as real, y as real) == x as real
  {
  }

  /** With a baseline the ratio is the master's time that passed over the local time that
      passed, exactly. */
  lemma RateIsQuotient(p: Port, master: Timestamp, arrival: Timestamp)
    requires p.clock.masterRate && Onward(p.prevMaster, p.prevSync, master, arrival)
    ensures var (q, ratio) := RateDifference(p, master, arrival);
            && L.Times(ratio, (Value(arrival) - Value(p.prevSync)) as real)
               == (Value(master) - Value(p.prevMaster)) as real
            && q.prevMaster == master && q.prevSync == arrival && q.clock == p.clock
  {
    Fits64(Value(master));
    Fits64(Value(arrival));
    Fits64(Value(p.prevMaster));
    Fits64(Value(p.prevSync));
    Fits64(Value(arrival) - Value(p.prevSync));
    QuotientTimes(Value(master) - Value(p.prevMaster), Value(arrival) - Value(p.prevSync));
  }

  /** Without one the pair becomes the baseline, and so it does afterwards, unless the
      master's time went back, which takes the baseline away. */
  lemma BaselineMeaning(p: Port, master: Timestamp, arrival: Timestamp)
    ensures var (q, ratio) := RateDifference(p, master, arrival);
            && (q.clock.masterRate <==> !p.clock.masterRate || ToNs(p.prevMaster) <= ToNs(master))
            && (q.clock.masterRate ==> q.prevMaster == master && q.prevSync == arrival)
            && (!p.clock.masterRate || (q.clock.masterRate && ToNs(arrival) == ToNs(p.prevSync)) ==> ratio == 1.0)
  {
  }

  // ---- which Sync is held, and which Follow_Ups count as mismatches -------------------------------

  predicate Concerns(e: Event) { e.RxSync? || e.RxFollowUp? }

  /** The port was listening when the event came. */
  ghost predicate HeardAt(cfg: Config, es: seq<Event>, i: nat)
    requires i < |es|
  {
    Concerns(es[i]) && !Ignores(After(cfg, es[..i]).role)
  }

  /** The last Sync or Follow_Up heard. */
  ghost predicate LastHeard(cfg: Config, es: seq<Event>, i: nat)
    requires i < |es|
  {
    HeardAt(cfg, es, i) && forall j :: i < j < |es| ==> !HeardAt(cfg, es, j)
  }

  lemma HeardLater(cfg: Config, es: seq<Event>, e: Event, i: nat)
    requires i < |es|
    ensures HeardAt(cfg, es + [e], i) == HeardAt(cfg, es, i)
  {
    assert (es + [e])[..i] == es[..i];
  }

  lemma StepHolds(p: Port, e: Event)
    ensures var q := Step(p, e);
            q.lastSync == if Ignores(p.role) || !Concerns(e) then p.lastSync
                          else if e.RxSync? then Some(PeerDelay.Logged(e.s, p.history.now))
                          else None
  {
    if e.RxFollowUp? && p.lastSync.Some? {
      PairFrame(p, p.lastSync.value, PeerDelay.Logged(e.f, p.history.now));
    }
  }

  /** On every run the Sync held is the last message heard, if that was a Sync; after a
      Follow_Up, or before any message, none is held. */
  lemma {:induction false} RunHolds(cfg: Config, es: seq<Event>, x: PeerDelay.Logged<Sync>)
    ensures After(cfg, es).lastSync == Some(x)
            <==> x.at < |es| && es[x.at] == RxSync(x.msg) && LastHeard(cfg, es, x.at)
    decreases |es|
  {
    if es == [] {
    } else {
      var front, e := es[..|es| - 1], es[|es| - 1];
      assert front + [e] == es;
      RunHolds(cfg, front, x);
      RunPairs(cfg, front);
      StepHolds(After(cfg, front), e);
      forall i | 0 <= i < |front|
        ensures HeardAt(cfg, es, i) == HeardAt(cfg, front, i)
      {
        HeardLater(cfg, front, e, i);
      }
      assert HeardAt(cfg, es, |front|) == (Concerns(e) && !Ignores(After(cfg, front).role));
    }
  }

  /** A Follow_Up heard while another message's Sync is held counts exactly while the port is
      asCapable, and makes the port a master exactly when that is counted as forced. */
  lemma MismatchExactly(p: Port, f: PeerDelay.Logged<FollowUp>)
    ensures var q := ProcessFollowUp(p, f);
            var wrong := !Ignores(p.role) && p.lastSync.Some? && !SameMessage(p.lastSync.value.msg, f.msg);
            && q.history.mismatches == p.history.mismatches + (if wrong && p.asCapable then 1 else 0)
            && q.role == (if q.history.forced == p.history.forced then p.role else Master)
            && (!wrong ==> q.history.forced == p.history.forced && q.wrongSeq == p.wrongSeq)
  {
    if p.lastSync.Some? {
      PairFrame(p, p.lastSync.value, f);
    }
  }

  /** The last word on capability. */
  function CapableAt(es: seq<Event>): bool {
    if es == [] then false
    else if es[|es| - 1].Capable? then es[|es| - 1].capable
    else CapableAt(es[..|es| - 1])
  }

  lemma StepInputs(p: Port, e: Event)
    ensures var q := Step(p, e);
            && q.asCapable == (if e.Capable? then e.capable else p.asCapable)
            && q.version == (if e.NewVersion? then e.version else p.version)
            && q.role == if e.NewRole? then e.role
                         else if q.history.forced != p.history.forced then Master
                         else p.role
  {
    if e.RxFollowUp? && p.lastSync.Some? {
      PairFrame(p, p.lastSync.value, PeerDelay.Logged(e.f, p.history.now));
    }
  }

  /** On every run capability and version are as last told. */
  lemma {:induction false} RunInputs(cfg: Config, es: seq<Event>)
    ensures After(cfg, es).asCapable == CapableAt(es) && After(cfg, es).version == CurrentVersion(es)
    decreases |es|
  {
    if es == [] {
    } else {
      RunInputs(cfg, es[..|es| - 1]);
      StepInputs(After(cfg, es[..|es| - 1]), es[|es| - 1]);
    }
  }

  /** The port was given a role, or made a master by mismatches. */
  ghost predicate RoleAt(cfg: Config, es: seq<Event>, i: nat)
    requires i < |es|
  {
    es[i].NewRole? || After(cfg, es[..i]).history.forced != After(cfg, es[..i + 1]).history.forced
  }

  lemma RoleLater(cfg: Config, es: seq<Event>, e: Event, i: nat)
    requires i < |es|
    ensures RoleAt(cfg, es + [e], i) == RoleAt(cfg, es, i)
  {
    assert (es + [e])[..i] == es[..i] && (es + [e])[..i + 1] == es[..i + 1];
  }

  /** The role is the one last given, or master if mismatches made it so since. */
  lemma {:induction false} RunRole(cfg: Config, es: seq<Event>, i: nat)
    requires i < |es| && RoleAt(cfg, es, i) && forall j :: i < j < |es| ==> !RoleAt(cfg, es, j)
    ensures After(cfg, es).role == if es[i].NewRole? then es[i].role else Master
    decreases |es|
  {
    var front, e := es[..|es| - 1], es[|es| - 1];
    assert front + [e] == es && es[..|front|] == front && es[..|front| + 1] == es;
    StepInputs(After(cfg, front), e);
    if i < |front| {
      assert !RoleAt(cfg, es, |front|);
      forall j | i <= j < |front|
        ensures RoleAt(cfg, front, j) == RoleAt(cfg, es, j)
      {
        RoleLater(cfg, front, e, j);
      }
      RunRole(cfg, front, i);
    }
  }

  /** Only a slave is driven. */
  lemma StepFeeds(p: Port, e: Event)
    ensures p.role != Slave ==> Step(p, e).history.fed == p.history.fed
  {
    if e.RxFollowUp? {
      DrivesExactly(p, PeerDelay.Logged(e.f, p.history.now));
    }
  }

  /** Before a role is given or forced the port is neither slave nor master, and no pair drives
      the servo: nothing is told to it but what other events tell, and nothing is adjusted. */
  lemma {:induction false} RunRoleless(cfg: Config, es: seq<Event>)
    requires forall i :: 0 <= i < |es| ==> !RoleAt(cfg, es, i)
    ensures var p := After(cfg, es); p.role != Slave && p.role != Master && p.history.fed == []
    decreases |es|
  {
    if es == [] {
    } else {
      var front, e := es[..|es| - 1], es[|es| - 1];
      assert front + [e] == es && es[..|front|] == front && es[..|front| + 1] == es;
      forall i | 0 <= i < |front|
        ensures !RoleAt(cfg, front, i)
      {
        RoleLater(cfg, front, e, i);
      }
      RunRoleless(cfg, front);
      assert !RoleAt(cfg, es, |front|);
      StepInputs(After(cfg, front), e);
      StepFeeds(After(cfg, front), e);
    }
  }

  /** A Follow_Up drives the servo exactly when the port is a slave and holds its Sync, stamped
      in the current version, a link delay is known, its correction field is not negative by
      a nanosecond or more or that is allowed, and the master's time advances. */
  lemma UsedExactly(p: Port, f: PeerDelay.Logged<FollowUp>)
    ensures Usable(p, f.msg) <==>
            p.delay < 3_600_000_000_000 && (f.msg.correctionField > -65536 || p.cfg.allowNegative)
    ensures var q := ProcessFollowUp(p, f);
            q.history.fed != p.history.fed <==>
            && p.role == Slave && p.lastSync.Some? && p.lastSync.value.msg.rx.version == p.version
            && p.lastSync.value.msg.seqId == f.msg.seqId && p.lastSync.value.msg.source == f.msg.source
            && p.delay < 3_600_000_000_000 && (f.msg.correctionField > -65536 || p.cfg.allowNegative)
            && Advances(p, MasterTime(f.msg.origin, CorrectionOf(p, f.msg)), p.lastSync.value.msg.rx)
  {
    DrivesExactly(p, f);
  }

  /** A Follow_Up of the held Sync, in the current version, that can be measured. */
  predicate Measurable(p: Port, f: FollowUp) {
    && !Ignores(p.role) && p.lastSync.Some? && SameMessage(p.lastSync.value.msg, f)
    && p.lastSync.value.msg.rx.version == p.version && Usable(p, f)
  }

  /** What it tells the servo about the baseline of the master's rate. */
  function Baseline(p: Port, f: FollowUp): seq<Servo.Event> {
    if !Measurable(p, f) then []
    else if !p.clock.masterRate then [Servo.MasterRateKnown]
    else if ToNs(MasterTime(f.origin, CorrectionOf(p, f))) < ToNs(p.prevMaster) then [Servo.MasterRateLost]
    else []
  }

  /** The log of q is that of p, then these events, and the update of a new pair if there is one. */
  predicate Tells(p: Port, q: Port, first: seq<Servo.Event>) {
    var n := |p.history.fed|;
    && p.history.fed <= q.history.fed && |q.history.fed| <= n + 1
    && q.history.servo
       == p.history.servo + first + if |q.history.fed| == n then [] else [Servo.Offset(q.history.fed[n].update)]
  }

  lemma PairTells(p: Port, s: PeerDelay.Logged<Sync>, f: PeerDelay.Logged<FollowUp>)
    requires Measurable(p, f.msg) && p.lastSync == Some(s)
    ensures Tells(p, ProcessPair(p, s, f), Baseline(p, f.msg))
  {
    var (q, ratio) := RateDifference(p, MasterTime(f.msg.origin, CorrectionOf(p, f.msg)), s.msg.rx);
    assert q.history.servo == p.history.servo + Baseline(p, f.msg) && q.history.fed == p.history.fed;
  }

  lemma FollowUpTells(p: Port, f: PeerDelay.Logged<FollowUp>)
    ensures Tells(p, ProcessFollowUp(p, f), Baseline(p, f.msg))
  {
    if Measurable(p, f.msg) {
      PairTells(p, p.lastSync.value, f);
    }
  }

  /** What an event tells the servo, after what it was told before: of a Follow_Up the
      baseline, and then the offset and the rate of its pair if it drives the servo; of the
      others a new set point, a measured link, or a lost capability. */
  lemma StepTells(p: Port, e: Event)
    ensures var q, n := Step(p, e), |p.history.fed|;
            && (!e.RxFollowUp? ==> q.history.fed == p.history.fed)
            && Tells(p, q, match e
                           case RxFollowUp(f) => Baseline(p, f)
                           case LinkMeasured(_, _) => [Servo.PeerRateKnown]
                           case Capable(capable) => if capable then [] else [Servo.PeerRateLost]
                           case NewSetPoint => [Servo.NewSetPoint]
                           case _ => [])
            && (|q.history.fed| > n ==> Measurable(p, e.f) && UpdateIs(p, e.f, q.history.fed[n].update))
  {
    if e.RxFollowUp? {
      FollowUpTells(p, PeerDelay.Logged(e.f, p.history.now));
      DrivesExactly(p, PeerDelay.Logged(e.f, p.history.now));
    }
  }

  // ---- every run ---------------------------------------------------------------------------

  /** Link delay and neighbour ratio last measured. */
  function LinkAt(es: seq<Event>): (int64, Rate) {
    if es == [] then (PeerDelay.INVALID_LINKDELAY, 1.0)
    else if es[|es| - 1].LinkMeasured? then (es[|es| - 1].delay, es[|es| - 1].rate)
    else LinkAt(es[..|es| - 1])
  }

  function DelayAt(es: seq<Event>): nat { PeerDelay.Positive(LinkAt(es).0) }

  /** A Sync and a Follow_Up of it that came while the link delay was valid. */
  ghost predicate PairAt(es: seq<Event>, i: nat, j: nat) {
    && i < j < |es| && es[i].RxSync? && es[j].RxFollowUp? && SameMessage(es[i].s, es[j].f)
    && DelayAt(es[..j]) < PeerDelay.INVALID_LINKDELAY
  }

  function CorrectionAt(es: seq<Event>, j: nat): int
    requires j < |es| && es[j].RxFollowUp?
  {
    Correction(DelayAt(es[..j]), LinkAt(es[..j]).1, es[j].f)
  }

  function TruthAt(es: seq<Event>, j: nat): real
    requires j < |es| && es[j].RxFollowUp?
  {
    Truth(DelayAt(es[..j]), LinkAt(es[..j]).1, es[j].f)
  }

  predicate SoundAt(es: seq<Event>, j: nat)
    requires j < |es| && es[j].RxFollowUp?
  {
    Sound(DelayAt(es[..j]), LinkAt(es[..j]).1, es[j].f)
  }

  /** The corrected origin of a Follow_Up: the master's time as the port computes it. */
  function MasterAt(es: seq<Event>, j: nat): Timestamp
    requires j < |es| && es[j].RxFollowUp? && DelayAt(es[..j]) < PeerDelay.INVALID_LINKDELAY
  {
    CorrectionFits(DelayAt(es[..j]), LinkAt(es[..j]).1, es[j].f);
    MasterTime(es[j].f.origin, CorrectionAt(es, j))
  }

  /** The Follow_Up at j is heard and measured with the Sync at i: that is the last message
      heard before it, it belongs to the Follow_Up and is stamped in the version then in
      force, a link delay is known, and the correction field is not negative by a
      nanosecond or more, or that is allowed. */
  ghost predicate MeasuredAt(cfg: Config, es: seq<Event>, i: nat, j: nat) {
    && PairAt(es, i, j) && LastHeard(cfg, es[..j], i) && HeardAt(cfg, es, j)
    && es[i].s.rx.version == CurrentVersion(es[..j])
    && (es[j].f.correctionField > -65536 || cfg.allowNegative)
  }

  /** The event at j made the servo step the phase. */
  ghost predicate SteppedAt(cfg: Config, es: seq<Event>, j: nat)
    requires j < |es|
  {
    var before, after := After(cfg, es[..j]).history.fed, After(cfg, es[..j + 1]).history.fed;
    |before| < |after| && after[|before|].adjusted.Some?
  }

  /** The baseline of the master's rate, told by the events: the last pair that was measured,
      unless it stepped the phase or went back behind the baseline before it. */
  ghost function BaseAt(cfg: Config, es: seq<Event>): (b: Option<(nat, nat)>)
    ensures b.Some? ==> PairAt(es, b.value.0, b.value.1)
    decreases |es|
  {
    if es == [] then None
    else
      var front, j := es[..|es| - 1], |es| - 1;
      var b := BaseAt(cfg, front);
      if exists i: nat :: MeasuredAt(cfg, es, i, j) then
        var i: nat :| MeasuredAt(cfg, es, i, j);
        if SteppedAt(cfg, es, j) || (b.Some? && ToNs(MasterAt(es, j)) < ToNs(MasterAt(front, b.value.1))) then None
        else Some((i, j))
      else
        assert b.Some? ==> PairAt(es, b.value.0, b.value.1) by {
          if b.Some? {
            PairLater(front, es[j], b.value.0, b.value.1);
            assert front + [es[j]] == es;
          }
        }
        b
  }

  // ---- what each pair told the servo ----------------------------------------------------------

  /** The offset that the servo was given for the pair (i, j). */
  ghost predicate OffsetMeant(es: seq<Event>, i: nat, j: nat, offset: int)
    requires PairAt(es, i, j)
  {
    var exact := Value(es[i].s.rx) as real - TruthAt(es, j);
    SoundAt(es, j) && Abs(exact) <= 9223372036854775805.0 ==> Abs(offset as real - exact) < 2.0
  }

  /** The adjustment that the servo made for the pair (i, j): it takes the local clock to
      the master's time. */
  ghost predicate StepMeant(es: seq<Event>, i: nat, j: nat, adjusted: int)
    requires PairAt(es, i, j)
  {
    var arrival := Value(es[i].s.rx) as real;
    SoundAt(es, j) && Abs(arrival - TruthAt(es, j)) <= 9223372036854775805.0 ==>
      Abs(arrival + adjusted as real - TruthAt(es, j)) < 2.0
  }

  /** The rate over the time since the pair (k, l), of the 64-bit times: exactly one without
      local time passed, and otherwise exactly the quotient. */
  ghost predicate RateExact(es: seq<Event>, i: nat, j: nat, k: nat, l: nat, ratio: real)
    requires PairAt(es, i, j) && PairAt(es, k, l)
  {
    var arrival, was := ToNs(es[i].s.rx), ToNs(es[k].s.rx);
    if arrival == was then ratio == 1.0
    else L.Times(ratio, ToUint64(arrival - was) as real) == (ToNs(MasterAt(es, j)) - ToNs(MasterAt(es, l))) as real
  }

  /** And against the master's true times, while they fit in 64 bits and both clocks advance. */
  ghost predicate RateMeant(es: seq<Event>, i: nat, j: nat, k: nat, l: nat, ratio: real)
    requires PairAt(es, i, j) && PairAt(es, k, l)
  {
    var mine := Value(es[i].s.rx) - Value(es[k].s.rx);
    SoundAt(es, j) && SoundAt(es, l) && mine > 0 && Value(es[i].s.rx) < TWO_64
    && TruthAt(es, l) + 4.0 <= TruthAt(es, j) < 18446744073709551613.0 ==>
      Abs(L.Times(ratio, mine as real) - (TruthAt(es, j) - TruthAt(es, l))) < 4.0
  }

  /** The rate that the servo was given for the pair (i, j): one without a baseline, and
      otherwise the rate since the baseline. */
  ghost predicate RateTold(cfg: Config, es: seq<Event>, i: nat, j: nat, ratio: real)
    requires PairAt(es, i, j)
  {
    match BaseAt(cfg, es[..j])
    case None => ratio == 1.0
    case Some((k, l)) =>
      PairAt(es, k, l) && l < i && RateExact(es, i, j, k, l, ratio) && RateMeant(es, i, j, k, l, ratio)
  }

  /** What the servo was told about a pair, and what it did to the phase. */
  ghost predicate Meant(cfg: Config, es: seq<Event>, x: Fed) {
    var i, j := x.sync.at, x.followUp.at;
    && MeasuredAt(cfg, es, i, j) && es[i].s == x.sync.msg && es[j].f == x.followUp.msg
    && OffsetMeant(es, i, j, x.update.offset) && x.update.perSecond == cfg.perSecond
    && RateTold(cfg, es, i, j, x.update.ratio)
    && (x.adjusted.Some? <==>
          !Servo.Idle(x.update) && Servo.ShouldStep(Servo.Recall(After(cfg, es[..j]).history.servo)))
    && (x.adjusted.Some? ==> StepMeant(es, i, j, x.adjusted.value))
  }

  /** The port's baseline is that of the events. */
  ghost predicate Based(p: Port, cfg: Config, es: seq<Event>) {
    match BaseAt(cfg, es)
    case None => !p.clock.masterRate
    case Some((k, l)) => p.clock.masterRate && p.prevSync == es[k].s.rx && p.prevMaster == MasterAt(es, l)
  }

  ghost predicate Told(p: Port, cfg: Config, es: seq<Event>) {
    && p.cfg == cfg && (p.delay, p.rate) == LinkAt(es) && Based(p, cfg, es)
    && forall x :: x in p.history.fed ==> Meant(cfg, es, x)
  }

  // ---- one event further ----------------------------------------------------------------------

  lemma PairLater(es: seq<Event>, e: Event, i: nat, j: nat)
    requires PairAt(es, i, j)
    ensures PairAt(es + [e], i, j) && TruthAt(es + [e], j) == TruthAt(es, j) && SoundAt(es + [e], j) == SoundAt(es, j)
    ensures MasterAt(es + [e], j) == MasterAt(es, j)
  {
    assert (es + [e])[..j] == es[..j];
  }

  lemma MeasuredLater(cfg: Config, es: seq<Event>, e: Event, i: nat, j: nat)
    requires j < |es|
    ensures MeasuredAt(cfg, es + [e], i, j) == MeasuredAt(cfg, es, i, j)
  {
    assert (es + [e])[..j] == es[..j];
  }

  lemma RateOfLater(es: seq<Event>, e: Event, i: nat, j: nat, k: nat, l: nat, ratio: real)
    requires PairAt(es, i, j) && PairAt(es, k, l)
    requires RateExact(es, i, j, k, l, ratio) && RateMeant(es, i, j, k, l, ratio)
    ensures PairAt(es + [e], i, j) && PairAt(es + [e], k, l)
    ensures RateExact(es + [e], i, j, k, l, ratio) && RateMeant(es + [e], i, j, k, l, ratio)
  {
    PairLater(es, e, i, j);
    PairLater(es, e, k, l);
  }

  lemma RateLater(cfg: Config, es: seq<Event>, e: Event, i: nat, j: nat, ratio: real)
    requires PairAt(es, i, j) && RateTold(cfg, es, i, j, ratio)
    ensures PairAt(es + [e], i, j) && RateTold(cfg, es + [e], i, j, ratio)
  {
    PairLater(es, e, i, j);
    assert (es + [e])[..j] == es[..j];
    var b := BaseAt(cfg, es[..j]);
    if b.Some? {
      RateOfLater(es, e, i, j, b.value.0, b.value.1, ratio);
    }
  }

  lemma MeantLater(cfg: Config, es: seq<Event>, e: Event, x: Fed)
    requires Meant(cfg, es, x)
    ensures Meant(cfg, es + [e], x)
  {
    var i, j := x.sync.at, x.followUp.at;
    PairLater(es, e, i, j);
    MeasuredLater(cfg, es, e, i, j);
    RateLater(cfg, es, e, i, j, x.update.ratio);
    assert (es + [e])[..j] == es[..j];
  }

  lemma LinkOne(es: seq<Event>, e: Event)
    ensures LinkAt(es + [e]) == if e.LinkMeasured? then (e.delay, e.rate) else LinkAt(es)
  {
    assert (es + [e])[..|es|] == es;
  }

  lemma AfterOne(cfg: Config, es: seq<Event>, e: Event)
    ensures After(cfg, es + [e]) == Step(After(cfg, es), e)
  {
    assert (es + [e])[..|es|] == es;
  }

  /** A Follow_Up is measured as the events say, and with the Sync that they say. */
  lemma MeasuredExactly(cfg: Config, es: seq<Event>, f: FollowUp, i: nat)
    requires After(cfg, es).cfg == cfg && (After(cfg, es).delay, After(cfg, es).rate) == LinkAt(es)
    ensures var p := After(cfg, es);
            MeasuredAt(cfg, es + [RxFollowUp(f)], i, |es|) <==> Measurable(p, f) && p.lastSync.value.at == i
  {
    var p, es' := After(cfg, es), es + [RxFollowUp(f)];
    assert es'[..|es|] == es;
    RunInputs(cfg, es);
    UsedExactly(p, PeerDelay.Logged(f, 0));
    if Measurable(p, f) {
      RunHolds(cfg, es, p.lastSync.value);
      assert es'[p.lastSync.value.at] == es[p.lastSync.value.at];
    }
    if MeasuredAt(cfg, es', i, |es|) {
      assert es'[i] == es[i];
      RunHolds(cfg, es, PeerDelay.Logged(es[i].s, i));
    }
  }

  lemma NewMaster(p: Port, es: seq<Event>, f: FollowUp)
    requires (p.delay, p.rate) == LinkAt(es) && Usable(p, f)
    ensures var es' := es + [RxFollowUp(f)];
            DelayAt(es'[..|es|]) < PeerDelay.INVALID_LINKDELAY
            && MasterAt(es', |es|) == MasterTime(f.origin, CorrectionOf(p, f))
  {
    assert (es + [RxFollowUp(f)])[..|es|] == es;
  }

  // the baseline

  /** What a pair does to the baseline that the port holds. */
  lemma PairBase(p: Port, s: PeerDelay.Logged<Sync>, f: PeerDelay.Logged<FollowUp>)
    requires Usable(p, f.msg)
    ensures var q, master := ProcessPair(p, s, f), MasterTime(f.msg.origin, CorrectionOf(p, f.msg));
            var back := p.clock.masterRate && ToNs(master) < ToNs(p.prevMaster);
            var n := |p.history.fed|;
            var stepped := n < |q.history.fed| && q.history.fed[n].adjusted.Some?;
            && (q.clock.masterRate <==> !back && !stepped)
            && (q.clock.masterRate ==> q.prevMaster == master && q.prevSync == s.msg.rx)
  {
    var master := MasterTime(f.msg.origin, CorrectionOf(p, f.msg));
    var (q, ratio) := RateDifference(p, master, s.msg.rx);
    assert q.history.fed == p.history.fed;
  }

  lemma BaseKept(cfg: Config, es: seq<Event>, e: Event)
    requires forall i: nat :: !MeasuredAt(cfg, es + [e], i, |es|)
    ensures BaseAt(cfg, es + [e]) == BaseAt(cfg, es)
  {
    assert (es + [e])[..|es|] == es;
  }

  lemma OneSync(cfg: Config, es: seq<Event>, i: nat, i': nat, j: nat)
    requires MeasuredAt(cfg, es, i, j) && MeasuredAt(cfg, es, i', j)
    ensures i == i'
  {
  }

  lemma BaseMoves(cfg: Config, es: seq<Event>, e: Event, i: nat)
    requires MeasuredAt(cfg, es + [e], i, |es|)
    ensures var es', b, j: nat := es + [e], BaseAt(cfg, es), |es|;
            var back := b.Some? && ToNs(MasterAt(es', j)) < ToNs(MasterAt(es, b.value.1));
            BaseAt(cfg, es') == if SteppedAt(cfg, es', j) || back then None else Some((i, j))
  {
    var es' := es + [e];
    assert es'[..|es|] == es;
    forall i': nat | MeasuredAt(cfg, es', i', |es|)
      ensures i' == i
    {
      OneSync(cfg, es', i, i', |es|);
    }
  }

  lemma BasedLater(p: Port, q: Port, cfg: Config, es: seq<Event>, e: Event)
    requires Based(p, cfg, es) && forall i: nat :: !MeasuredAt(cfg, es + [e], i, |es|)
    requires q.clock.masterRate == p.clock.masterRate && q.prevSync == p.prevSync && q.prevMaster == p.prevMaster
    ensures Based(q, cfg, es + [e])
  {
    BaseKept(cfg, es, e);
    var b := BaseAt(cfg, es);
    if b.Some? {
      PairLater(es, e, b.value.0, b.value.1);
    }
  }

  lemma NotMeasured(cfg: Config, es: seq<Event>, e: Event)
    requires !e.RxFollowUp?
    ensures forall i: nat :: !MeasuredAt(cfg, es + [e], i, |es|)
  {
  }

  lemma FollowUpBased(cfg: Config, es: seq<Event>, f: FollowUp)
    requires Told(After(cfg, es), cfg, es)
    ensures Based(After(cfg, es + [RxFollowUp(f)]), cfg, es + [RxFollowUp(f)])
  {
    var p, e := After(cfg, es), RxFollowUp(f);
    var es' := es + [e];
    AfterOne(cfg, es, e);
    forall i: nat
      ensures MeasuredAt(cfg, es', i, |es|) <==> Measurable(p, f) && p.lastSync.value.at == i
    {
      MeasuredExactly(cfg, es, f, i);
    }
    if Measurable(p, f) {
      MeasuredBased(cfg, es, f, p.lastSync.value);
    } else {
      BasedLater(p, Step(p, e), cfg, es, e);
    }
  }

  /** The same of the event that completes the pair. */
  lemma FollowUpBase(p: Port, f: FollowUp)
    requires Measurable(p, f)
    ensures var q, master := Step(p, RxFollowUp(f)), MasterTime(f.origin, CorrectionOf(p, f));
            var back := p.clock.masterRate && ToNs(master) < ToNs(p.prevMaster);
            var n := |p.history.fed|;
            var stepped := n < |q.history.fed| && q.history.fed[n].adjusted.Some?;
            && (q.clock.masterRate <==> !back && !stepped)
            && (q.clock.masterRate ==> q.prevMaster == master && q.prevSync == p.lastSync.value.msg.rx)
  {
    PairBase(p, p.lastSync.value, PeerDelay.Logged(f, p.history.now));
  }

  lemma SteppedLast(cfg: Config, es: seq<Event>, e: Event)
    ensures var before, after := After(cfg, es).history.fed, After(cfg, es + [e]).history.fed;
            SteppedAt(cfg, es + [e], |es|) <==> |before| < |after| && after[|before|].adjusted.Some?
  {
    assert (es + [e])[..|es|] == es && (es + [e])[..|es| + 1] == es + [e];
  }

  lemma MeasuredBased(cfg: Config, es: seq<Event>, f: FollowUp, s: PeerDelay.Logged<Sync>)
    requires Told(After(cfg, es), cfg, es)
    requires Measurable(After(cfg, es), f) && After(cfg, es).lastSync == Some(s)
    requires MeasuredAt(cfg, es + [RxFollowUp(f)], s.at, |es|)
    ensures Based(After(cfg, es + [RxFollowUp(f)]), cfg, es + [RxFollowUp(f)])
  {
    var p, es' := After(cfg, es), es + [RxFollowUp(f)];
    RunHolds(cfg, es, s);
    assert es'[s.at] == es[s.at];
    AfterOne(cfg, es, RxFollowUp(f));
    FollowUpBase(p, f);
    NewMaster(p, es, f);
    SteppedLast(cfg, es, RxFollowUp(f));
    BaseMoves(cfg, es, RxFollowUp(f), s.at);
  }

  // the pair

  lemma NewOffset(es: seq<Event>, i: nat, j: nat)
    requires PairAt(es, i, j)
    ensures OffsetMeant(es, i, j, OffsetNs(es[i].s.rx, MasterAt(es, j)))
  {
    var arrival := es[i].s.rx;
    if SoundAt(es, j) && Abs(Value(arrival) as real - TruthAt(es, j)) <= 9223372036854775805.0 {
      OffsetIsClose(DelayAt(es[..j]), LinkAt(es[..j]).1, es[j].f, arrival);
    }
  }

  lemma MasterAtIsClose(es: seq<Event>, i: nat, j: nat)
    requires PairAt(es, i, j) && SoundAt(es, j)
    ensures Abs(Value(MasterAt(es, j)) as real - TruthAt(es, j)) < 2.0
  {
    MasterIsClose(DelayAt(es[..j]), LinkAt(es[..j]).1, es[j].f);
  }

  /** The exact rate of the 64-bit times is that of the true times to within four nanoseconds. */
  lemma ExactIsMeant(es: seq<Event>, i: nat, j: nat, k: nat, l: nat, ratio: real)
    requires PairAt(es, i, j) && PairAt(es, k, l) && RateExact(es, i, j, k, l, ratio)
    ensures RateMeant(es, i, j, k, l, ratio)
  {
    var arrival, was := Value(es[i].s.rx), Value(es[k].s.rx);
    if SoundAt(es, j) && SoundAt(es, l) && was < arrival < TWO_64
       && TruthAt(es, l) + 4.0 <= TruthAt(es, j) < 18446744073709551613.0 {
      MasterAtIsClose(es, i, j);
      MasterAtIsClose(es, k, l);
      Fits64(arrival);
      Fits64(was);
      Fits64(arrival - was);
      Fits64(Value(MasterAt(es, j)));
      Fits64(Value(MasterAt(es, l)));
    }
  }

  lemma SinceBase(p: Port, es: seq<Event>, e: Event, i: nat, k: nat, l: nat, ratio: real)
    requires p.clock.masterRate && PairAt(es, k, l) && p.prevSync == es[k].s.rx && p.prevMaster == MasterAt(es, l)
    requires PairAt(es + [e], i, |es|) && RatioIs(p, MasterAt(es + [e], |es|), (es + [e])[i].s.rx, ratio)
    ensures PairAt(es + [e], k, l) && RateExact(es + [e], i, |es|, k, l, ratio)
  {
    PairLater(es, e, k, l);
    assert (es + [e])[k] == es[k];
  }

  lemma NewRate(p: Port, cfg: Config, es: seq<Event>, e: Event, i: nat, ratio: real)
    requires Based(p, cfg, es) && PairAt(es + [e], i, |es|)
    requires RatioIs(p, MasterAt(es + [e], |es|), (es + [e])[i].s.rx, ratio)
    requires BaseAt(cfg, es).Some? ==> BaseAt(cfg, es).value.1 < i
    ensures RateTold(cfg, es + [e], i, |es|, ratio)
  {
    var b := BaseAt(cfg, es);
    assert (es + [e])[..|es|] == es;
    if b.Some? {
      SinceBase(p, es, e, i, b.value.0, b.value.1, ratio);
      ExactIsMeant(es + [e], i, |es|, b.value.0, b.value.1, ratio);
    }
  }

  lemma {:induction false} BaseIsHeard(cfg: Config, es: seq<Event>)
    ensures var b := BaseAt(cfg, es); b.Some? ==> HeardAt(cfg, es, b.value.1) && es[b.value.1].RxFollowUp?
    decreases |es|
  {
    if es == [] {
    } else {
      var front, e := es[..|es| - 1], es[|es| - 1];
      var b := BaseAt(cfg, front);
      BaseIsHeard(cfg, front);
      assert front + [e] == es;
      if b.Some? {
        HeardLater(cfg, front, e, b.value.1);
      }
    }
  }

  lemma HeardBefore(cfg: Config, es: seq<Event>, l: nat, i: nat)
    requires l < |es| && HeardAt(cfg, es, l) && i < |es| && LastHeard(cfg, es, i) && es[l] != es[i]
    ensures l < i
  {
  }

  /** The baseline was complete before the Sync now held came. */
  lemma BaseBefore(cfg: Config, es: seq<Event>, i: nat)
    requires i < |es| && es[i].RxSync? && LastHeard(cfg, es, i)
    ensures BaseAt(cfg, es).Some? ==> BaseAt(cfg, es).value.1 < i
  {
    var b := BaseAt(cfg, es);
    BaseIsHeard(cfg, es);
    if b.Some? {
      HeardBefore(cfg, es, b.value.1, i);
    }
  }

  lemma NewStep(es: seq<Event>, i: nat, j: nat, offset: int)
    requires PairAt(es, i, j) && OffsetMeant(es, i, j, offset)
    ensures StepMeant(es, i, j, -offset)
  {
  }

  /** What the servo does for the new pair, told by what it was told before. */
  lemma NewAdjustment(cfg: Config, es: seq<Event>, u: Servo.Update)
    ensures Servo.Steps(After(cfg, es).clock, u) <==>
            !Servo.Idle(u) && Servo.ShouldStep(Servo.Recall(After(cfg, es).history.servo))
  {
    var p := After(cfg, es);
    RunDriven(cfg, es);
    if !Servo.Idle(u) {
      Servo.UpdateRemembers(p.clock, Servo.Recall(p.history.servo), u);
    }
  }

  lemma NewMeant(cfg: Config, es: seq<Event>, f: FollowUp, x: Fed)
    requires Told(After(cfg, es), cfg, es) && Measurable(After(cfg, es), f) && UpdateIs(After(cfg, es), f, x.update)
    requires Some(x.sync) == After(cfg, es).lastSync && x.followUp == PeerDelay.Logged(f, |es|)
    requires x.adjusted == Servo.Adjustment(After(cfg, es).clock, x.update)
    ensures Meant(cfg, es + [RxFollowUp(f)], x)
  {
    var p, i, j, es' := After(cfg, es), x.sync.at, |es|, es + [RxFollowUp(f)];
    assert es'[..j] == es;
    RunHolds(cfg, es, x.sync);
    assert es'[i] == es[i];
    MeasuredExactly(cfg, es, f, i);
    NewMaster(p, es, f);
    NewOffset(es', i, j);
    BaseBefore(cfg, es, i);
    NewRate(p, cfg, es, RxFollowUp(f), i, x.update.ratio);
    NewAdjustment(cfg, es, x.update);
    NewStep(es', i, j, x.update.offset);
  }

  lemma FollowUpMeant(cfg: Config, es: seq<Event>, f: FollowUp, x: Fed)
    requires Told(After(cfg, es), cfg, es)
    requires x in After(cfg, es + [RxFollowUp(f)]).history.fed && x !in After(cfg, es).history.fed
    ensures Meant(cfg, es + [RxFollowUp(f)], x)
  {
    var p, logged := After(cfg, es), PeerDelay.Logged(f, |es|);
    AfterOne(cfg, es, RxFollowUp(f));
    RunPairs(cfg, es);
    DrivesExactly(p, logged);
    PairFrame(p, p.lastSync.value, logged);
    NewMeant(cfg, es, f, x);
  }

  lemma StepLink(p: Port, e: Event)
    ensures var q := Step(p, e);
            q.cfg == p.cfg && (q.delay, q.rate) == if e.LinkMeasured? then (e.delay, e.rate) else (p.delay, p.rate)
  {
    if e.RxFollowUp? && p.lastSync.Some? {
      PairFrame(p, p.lastSync.value, PeerDelay.Logged(e.f, p.history.now));
    }
  }

  lemma OtherKeepsBase(p: Port, e: Event)
    requires !e.RxFollowUp?
    ensures var q := Step(p, e);
            q.clock.masterRate == p.clock.masterRate && q.prevSync == p.prevSync && q.prevMaster == p.prevMaster
  {
  }

  lemma StepBased(cfg: Config, es: seq<Event>, e: Event)
    requires Told(After(cfg, es), cfg, es)
    ensures Based(After(cfg, es + [e]), cfg, es + [e])
  {
    if e.RxFollowUp? {
      FollowUpBased(cfg, es, e.f);
    } else {
      var p, q := After(cfg, es), After(cfg, es + [e]);
      AfterOne(cfg, es, e);
      OtherKeepsBase(p, e);
      NotMeasured(cfg, es, e);
      BasedLater(p, q, cfg, es, e);
    }
  }

  lemma StepTold(cfg: Config, es: seq<Event>, e: Event)
    requires Told(After(cfg, es), cfg, es)
    ensures Told(After(cfg, es + [e]), cfg, es + [e])
  {
    var p, q := After(cfg, es), After(cfg, es + [e]);
    AfterOne(cfg, es, e);
    LinkOne(es, e);
    StepLink(p, e);
    StepBased(cfg, es, e);
    StepTells(p, e);
    forall x | x in q.history.fed
      ensures Meant(cfg, es + [e], x)
    {
      if x in p.history.fed {
        MeantLater(cfg, es, e, x);
      } else {
        FollowUpMeant(cfg, es, e.f, x);
      }
    }
  }

  /** On every run, for every pair that drove the servo: the offset it was given is within
      two nanoseconds of arrival minus the master's time then; the rate is one if there was
      no baseline, and otherwise exactly the rate since the baseline, within four
      nanoseconds of the master's time that passed; and the phase is adjusted exactly when
      the servo is to step, to within two nanoseconds of the master's time.  The port has a
      baseline exactly when the events tell one, and it is that one. */
  lemma {:induction false} RunTold(cfg: Config, es: seq<Event>)
    ensures Told(After(cfg, es), cfg, es)
    decreases |es|
  {
    if es == [] {
    } else {
      var front, e := es[..|es| - 1], es[|es| - 1];
      assert front + [e] == es;
      RunTold(cfg, front);
      StepTold(cfg, front, e);
    }
  }

  /** The master's time advanced since the baseline, if there is one, or neither clock did. */
  ghost predicate Onwards(cfg: Config, es: seq<Event>, i: nat, j: nat)
    requires PairAt(es, i, j)
  {
    match BaseAt(cfg, es[..j])
    case None => true
    case Some((k, l)) =>
      var master, was := ToNs(MasterAt(es, j)), ToNs(MasterAt(es[..j], l));
      master > was || (master == was && ToNs(es[i].s.rx) == ToNs(es[..j][k].s.rx))
  }

  /** On every run a Follow_Up drives the servo exactly when it is measured by a slave, and the
      master's time advanced since the baseline. */
  lemma RunDrives(cfg: Config, es: seq<Event>, f: FollowUp)
    ensures var p, es' := After(cfg, es), es + [RxFollowUp(f)];
            After(cfg, es').history.fed != p.history.fed <==>
            p.role == Slave && exists i: nat :: MeasuredAt(cfg, es', i, |es|) && Onwards(cfg, es', i, |es|)
  {
    var p, es' := After(cfg, es), es + [RxFollowUp(f)];
    RunTold(cfg, es);
    AfterOne(cfg, es, RxFollowUp(f));
    UsedExactly(p, PeerDelay.Logged(f, p.history.now));
    forall i: nat
      ensures MeasuredAt(cfg, es', i, |es|) <==> Measurable(p, f) && p.lastSync.value.at == i
    {
      MeasuredExactly(cfg, es, f, i);
    }
    if Measurable(p, f) {
      OnwardsIs(p, cfg, es, f, p.lastSync.value);
    }
  }

  lemma OnwardsIs(p: Port, cfg: Config, es: seq<Event>, f: FollowUp, s: PeerDelay.Logged<Sync>)
    requires Told(p, cfg, es) && Usable(p, f) && MeasuredAt(cfg, es + [RxFollowUp(f)], s.at, |es|)
    requires p == After(cfg, es) && p.lastSync == Some(s)
    ensures Advances(p, MasterTime(f.origin, CorrectionOf(p, f)), s.msg.rx) <==>
            Onwards(cfg, es + [RxFollowUp(f)], s.at, |es|)
  {
    var es' := es + [RxFollowUp(f)];
    assert es'[..|es|] == es;
    RunHolds(cfg, es, s);
    assert es'[s.at] == es[s.at];
    NewMaster(p, es, f);
  }
}
