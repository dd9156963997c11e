/** The clock servo: frequency steering by a proportional-integral controller,
    and a phase step on a new set point or after seven large errors in a row. */
module Servo {
  import opened MachineInts

  const PHASE_ERROR_THRESHOLD: int := 1_000_000_000
  const PHASE_ERROR_MAX_COUNT: nat := 6
  const FREQ_LIMIT: real := 250.0
  const INTEGRAL: real := 0.0003
  const PROPORTIONAL: real := 1.0

  /** masterRate and peerRate: the baselines of the two rate measurements are valid. */
  datatype State = State(
    syntonize: bool, newSetPoint: bool, violations: nat, ppm: real, masterRate: bool, peerRate: bool)

  /** One call of setMasterOffset: offset from the master in ns, its rate ratio,
      and Sync messages per second. */
  datatype Update = Update(offset: int, ratio: real, perSecond: real)

  /** The master's own housekeeping calls, which are ignored. */
  predicate Idle(u: Update) { u.offset == 0 && u.ratio == 1.0 }

  predicate Large(offset: int) { offset > PHASE_ERROR_THRESHOLD || offset < -PHASE_ERROR_THRESHOLD }

  predicate Steps(s: State, u: Update) {
    !Idle(u) && s.syntonize && (s.newSetPoint || s.violations > PHASE_ERROR_MAX_COUNT)
  }

  /** The phase adjustment that an update makes, if any. */
  function Adjustment(s: State, u: Update): Option<int> { if Steps(s, u) then Some(-u.offset) else None }

  function Clamp(ppm: real): real {
    if ppm < -FREQ_LIMIT then -FREQ_LIMIT else if ppm > FREQ_LIMIT then FREQ_LIMIT else ppm
  }

  function Steer(ppm: real, u: Update, phase: int): real {
    ppm + (INTEGRAL * u.perSecond * phase as real + PROPORTIONAL * ((u.ratio - 1.0) * 1000000.0))
  }

  function SetMasterOffset(s: State, u: Update): State {
    if Idle(u) || !s.syntonize then s
    else
      var stepped :=
        if Steps(s, u) then s.(newSetPoint := false, violations := 0, masterRate := false, peerRate := false) else s;
      var phase := if Steps(s, u) then 0 else -u.offset;
      if Large(phase) then stepped.(violations := stepped.violations + 1, ppm := Clamp(stepped.ppm))
      else stepped.(violations := 0, ppm := Clamp(Steer(stepped.ppm, u, phase)))
  }

  class Clock {
    const syntonize: bool
    var newSetPoint: bool
    var violations: nat
    var ppm: real
    var masterRate: bool
    var peerRate: bool

    function View(): State
      reads this
    {
      State(syntonize, newSetPoint, violations, ppm, masterRate, peerRate)
    }

    constructor (syntonize: bool)
      ensures View() == Start(syntonize)
    {
      this.syntonize := syntonize;
      newSetPoint, violations, ppm, masterRate, peerRate := false, 0, 0.0, false, false;
    }

    /** Returns the phase adjustment made, if any. */
    method HandleOffset(u: Update) returns (adjusted: Option<int>)
      modifies this
      ensures View() == SetMasterOffset(old(View()), u)
      ensures adjusted == Adjustment(old(View()), u)
    {
      adjusted := None;
      if u.offset == 0 && u.ratio == 1.0 {
        return;
      }
      if syntonize {
        var offset := u.offset;
        if newSetPoint || violations > PHASE_ERROR_MAX_COUNT {
          newSetPoint := false;
          violations := 0;
          adjusted := Some(-offset);
          masterRate := false;
          peerRate := false;
          offset := 0;
        }
        var phase := -offset;
        if Large(phase) {
          violations := violations + 1;
        } else {
          violations := 0;
          ppm := Steer(ppm, u, phase);
        }
        ppm := Clamp(ppm);
      }
    }
  }

  // ---- every run --------------------------------------------------------------

  datatype Event = Offset(u: Update) | NewSetPoint | MasterRateKnown | MasterRateLost | PeerRateKnown | PeerRateLost

  function Start(syntonize: bool): State { State(syntonize, false, 0, 0.0, false, false) }

  function Step(s: State, e: Event): State {
    match e
    case Offset(u) => SetMasterOffset(s, u)
    case NewSetPoint => s.(newSetPoint := true)
    case MasterRateKnown => s.(masterRate := true)
    case MasterRateLost => s.(masterRate := false)
    case PeerRateKnown => s.(peerRate := true)
    case PeerRateLost => s.(peerRate := false)
  }

  function After(es: seq<Event>): State {
    if es == [] then Start(true) else Step(After(es[..|es| - 1]), es[|es| - 1])
  }

  /** The servo's memory told by its inputs alone: is a set point pending, and was
      each effective update so far a large error that did not step the clock? */
  datatype Memory = Memory(pending: bool, large: seq<bool>)

  ghost predicate LastSevenLarge(large: seq<bool>) {
    |large| >= 7 && forall i :: |large| - 7 <= i < |large| ==> large[i]
  }

  ghost predicate ShouldStep(m: Memory) { m.pending || LastSevenLarge(m.large) }

  ghost function Note(m: Memory, u: Update): Memory {
    if Idle(u) then m else Memory(false, m.large + [!ShouldStep(m) && Large(u.offset)])
  }

  ghost function Recall(es: seq<Event>): Memory {
    if es == [] then Memory(false, [])
    else
      var m, e := Recall(es[..|es| - 1]), es[|es| - 1];
      if e.Offset? then Note(m, e.u) else if e.NewSetPoint? then m.(pending := true) else m
  }

  function Trailing(large: seq<bool>): nat {
    if large == [] || !large[|large| - 1] then 0 else 1 + Trailing(large[..|large| - 1])
  }

  lemma {:induction false} TrailingIsRun(large: seq<bool>, n: nat)
    ensures Trailing(large) >= n <==> n <= |large| && forall i :: |large| - n <= i < |large| ==> large[i]
    decreases n
  {
    if n == 0 || large == [] {
    } else {
      var front := large[..|large| - 1];
      TrailingIsRun(front, n - 1);
      assert forall i :: 0 <= i < |front| ==> front[i] == large[i];
    }
  }

  lemma TrailingSnoc(large: seq<bool>, b: bool)
    ensures Trailing(large + [b]) == if b then 1 + Trailing(large) else 0
  {
    assert (large + [b])[..|large|] == large;
  }

  /** The violation counter is the length of the current run of large errors. */
  ghost predicate Remembers(s: State, m: Memory) {
    && s.syntonize && s.newSetPoint == m.pending
    && s.violations == Trailing(m.large) <= 7 && -FREQ_LIMIT <= s.ppm <= FREQ_LIMIT
  }

  /** The last claim of ServoMeaning, for one effective update. */
  ghost predicate StepsRightly(s: State, m: Memory, u: Update) {
    && (Steps(s, u) <==> ShouldStep(m))
    && (Steps(s, u) ==>
          var t := SetMasterOffset(s, u);
          !t.masterRate && !t.peerRate && !t.newSetPoint && t.violations == 0)
  }

  lemma UpdateRemembers(s: State, m: Memory, u: Update)
    requires Remembers(s, m) && !Idle(u)
    ensures StepsRightly(s, m, u)
    ensures Remembers(SetMasterOffset(s, u), Note(m, u))
  {
    TrailingIsRun(m.large, 7);
    TrailingSnoc(m.large, !ShouldStep(m) && Large(u.offset));
    ClampBounds(s.ppm);
    ClampBounds(Steer(s.ppm, u, if Steps(s, u) then 0 else -u.offset));
  }

  lemma ClampBounds(ppm: real)
    ensures -FREQ_LIMIT <= Clamp(ppm) <= FREQ_LIMIT
  {
  }

  lemma StepRemembers(s: State, m: Memory, e: Event)
    requires Remembers(s, m)
    ensures Remembers(Step(s, e), if e.Offset? then Note(m, e.u) else if e.NewSetPoint? then m.(pending := true) else m)
  {
    if e.Offset? && !Idle(e.u) {
      UpdateRemembers(s, m, e.u);
    }
  }

  lemma {:induction false} RunRemembers(es: seq<Event>)
    ensures Remembers(After(es), Recall(es))
    decreases |es|
  {
    if es == [] {
    } else {
      var front, e := es[..|es| - 1], es[|es| - 1];
      RunRemembers(front);
      StepRemembers(After(front), Recall(front), e);
    }
  }

  /** On every run the trim stays within 250 ppm and the violation count within
      seven; an effective update steps the phase exactly when a set point is pending
      or the seven effective updates before it were all large errors; and a step
      invalidates both rate baselines. */
  lemma ServoMeaning(es: seq<Event>, u: Update)
    ensures Remembers(After(es), Recall(es))
    ensures !Idle(u) ==> StepsRightly(After(es), Recall(es), u)
  {
    RunRemembers(es);
    if !Idle(u) {
      UpdateRemembers(After(es), Recall(es), u);
    }
  }

  // ---- how much it steers -------------------------------------------------------

  /** The part of a trim that the clock can be given. */
  function Within250(ppm: real): (r: real)
    ensures -250.0 <= r <= 250.0 && (-250.0 <= ppm <= 250.0 ==> r == ppm)
    ensures ppm < -250.0 ==> r == -250.0
    ensures ppm > 250.0 ==> r == 250.0
  {
    if ppm > 250.0 then 250.0 else if ppm < -250.0 then -250.0 else ppm
  }

  /** The pull of an offset on the trim: 0.0003 ppm a nanosecond at one Sync per second. */
  function Pull(perSecond: real, offset: int): real { 0.0003 * perSecond * offset as real }

  /** The change of the trim in ppm that an effective update asks for, told by the inputs
      alone: nothing for a large error; otherwise the whole rate error and, against the
      offset, its pull, except that a step takes the offset away by itself. */
  ghost function Nudge(m: Memory, u: Update): real {
    var rateError := (u.ratio - 1.0) * 1000000.0;
    if ShouldStep(m) then rateError
    else if u.offset > 1_000_000_000 || u.offset < -1_000_000_000 then 0.0
    else rateError - Pull(u.perSecond, u.offset)
  }

  /** The trim told by the inputs alone. */
  ghost function Trim(es: seq<Event>): real {
    if es == [] then 0.0
    else
      var front, e := es[..|es| - 1], es[|es| - 1];
      if !e.Offset? || Idle(e.u) then Trim(front) else Within250(Trim(front) + Nudge(Recall(front), e.u))
  }

  lemma PullOut(perSecond: real, offset: int)
    ensures Pull(perSecond, -offset) == -Pull(perSecond, offset) && Pull(perSecond, 0) == 0.0
  {
  }

  lemma SteerIs(ppm: real, u: Update, phase: int)
    ensures Steer(ppm, u, phase) == ppm + (u.ratio - 1.0) * 1000000.0 + Pull(u.perSecond, phase)
  {
  }

  lemma UpdateTrims(s: State, m: Memory, u: Update)
    requires Remembers(s, m) && !Idle(u)
    ensures SetMasterOffset(s, u).ppm == Within250(s.ppm + Nudge(m, u))
  {
    UpdateRemembers(s, m, u);
    PullOut(u.perSecond, u.offset);
    SteerIs(s.ppm, u, 0);
    SteerIs(s.ppm, u, -u.offset);
  }

  lemma StepTrims(s: State, m: Memory, e: Event)
    requires Remembers(s, m)
    ensures Step(s, e).ppm == if !e.Offset? || Idle(e.u) then s.ppm else Within250(s.ppm + Nudge(m, e.u))
  {
    if e.Offset? && !Idle(e.u) {
      UpdateTrims(s, m, e.u);
    }
  }

  /** On every run the trim is the sum of these changes, cut to 250 ppm after each. */
  lemma {:induction false} RunTrim(es: seq<Event>)
    ensures After(es).ppm == Trim(es)
    decreases |es|
  {
    if es == [] {
    } else {
      var front, e := es[..|es| - 1], es[|es| - 1];
      RunTrim(front);
      RunRemembers(front);
      StepTrims(After(front), Recall(front), e);
    }
  }

  lemma AfterOne(es: seq<Event>, e: Event)
    ensures After(es + [e]) == Step(After(es), e)
  {
    assert (es + [e])[..|es|] == es;
  }

  /** So a clock without an offset is at the master's rate after one update: if the trim it
      needs is within the limit, and the ratio shows what it still lacks, it gets that. */
  lemma RateErrorRemoved(es: seq<Event>, u: Update, needed: real)
    requires -250.0 <= needed <= 250.0 && u.offset == 0
    requires u.ratio == 1.0 + (needed - After(es).ppm) / 1000000.0
    ensures After(es + [Offset(u)]).ppm == needed
  {
    RunRemembers(es);
    StepTrims(After(es), Recall(es), Offset(u));
    AfterOne(es, Offset(u));
    PullOut(u.perSecond, 0);
  }

  /** And at the master's rate the trim moves against the offset, by what the offset and the
      rate of Syncs say, unless the update steps or the error is large. */
  lemma OffsetSteered(es: seq<Event>, u: Update)
    requires u.ratio == 1.0 && !ShouldStep(Recall(es)) && -1_000_000_000 <= u.offset <= 1_000_000_000
    ensures After(es + [Offset(u)]).ppm == Within250(After(es).ppm - Pull(u.perSecond, u.offset))
  {
    RunRemembers(es);
    StepTrims(After(es), Recall(es), Offset(u));
    AfterOne(es, Offset(u));
    PullOut(u.perSecond, 0);
  }

  // ---- the closed loop ----------------------------------------------------------------

  function RateError(u: Update): real { (u.ratio - 1.0) * 1000000.0 }

  /** The drift between two Syncs, in nanoseconds, that the limit of the trim leaves in either
      direction to a clock that needs this trim. */
  function Reach(needed: real, perSecond: real): real
    requires perSecond > 0.0
  {
    (250.0 - Abs(needed)) / perSecond * 1000.0
  }

  /** A clock under the servo: the trim at which it runs at the master's rate, Syncs per
      second, and, in nanoseconds, how wrong an offset may be, how far the clock would
      drift between two Syncs if it were trimmed by the rate error it was told, and how
      much it drifts by itself. */
  datatype Plant = Plant(needed: real, perSecond: real, eps: real, eta: real, wander: real) {
    predicate Proper() { perSecond > 0.0 && eps >= 0.0 && eta >= 0.0 && wander >= 0.0 }

    /** Nanoseconds gained on the master between two Syncs, 10^9 / perSecond apart. */
    function Drift(ppm: real): real
      requires Proper()
    {
      (ppm - needed) / perSecond * 1000.0
    }

    /** What is left of the offset in the end. */
    function Floor(): real { eps + (eta + wander) * 10.0 / 3.0 }

    /** Offsets up to x are not large errors, and the trims they ask for are within the limit. */
    predicate Room(x: real)
      requires Proper()
    {
      x + eps <= 1000000000.0 && 0.3 * (x + eps) + eta <= Reach(needed, perSecond)
    }
  }

  /** An update at the true offset x under the trim ppm. */
  predicate Observed(plant: Plant, x: real, ppm: real, u: Update)
    requires plant.Proper()
  {
    && u.perSecond == plant.perSecond && Abs(u.offset as real - x) <= plant.eps
    && Abs(plant.Drift(ppm + RateError(u))) <= plant.eta
  }

  /** Events that touch neither the trim nor the phase. */
  predicate Passive(es: seq<Event>) { forall e :: e in es ==> !e.Offset? && !e.NewSetPoint? }

  /** What the servo is told from one Sync to the next, and the true offset at the next. */
  datatype Turn = Turn(before: seq<Event>, u: Update, next: real) {
    function Told(): seq<Event> { before + [Offset(u)] }
  }

  function AllTold(ts: seq<Turn>): seq<Event> { if ts == [] then [] else ts[0].Told() + AllTold(ts[1..]) }

  /** The true offset in the end. */
  function Final(x: real, ts: seq<Turn>): real
    decreases |ts|
  {
    if ts == [] then x else Final(ts[0].next, ts[1..])
  }

  /** The true offset at the next Sync, but for what the clock drifts by itself. */
  ghost function Ahead(plant: Plant, es: seq<Event>, x: real): real
    requires plant.Proper()
  {
    x + plant.Drift(After(es).ppm)
  }

  /** An update that shows the true offset x, and what the new trim makes of it. */
  ghost predicate Moves(plant: Plant, es: seq<Event>, x: real, t: Turn)
    requires plant.Proper()
  {
    && Passive(t.before) && Observed(plant, x, After(es).ppm, t.u)
    && Abs(t.next - Ahead(plant, es + t.Told(), x)) <= plant.wander
  }

  /** Updates that each show what the trim before it made of the offset. */
  ghost predicate Follows(plant: Plant, es: seq<Event>, x: real, ts: seq<Turn>)
    requires plant.Proper()
    decreases |ts|
  {
    ts != [] ==> Moves(plant, es, x, ts[0]) && Follows(plant, es + ts[0].Told(), ts[0].next, ts[1..])
  }

  function Pow7(n: nat): (p: real)
    ensures 0.0 < p <= 1.0
  {
    if n == 0 then 1.0 else 0.7 * Pow7(n - 1)
  }

  /** The pull of an offset takes back three tenths of it until the next Sync. */
  lemma PullDrifts(plant: Plant, ppm: real, offset: int)
    requires plant.Proper()
    ensures plant.Drift(ppm - Pull(plant.perSecond, offset)) == plant.Drift(ppm) - 0.3 * offset as real
  {
    var r, o := plant.perSecond, offset as real;
    assert Pull(r, offset) == 0.0003 * o * r;
    assert (ppm - 0.0003 * o * r - plant.needed) / r == (ppm - plant.needed) / r - 0.0003 * o * r / r;
    assert 0.0003 * o * r / r == 0.0003 * o;
  }

  lemma DivideOut(x: real, y: real, r: real)
    requires r > 0.0 && x / r <= y / r
    ensures x <= y
  {
    assert x / r * r == x && y / r * r == y;
  }

  lemma Inside(x: real, y: real, r: real)
    requires r > 0.0 && Abs(x / r) <= y / r
    ensures Abs(x) <= y
  {
    if x >= 0.0 {
      DivideOut(x, y, r);
    } else {
      assert -x / r == -(x / r);
      DivideOut(-x, y, r);
    }
  }

  /** A trim that drifts within reach is within the limit. */
  lemma WithinReach(plant: Plant, ppm: real)
    requires plant.Proper() && Abs(plant.Drift(ppm)) <= Reach(plant.needed, plant.perSecond)
    ensures -250.0 <= ppm <= 250.0
  {
    var room, off, r := 250.0 - Abs(plant.needed), ppm - plant.needed, plant.perSecond;
    Thousand(off / r, room / r);
    Inside(off, room, r);
  }

  lemma Thousand(x: real, y: real)
    requires Abs(x * 1000.0) <= y * 1000.0
    ensures Abs(x) <= y
  {
  }

  /** In the loop an effective update is not cut at the limit. */
  lemma NotCut(plant: Plant, x: real, ppm: real, u: Update)
    requires plant.Proper() && Observed(plant, x, ppm, u) && plant.Room(Abs(x))
    ensures Abs(plant.Drift(ppm + RateError(u) - Pull(u.perSecond, u.offset))) <= Reach(plant.needed, plant.perSecond)
    ensures -250.0 <= ppm + RateError(u) - Pull(u.perSecond, u.offset) <= 250.0
    ensures -1_000_000_000 <= u.offset <= 1_000_000_000
  {
    PullDrifts(plant, ppm + RateError(u), u.offset);
    WithinReach(plant, ppm + RateError(u) - Pull(u.perSecond, u.offset));
  }

  lemma StaysSmall(m: Memory, u: Update)
    requires if ShouldStep(m) then !Idle(u) else !Large(u.offset)
    ensures !ShouldStep(Note(m, u))
  {
    var large := Note(m, u).large;
    assert !Idle(u) ==> !large[|large| - 1];
  }

  lemma RecallOne(es: seq<Event>, u: Update)
    ensures Recall(es + [Offset(u)]) == Note(Recall(es), u)
  {
    assert (es + [Offset(u)])[..|es|] == es;
  }

  /** One turn of the loop leaves seven tenths of the offset, and what was measured wrong;
      and the clock drifts within reach. */
  lemma OneTurn(plant: Plant, es: seq<Event>, x: real, u: Update)
    requires plant.Proper() && !ShouldStep(Recall(es))
    requires Observed(plant, x, After(es).ppm, u) && plant.Room(Abs(x))
    ensures Abs(Ahead(plant, es + [Offset(u)], x)) <= 0.7 * Abs(x) + 0.3 * plant.eps + plant.eta
    ensures Abs(plant.Drift(After(es + [Offset(u)]).ppm)) <= Reach(plant.needed, plant.perSecond)
    ensures !ShouldStep(Recall(es + [Offset(u)]))
  {
    var ppm, e := After(es).ppm, Offset(u);
    RunRemembers(es);
    AfterOne(es, e);
    RecallOne(es, u);
    NotCut(plant, x, ppm, u);
    StaysSmall(Recall(es), u);
    if !Idle(u) {
      UpdateTrims(After(es), Recall(es), u);
      PullDrifts(plant, ppm + RateError(u), u.offset);
      SevenTenths(x, u.offset as real, plant.Drift(ppm + RateError(u)), plant);
    }
  }

  lemma SevenTenths(x: real, told: real, drift: real, plant: Plant)
    requires Abs(told - x) <= plant.eps && Abs(drift) <= plant.eta
    ensures Abs(x + (drift - 0.3 * told)) <= 0.7 * Abs(x) + 0.3 * plant.eps + plant.eta
  {
  }

  lemma LessRoom(plant: Plant, x: real, y: real)
    requires plant.Proper() && x <= y && plant.Room(y)
    ensures plant.Room(x)
  {
  }

  /** The bound of one turn, from a bound on the offset. */
  lemma TurnBound(plant: Plant, x: real, ahead: real, y: real, start: real)
    requires Abs(x) <= start + plant.Floor() && Abs(ahead) <= 0.7 * Abs(x) + 0.3 * plant.eps + plant.eta
    requires Abs(y - ahead) <= plant.wander
    ensures Abs(y) <= 0.7 * start + plant.Floor()
  {
  }

  /** Seven tenths, as a named term. */
  function Less(start: real): real { 0.7 * start }

  /** A loop whose offset is at most start above what is measured wrong. */
  ghost predicate Closed(plant: Plant, es: seq<Event>, x: real, start: real)
    requires plant.Proper()
  {
    && !ShouldStep(Recall(es))
    && start >= 0.0 && Abs(x) <= start + plant.Floor() && plant.Room(start + plant.Floor())
  }

  lemma {:induction false} PassiveKeeps(es: seq<Event>, more: seq<Event>)
    requires Passive(more)
    ensures After(es + more).ppm == After(es).ppm && Recall(es + more) == Recall(es)
    decreases |more|
  {
    if more == [] {
      assert es + more == es;
    } else {
      var front, e := more[..|more| - 1], more[|more| - 1];
      PassiveKeeps(es, front);
      assert e in more;
      assert (es + more)[..|es + more| - 1] == es + front;
    }
  }

  lemma TurnCloses(plant: Plant, es: seq<Event>, x: real, t: Turn, start: real)
    requires plant.Proper() && Closed(plant, es, x, start) && Moves(plant, es, x, t)
    ensures Closed(plant, es + t.Told(), t.next, Less(start))
    ensures Abs(plant.Drift(After(es + t.Told()).ppm)) <= Reach(plant.needed, plant.perSecond)
  {
    PassiveKeeps(es, t.before);
    assert es + t.Told() == es + t.before + [Offset(t.u)];
    LessRoom(plant, Abs(x), start + plant.Floor());
    OneTurn(plant, es + t.before, x, t.u);
    TurnBound(plant, x, Ahead(plant, es + t.Told(), x), t.next, start);
    LessRoom(plant, 0.7 * start + plant.Floor(), start + plant.Floor());
  }

  /** The first turn after a step, which is told no rate: the drift is not seen, as if it were
      what is measured wrong. */
  lemma BlindTurn(plant: Plant, drift: real, es: seq<Event>, before: seq<Event>, x: real, u: Update)
    requires plant.Proper() && Passive(before) && !ShouldStep(Recall(es))
    requires Abs(plant.Drift(After(es).ppm)) <= drift && plant.(eta := drift).Room(Abs(x))
    requires u.perSecond == plant.perSecond && u.ratio == 1.0 && Abs(u.offset as real - x) <= plant.eps
    ensures Abs(Ahead(plant, es + before + [Offset(u)], x)) <= 0.7 * Abs(x) + 0.3 * plant.eps + drift
    ensures Abs(plant.Drift(After(es + before + [Offset(u)]).ppm)) <= Reach(plant.needed, plant.perSecond)
    ensures !ShouldStep(Recall(es + before + [Offset(u)]))
  {
    PassiveKeeps(es, before);
    OneTurn(plant.(eta := drift), es + before, x, u);
  }

  /** A step is told no rate either, and leaves the trim alone. */
  lemma StepTurn(es: seq<Event>, before: seq<Event>, u: Update)
    requires Passive(before) && ShouldStep(Recall(es)) && u.offset != 0 && u.ratio == 1.0
    ensures After(es + before + [Offset(u)]).ppm == After(es).ppm
    ensures !ShouldStep(Recall(es + before + [Offset(u)]))
  {
    var log := es + before;
    PassiveKeeps(es, before);
    RunRemembers(log);
    AfterOne(log, Offset(u));
    RecallOne(log, u);
    UpdateTrims(After(log), Recall(log), u);
    StaysSmall(Recall(log), u);
  }

  lemma ToldOn(es: seq<Event>, ts: seq<Turn>)
    ensures ts == [] ==> es + AllTold(ts) == es
    ensures ts != [] ==> es + AllTold(ts) == es + ts[0].Told() + AllTold(ts[1..])
  {
  }

  lemma FollowsOn(plant: Plant, es: seq<Event>, x: real, t: Turn, ts: seq<Turn>)
    requires plant.Proper() && Moves(plant, es, x, t) && Follows(plant, es + t.Told(), t.next, ts)
    ensures Follows(plant, es, x, [t] + ts) && es + AllTold([t] + ts) == es + t.Told() + AllTold(ts)
  {
    assert ([t] + ts)[1..] == ts;
  }

  /** The closed loop: whatever the updates, with offsets and rates measured to within the
      bounds, the offset shrinks to seven tenths at every Sync, down to what is measured
      wrong, and the phase is never to be stepped. */
  lemma {:induction false} LoopContracts(plant: Plant, es: seq<Event>, x: real, ts: seq<Turn>, start: real)
    requires plant.Proper() && Closed(plant, es, x, start) && Follows(plant, es, x, ts)
    ensures Closed(plant, es + AllTold(ts), Final(x, ts), Shrunk(|ts|, start))
    decreases |ts|
  {
    ToldOn(es, ts);
    if ts == [] {
    } else {
      TurnCloses(plant, es, x, ts[0], start);
      LoopContracts(plant, es + ts[0].Told(), ts[0].next, ts[1..], Less(start));
    }
  }

  /** n times to seven tenths. */
  function Shrunk(n: nat, start: real): real { if n == 0 then start else Shrunk(n - 1, Less(start)) }

  lemma {:induction false} ShrunkIs(n: nat, start: real)
    ensures Shrunk(n, start) == Pow7(n) * start
    decreases n
  {
    if n == 0 {
    } else {
      ShrunkIs(n - 1, Less(start));
      Regroup(Pow7(n - 1), start);
    }
  }

  lemma Regroup(p: real, start: real)
    ensures p * (0.7 * start) == 0.7 * p * start
  {
  }

  lemma {:induction false} Pow7Sum(m: nat, n: nat)
    ensures Pow7(m + n) == Pow7(m) * Pow7(n)
  {
    if m == 0 {
    } else {
      Pow7Sum(m - 1, n);
      assert 0.7 * (Pow7(m - 1) * Pow7(n)) == 0.7 * Pow7(m - 1) * Pow7(n);
    }
  }

  lemma Pow7Of32()
    ensures Pow7(32) <= 0.0000125
  {
    assert Pow7(4) == 0.2401 by { assert Pow7(2) == 0.49; assert Pow7(3) == 0.7 * Pow7(2); }
    Pow7Sum(4, 4);
    Pow7Sum(8, 8);
    Pow7Sum(16, 16);
    assert Pow7(8) <= 0.0577;
    Squares(Pow7(8), 0.0577);
    assert Pow7(16) <= 0.00334;
    Squares(Pow7(16), 0.00334);
  }

  lemma Squares(x: real, y: real)
    requires 0.0 < x <= y
    ensures x * x <= y * y
  {
    assert x * x <= x * y <= y * y;
  }

  /** At eight Syncs per second, a trim of up to 100 ppm, offsets told to within 2 ns and
      rates to within 4 ns of drift, any offset of up to 60 us is below 17 ns after 32 Syncs,
      that is four seconds. */
  lemma TypicalLoop(needed: real, es: seq<Event>, x: real, ts: seq<Turn>)
    requires -100.0 <= needed <= 100.0 && Abs(x) <= 60000.0 && |ts| == 32 && !ShouldStep(Recall(es))
    requires Follows(Plant(needed, 8.0, 2.0, 4.0, 0.0), es, x, ts)
    ensures Abs(Final(x, ts)) <= 17.0
  {
    var plant := Plant(needed, 8.0, 2.0, 4.0, 0.0);
    LoopContracts(plant, es, x, ts, 60000.0);
    ShrunkIs(32, 60000.0);
    Pow7Of32();
  }

  /** Whether the two rate baselines are valid, told by the inputs alone. */
  ghost function Baselines(es: seq<Event>): (bool, bool) {
    if es == [] then (false, false)
    else
      var front, e := es[..|es| - 1], es[|es| - 1];
      var (master, peer) := Baselines(front);
      match e
      case Offset(u) => if !Idle(u) && ShouldStep(Recall(front)) then (false, false) else (master, peer)
      case NewSetPoint => (master, peer)
      case MasterRateKnown => (true, peer)
      case MasterRateLost => (false, peer)
      case PeerRateKnown => (master, true)
      case PeerRateLost => (master, false)
  }

  lemma {:induction false} RunBaselines(es: seq<Event>)
    ensures (After(es).masterRate, After(es).peerRate) == Baselines(es)
    decreases |es|
  {
    if es == [] {
    } else {
      var front, e := es[..|es| - 1], es[|es| - 1];
      RunBaselines(front);
      RunRemembers(front);
      if e.Offset? && !Idle(e.u) {
        UpdateRemembers(After(front), Recall(front), e.u);
      }
    }
  }

  /** A clock that is ahead of a master no faster than it is slowed down, one that is
      behind a master no slower than it is sped up, down to the limit of the trim. */
  lemma SteersTowardMaster(s: State, u: Update)
    requires s.syntonize && !Idle(u) && !Steps(s, u) && !Large(u.offset) && u.perSecond > 0.0
    requires -FREQ_LIMIT <= s.ppm <= FREQ_LIMIT
    ensures u.offset >= 0 && u.ratio <= 1.0 ==>
            var t := SetMasterOffset(s, u); t.ppm < s.ppm || t.ppm == s.ppm == -FREQ_LIMIT
    ensures u.offset <= 0 && u.ratio >= 1.0 ==>
            var t := SetMasterOffset(s, u); t.ppm > s.ppm || t.ppm == s.ppm == FREQ_LIMIT
  {
    assert SetMasterOffset(s, u).ppm == Clamp(Steer(s.ppm, u, -u.offset));
    SignOfProduct(u.perSecond, (-u.offset) as real);
  }

  lemma SignOfProduct(perSecond: real, phase: real)
    requires perSecond > 0.0
    ensures phase > 0.0 ==> INTEGRAL * perSecond * phase > 0.0
    ensures phase < 0.0 ==> INTEGRAL * perSecond * phase < 0.0
    ensures phase == 0.0 ==> INTEGRAL * perSecond * phase == 0.0
  {
  }

  /** A report of no offset at the same rate changes nothing, not even a pending set point. */
  lemma NothingToDo(s: State, u: Update)
    requires u.offset == 0 && u.ratio == 1.0
    ensures SetMasterOffset(s, u) == s && !Steps(s, u)
  {
  }

  /** Without syntonization nothing is steered. */
  lemma NotSyntonized(s: State, u: Update)
    requires !s.syntonize
    ensures SetMasterOffset(s, u) == s && !Steps(s, u)
  {
  }
}
