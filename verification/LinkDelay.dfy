/** The peer-delay arithmetic: from the four timestamps of an exchange and the
    neighbour rate ratio to the link delay, and how far that is from the truth. */
module LinkDelay {
  import opened MachineInts
  import opened Timestamps

  /** Request sent and response received by us; request received and response sent by the peer. */
  datatype Exchange = Exchange(reqTx: Timestamp, respRx: Timestamp, reqRx: Timestamp, respTx: Timestamp) {
    function Round(): int { Value(respRx) - Value(reqTx) }
    function Turn(): int { Value(respTx) - Value(reqRx) }
  }

  /** The ratio that is applied: only plausible ones are. */
  function Applied(rate: real): real {
    if 0.998 < rate < 1.002 then rate else 1.0
  }

  /** The peer's turn-around, an unsigned 64-bit number, in local time. */
  function Adjust(turn: uint64, rate: real): uint64 {
    if 0.998 < rate < 1.002 then ToUint64(Truncate(Times(turn as real, rate))) else turn
  }

  /** Products as named terms, so that equal factors give equal products. */
  function Times(x: real, y: real): real { x * y }

  function Measured(x: Exchange, rate: real): (delay: int64)
    ensures -0x4000_0000_0000_0000 <= delay <= 0x4000_0000_0000_0000
  {
    Half(ToInt64(x.Round() - Adjust(ToUint64(x.Turn()), rate)))
  }

  /** At d local nanoseconds after the local time mine, the clock of a peer, which shows
      offset at local zero and advances by 1/rho per local nanosecond, is read as theirs,
      to within e. */
  ghost predicate Shows(mine: Timestamp, theirs: Timestamp, d: real, offset: real, rho: real, e: real)
    requires rho > 0.0
  {
    Abs(Value(theirs) as real - (offset + (Value(mine) as real + d) / rho)) <= e
  }

  /** A symmetric path of delay d to such a peer. */
  ghost predicate Symmetric(x: Exchange, d: real, offset: real, rho: real, e: real)
    requires rho > 0.0
  {
    Shows(x.reqTx, x.reqRx, d, offset, rho, e) && Shows(x.respRx, x.respTx, -d, offset, rho, e)
  }

  lemma DivideSum(x: real, y: real, rho: real)
    requires rho > 0.0
    ensures (x + y) / rho == x / rho + y / rho
  {
  }

  lemma QuotientIsPositive(x: real, rho: real)
    requires rho > 0.0 && x >= 0.0
    ensures x / rho >= 0.0
  {
  }

  lemma DivideBound(x: real, y: real, rho: real)
    requires rho > 0.0 && Abs(x) <= y
    ensures Abs(x / rho) <= y / rho
  {
    QuotientIsPositive(y - x, rho);
    QuotientIsPositive(y + x, rho);
    DivideSum(y - x, x, rho);
    DivideSum(y + x, -x, rho);
    DivideSum(x, -x, rho);
  }

  /** Clocks that are read to within a tick, at whatever moment t: the reading of ours counts
      in the time of the peer. */
  lemma ReadingShows(mine: Timestamp, theirs: Timestamp, t: real, d: real, offset: real, rho: real, tick: real)
    requires rho > 0.0 && Abs(Value(mine) as real - t) <= tick
    requires Abs(Value(theirs) as real - (offset + (t + d) / rho)) <= tick
    ensures Shows(mine, theirs, d, offset, rho, tick + tick / rho)
  {
    var off := Value(mine) as real - t;
    DivideSum(t + d, off, rho);
    DivideBound(off, tick, rho);
  }

  /** So every exchange over a symmetric path, sent at t and answered so that the answer
      arrives at u, is symmetric to within a tick of either clock. */
  lemma ReadingsAreSymmetric(x: Exchange, t: real, u: real, d: real, offset: real, rho: real, tick: real)
    requires rho > 0.0 && Abs(Value(x.reqTx) as real - t) <= tick && Abs(Value(x.respRx) as real - u) <= tick
    requires Abs(Value(x.reqRx) as real - (offset + (t + d) / rho)) <= tick
    requires Abs(Value(x.respTx) as real - (offset + (u - d) / rho)) <= tick
    ensures Symmetric(x, d, offset, rho, tick + tick / rho)
  {
    ReadingShows(x.reqTx, x.reqRx, t, d, offset, rho, tick);
    ReadingShows(x.respRx, x.respTx, u, -d, offset, rho, tick);
  }

  const TWO_63_REAL: real := 9223372036854775808.0

  /** The peer answers after it received, and no 64-bit intermediate overflows: not
      the turn-around, not its product with the ratio, which is cast to a signed
      number, not the difference. */
  predicate Sane(x: Exchange, rate: real) {
    && 0 <= x.Turn() < TWO_64 && Times(x.Turn() as real, Applied(rate)) < TWO_63_REAL
    && -TWO_63 <= x.Round() - Truncate(Times(x.Turn() as real, Applied(rate))) < TWO_63
  }

  /** So it is for every exchange that spans less than 36 years. */
  lemma ShortIsSane(x: Exchange, rate: real)
    requires 0 <= x.Round() < 0x1000_0000_0000_0000 && 0 <= x.Turn() < 0x1000_0000_0000_0000
    ensures Sane(x, rate)
  {
    ScaleBound(x.Turn() as real, Applied(rate));
    FloorBound(Times(x.Turn() as real, Applied(rate)));
  }

  /** Between two readings the offset cancels: what passed at the peer, in local time. */
  lemma PassedAtPeer(
    a: (Timestamp, Timestamp), b: (Timestamp, Timestamp), d: real, d': real, offset: real, rho: real, e: real)
    requires rho > 0.0 && Shows(a.0, a.1, d, offset, rho, e) && Shows(b.0, b.1, d', offset, rho, e)
    ensures Abs(Times((Value(b.1) - Value(a.1)) as real, rho) - ((Value(b.0) - Value(a.0)) as real + d' - d))
            <= 2.0 * Times(rho, e)
  {
    PassedScaled((Value(b.1) - Value(a.1)) as real, Value(a.0) as real + d, Value(b.0) as real + d', rho, e);
  }

  lemma PassedScaled(theirs: real, x: real, y: real, rho: real, e: real)
    requires rho > 0.0 && Abs(theirs - (y / rho - x / rho)) <= 2.0 * e
    ensures Abs(Times(theirs, rho) - (y - x)) <= 2.0 * Times(rho, e)
  {
    var u, v := x / rho, y / rho;
    MultipliedBack(x, rho);
    MultipliedBack(y, rho);
    Scaled(theirs, v, u, rho);
    ScaledBound(theirs - (v - u), 2.0 * e, rho);
    Doubled(rho, e);
  }

  lemma MultipliedBack(x: real, rho: real)
    requires rho > 0.0
    ensures Times(x / rho, rho) == x
  {
  }

  lemma Scaled(theirs: real, v: real, u: real, rho: real)
    ensures Times(rho, theirs - (v - u)) == Times(theirs, rho) - (Times(v, rho) - Times(u, rho))
  {
  }

  lemma Doubled(rho: real, e: real)
    ensures Times(rho, 2.0 * e) == 2.0 * Times(rho, e)
  {
  }

  lemma ProductIsPositive(x: real, y: real)
    requires x >= 0.0 && y > 0.0
    ensures Times(x, y) >= 0.0
  {
  }

  lemma ScaledBound(x: real, y: real, rho: real)
    requires rho > 0.0 && Abs(x) <= y
    ensures Abs(Times(rho, x)) <= Times(rho, y)
  {
    ProductIsPositive(y - x, rho);
    ProductIsPositive(y + x, rho);
    assert Times(y - x, rho) == Times(rho, y) - Times(rho, x);
    assert Times(y + x, rho) == Times(rho, y) + Times(rho, x);
  }

  /** So the true turn-around in local time is what the round trip leaves. */
  lemma Cancels(x: Exchange, d: real, offset: real, rho: real, e: real)
    requires rho > 0.0 && Symmetric(x, d, offset, rho, e)
    ensures Abs(Times(x.Turn() as real, rho) - (x.Round() as real - 2.0 * d)) <= 2.0 * Times(rho, e)
  {
    PassedAtPeer((x.reqTx, x.reqRx), (x.respRx, x.respTx), d, -d, offset, rho, e);
  }

  lemma ScaleBound(turn: real, rate: real)
    requires 0.0 <= turn < 1152921504606846976.0 && 0.0 < rate < 1.002
    ensures 0.0 <= Times(turn, rate) < 1155227347616060669.952
  {
    assert turn * rate <= turn * 1.002;
  }

  lemma FloorBound(z: real)
    requires 0.0 <= z < 1155227347616060669.952
    ensures 0 <= z.Floor < 0x2000_0000_0000_0000 && 0.0 <= z - z.Floor as real < 1.0
  {
    assert z.Floor as real <= z;
  }

  lemma TruncateIsClose(z: real)
    requires 0.0 <= z < TWO_63_REAL
    ensures 0 <= Truncate(z) < TWO_63 && 0.0 <= z - Truncate(z) as real < 1.0
  {
    assert z.Floor as real <= z;
  }

  /** Truncation loses less than a nanosecond. */
  lemma AdjustIsClose(turn: uint64, rate: real)
    requires Times(turn as real, Applied(rate)) < TWO_63_REAL
    ensures Adjust(turn, rate) == Truncate(Times(turn as real, Applied(rate)))
    ensures 0.0 <= Times(turn as real, Applied(rate)) - Adjust(turn, rate) as real < 1.0
    ensures 0.998 < rate < 1.002 ==> 0.0 <= Times(turn as real, rate) - Adjust(turn, rate) as real < 1.0
    ensures rate <= 0.998 || rate >= 1.002 ==> Adjust(turn, rate) == turn
  {
    var scaled := Times(turn as real, Applied(rate));
    ProductIsPositive(turn as real, Applied(rate));
    TruncateIsClose(scaled);
    Fits64(Truncate(scaled));
  }

  lemma MeasuredIsHalf(x: Exchange, rate: real)
    requires Sane(x, rate)
    ensures Measured(x, rate) == Half(x.Round() - Adjust(x.Turn(), rate))
  {
    Fits64(x.Turn());
    AdjustIsClose(x.Turn(), rate);
    Fits64(x.Round() - Adjust(x.Turn(), rate));
  }

  lemma HalfIsClose(x: int)
    ensures -1 <= 2 * Half(x) - x <= 1
  {
  }

  lemma Distribute(turn: real, x: real, y: real)
    requires turn >= 0.0 && x >= y
    ensures Times(turn, x) - Times(turn, y) == Times(x - y, turn) >= 0.0
  {
    var k := x - y;
    assert turn * k >= 0.0;
    assert turn * (y + k) == turn * y + turn * k;
  }

  lemma DeviationBound(turn: real, applied: real, rho: real)
    requires turn >= 0.0
    ensures Abs(Times(turn, applied) - Times(turn, rho)) == Times(Abs(applied - rho), turn)
  {
    if applied >= rho {
      Distribute(turn, applied, rho);
    } else {
      Distribute(turn, rho, applied);
    }
  }

  /** How truncation, halving and the readings add up. */
  lemma Combine(round: int, adjusted: int, scaled: real, ideal: real, d: real, slip: real)
    requires 0.0 <= scaled - adjusted as real < 1.0
    requires Abs(ideal - (round as real - 2.0 * d)) <= 2.0 * slip
    ensures Abs(Half(round - adjusted) as real - d) <= Abs(scaled - ideal) / 2.0 + slip + 1.0
  {
    HalfIsClose(round - adjusted);
  }

  /** Whatever the offset between the two clocks, the measured delay is within one
      nanosecond, and the error of a reading in local time, of the true one plus half
      the turn-around times the error of the rate ratio that was applied. */
  lemma ErrorBound(x: Exchange, rate: real, d: real, offset: real, rho: real, e: real)
    requires rho > 0.0 && Symmetric(x, d, offset, rho, e) && Sane(x, rate)
    ensures Abs(Measured(x, rate) as real - d)
            <= Times(Abs(Applied(rate) - rho), x.Turn() as real) / 2.0 + Times(rho, e) + 1.0
  {
    MeasuredIsHalf(x, rate);
    Cancels(x, d, offset, rho, e);
    AdjustIsClose(x.Turn(), rate);
    var turn := x.Turn() as real;
    Combine(x.Round(), Adjust(x.Turn(), rate), Times(turn, Applied(rate)), Times(turn, rho), d, Times(rho, e));
    DeviationBound(turn, Applied(rate), rho);
  }

  /** With equal rates and exact readings a whole-nanosecond delay is measured exactly. */
  lemma ExactWhenRatesEqual(x: Exchange, d: nat, offset: real)
    requires Symmetric(x, d as real, offset, 1.0, 0.0) && Sane(x, 1.0)
    ensures Measured(x, 1.0) == d
  {
    Cancels(x, d as real, offset, 1.0, 0.0);
    MeasuredIsHalf(x, 1.0);
    AdjustIsClose(x.Turn(), 1.0);
    assert Times(x.Turn() as real, 1.0) == x.Turn() as real;
    assert Adjust(x.Turn(), 1.0) == x.Turn();
    assert x.Round() == x.Turn() + 2 * d;
  }
}
