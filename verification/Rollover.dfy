/** The software extension of the wireless adapter's 32-bit counter: from the low
    32 bits of each reading, which may arrive slightly out of order, recover the
    unbounded counter. */
module Rollover {
  import opened MachineInts

  /** Value of the last-seen register before the first reading. */
  const UNSEEN: int := 0xFFFF_FFFF_FFFF_FFFF
  const QUARTER: int := 0x4000_0000

  datatype Extender = Extender(last: uint64, ext: uint32)

  const FRESH: Extender := Extender(UNSEEN, 0)

  /** One call: the new registers and the returned 64-bit count. */
  function Extend(e: Extender, gp2: uint64): (Extender, uint64) {
    var low: uint64 := gp2 % TWO_32;
    if e.last == UNSEEN then (Extender(low, e.ext), low)
    else
      var ext: uint32 := if low < QUARTER && e.last > 3 * QUARTER then (e.ext + 1) % TWO_32 else e.ext;
      if e.last < QUARTER && low > 3 * QUARTER then
        (Extender(e.last, ext), ToUint64(low + (ext - 1) * TWO_32))
      else
        (Extender(low, ext), ToUint64(low + ext * TWO_32))
  }

  class Adapter {
    var last: uint64
    var ext: uint32

    function View(): Extender
      reads this
    {
      Extender(last, ext)
    }

    constructor ()
      ensures View() == FRESH
    {
      last, ext := UNSEEN, 0;
    }

    method CalcRollover(gp2: uint64) returns (count: uint64)
      modifies this
      ensures (View(), count) == Extend(old(View()), gp2)
    {
      var low: uint64 := gp2 % TWO_32;
      if last == UNSEEN {
        last := low;
        return low;
      }
      if low < QUARTER && last > 3 * QUARTER {
        ext := (ext + 1) % TWO_32;
      }
      var localExt: int := ext;
      if last < QUARTER && low > 3 * QUARTER {
        localExt := localExt - 1;
      } else {
        last := low;
      }
      count := ToUint64(low + localExt * TWO_32);
    }
  }

  /** The counts returned for a run of readings of which only the low 32 bits are seen. */
  function Counts(e: Extender, readings: seq<uint64>): (r: seq<uint64>)
    ensures |r| == |readings|
    decreases |readings|
  {
    if readings == [] then []
    else
      var (next, count) := Extend(e, readings[0] % TWO_32);
      [count] + Counts(next, readings[1..])
  }

  /** Each reading is at most back below and at most fwd above the largest before it. */
  predicate Near(largest: int, readings: seq<uint64>, back: nat, fwd: nat)
    decreases |readings|
  {
    readings != [] ==>
      && largest - back <= readings[0] <= largest + fwd
      && Near(if readings[0] > largest then readings[0] else largest, readings[1..], back, fwd)
  }

  predicate Run(readings: seq<uint64>, back: nat, fwd: nat) {
    readings == [] || (readings[0] < TWO_32 && Near(readings[0], readings[1..], back, fwd))
  }

  /** The registers hold the low and high halves of a recent reading in the
      same 2^32-period as the largest one. */
  ghost predicate Tracks(e: Extender, recent: int, largest: int, back: nat) {
    && e.last == recent % TWO_32 && e.ext == recent / TWO_32 == largest / TWO_32
    && largest - back <= recent <= largest
  }

  lemma ExtendTracks(e: Extender, recent: int, largest: int, t: uint64, back: nat, fwd: nat)
    returns (recent': int)
    requires back + fwd < QUARTER && 0 <= recent && Tracks(e, recent, largest, back)
    requires largest - back <= t <= largest + fwd
    ensures Extend(e, t % TWO_32).1 == t
    ensures 0 <= recent' && Tracks(Extend(e, t % TWO_32).0, recent', if t > largest then t else largest, back)
  {
    recent' := if t / TWO_32 < e.ext then recent else t;
    assert -QUARTER < t - recent < QUARTER;
    ExtendsOne(e, recent, t);
    SamePeriod(t, recent);
    if t <= largest && t / TWO_32 == e.ext {
      assert largest / TWO_32 == t / TWO_32;
    }
  }

  /** One reading close to the one in the registers. */
  lemma ExtendsOne(e: Extender, recent: int, t: uint64)
    requires 0 <= recent && e.last == recent % TWO_32 && e.ext == recent / TWO_32 && -QUARTER < t - recent < QUARTER
    ensures Extend(e, t % TWO_32).1 == t
    ensures Extend(e, t % TWO_32).0 == if t / TWO_32 < e.ext then e else Extender(t % TWO_32, t / TWO_32)
  {
    SamePeriod(t, recent);
    Fits64(t);
    assert t % TWO_32 % TWO_32 == t % TWO_32;
  }

  /** Two counts less than a quarter period apart are in the same period or in neighbouring
      ones, and then at their ends. */
  lemma SamePeriod(x: int, y: int)
    requires -QUARTER < x - y < QUARTER
    ensures x == x / TWO_32 * TWO_32 + x % TWO_32 && y == y / TWO_32 * TWO_32 + y % TWO_32
    ensures x / TWO_32 == y / TWO_32
            || (x / TWO_32 == y / TWO_32 + 1 && x % TWO_32 < QUARTER && y % TWO_32 > 3 * QUARTER)
            || (x / TWO_32 == y / TWO_32 - 1 && y % TWO_32 < QUARTER && x % TWO_32 > 3 * QUARTER)
  {
  }

  lemma {:induction false} NearIsExact(
    e: Extender, recent: int, largest: int, readings: seq<uint64>, back: nat, fwd: nat)
    requires back + fwd < QUARTER && 0 <= recent && Tracks(e, recent, largest, back)
    requires Near(largest, readings, back, fwd)
    ensures Counts(e, readings) == readings
    decreases |readings|
  {
    if readings == [] {
    } else {
      var t := readings[0];
      var recent' := ExtendTracks(e, recent, largest, t, back, fwd);
      NearIsExact(Extend(e, t % TWO_32).0, recent', if t > largest then t else largest, readings[1..], back, fwd);
    }
  }

  /** Every run whose backward and forward excursions sum to less than a quarter
      period is recovered exactly, reading by reading. */
  lemma RecoversCounter(readings: seq<uint64>, back: nat, fwd: nat)
    requires back + fwd < 0x4000_0000 && Run(readings, back, fwd)
    ensures Counts(FRESH, readings) == readings
  {
    if readings != [] {
      var t := readings[0];
      var e := Extend(FRESH, t % TWO_32).0;
      NearIsExact(e, t, t, readings[1..], back, fwd);
    }
  }

  /** The bound is sharp for every pair of excursions that lets the counter
      advance: below a quarter period every run is recovered, and from a quarter
      period on some run is not. */
  lemma WindowIsSharp(back: nat, fwd: nat)
    requires fwd >= 1
    ensures (forall readings :: Run(readings, back, fwd) ==> Counts(FRESH, readings) == readings)
            <==> back + fwd < 0x4000_0000
  {
    if back + fwd < QUARTER {
      forall readings | Run(readings, back, fwd)
        ensures Counts(FRESH, readings) == readings
      {
        RecoversCounter(readings, back, fwd);
      }
    } else {
      var bad := MissedRollover(back, fwd);
    }
  }

  /** The failing family: the largest reading is just below the rollover, an
      older one arrives exactly at three quarters, and the next is just past it. */
  lemma MissedRollover(back: nat, fwd: nat) returns (bad: seq<uint64>)
    requires fwd >= 1 && back + fwd >= 0x4000_0000
    ensures Run(bad, back, fwd) && Counts(FRESH, bad) != bad
  {
    var step := if fwd < QUARTER then fwd else QUARTER;
    var m: uint64, l: uint64, t: uint64 := TWO_32 - step, 3 * QUARTER, TWO_32;
    bad := [m, l, t];
    assert bad[1..] == [l, t] && [l, t][1..] == [t] && [t][1..] == [];
    assert Near(m, [t], back, fwd);
    var e1, e2 := Extender(m, 0), Extender(l, 0);
    assert Extend(FRESH, m % TWO_32) == (e1, m);
    assert Extend(e1, l % TWO_32) == (e2, l);
    assert Counts(e2, [t])[0] == Extend(e2, t % TWO_32).1 == 0;
    assert Counts(FRESH, bad)[1..][1..] == Counts(e2, [t]);
  }
}
