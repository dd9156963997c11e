/** The three-field Timestamp of the daemon: nanoseconds, low and high words of
    the seconds.  Its arithmetic with carries and borrows is related to plain
    integer arithmetic on the nanosecond count. */
module Timestamps {
  import opened MachineInts

  const NS: int := 1_000_000_000
  const INVALID_VERSION: int := 0xFF
  /** One past the largest nanosecond count whose seconds fit in 48 bits. */
  const SPAN: int := 0x1_0000_0000_0000 * 1_000_000_000

  datatype Timestamp = Timestamp(nanoseconds: uint32, secondsLs: uint32, secondsMs: uint16, version: uint8)

  function Seconds(ts: Timestamp): (s: int)
    ensures 0 <= s < TWO_48
  {
    ts.secondsMs * TWO_32 + ts.secondsLs
  }

  /** The integer a timestamp stands for. */
  function Value(ts: Timestamp): (v: int)
    ensures v >= 0
    ensures Normalized(ts) ==> v < SPAN
  {
    Seconds(ts) * NS + ts.nanoseconds
  }

  predicate Normalized(ts: Timestamp) { ts.nanoseconds < NS }

  /** What the in-place nanosecond arithmetic keeps: one second may stay uncarried. */
  predicate AtMostOneSecond(ts: Timestamp) { ts.nanoseconds <= NS }

  ghost predicate Congruent(x: int, y: int) { (x - y) % SPAN == 0 }

  /** Split a 64-bit seconds count over the two words, as the casts do. */
  function Pack(secs: uint64, nanos: nat, version: uint8): Timestamp {
    Timestamp(nanos % TWO_32, secs % TWO_32, secs / TWO_32 % TWO_16, version)
  }

  function AddNs(ts: Timestamp, ns: uint64): Timestamp {
    var secs := Seconds(ts) + ns / NS;
    var nanos := ts.nanoseconds + ns % NS;
    if nanos > NS then Pack(secs + 1, nanos - NS, ts.version) else Pack(secs, nanos, ts.version)
  }

  function SubNs(ts: Timestamp, ns: uint64): Timestamp {
    var secs := ToUint64(Seconds(ts) - ns / NS);
    var rest := ns % NS;
    if rest > ts.nanoseconds then
      Pack(ToUint64(secs - 1), ts.nanoseconds + NS - rest, ts.version)
    else
      Pack(secs, ts.nanoseconds - rest, ts.version)
  }

  function Set64(ts: Timestamp, value: uint64): Timestamp {
    Timestamp(value % NS, value / NS % TWO_32, value / NS / TWO_32 % TWO_16, ts.version)
  }

  /** TIMESTAMP_TO_NS: a signed 64-bit computation returned as unsigned. */
  function ToNs(ts: Timestamp): uint64 { ToUint64(Value(ts)) }

  function MergedVersion(a: Timestamp, b: Timestamp): uint8 {
    if a.version == b.version then a.version else INVALID_VERSION
  }

  function Plus(a: Timestamp, b: Timestamp): Timestamp {
    var nsSum := (a.nanoseconds + b.nanoseconds) % TWO_32;
    var nsCarry := nsSum < a.nanoseconds || nsSum >= NS;
    var ls := (a.secondsLs + b.secondsLs + if nsCarry then 1 else 0) % TWO_32;
    var lsCarry := ls < a.secondsLs;
    var ms := (a.secondsMs + b.secondsMs + if lsCarry then 1 else 0) % TWO_16;
    Timestamp(if nsCarry then (nsSum - NS) % TWO_32 else nsSum, ls, ms, MergedVersion(a, b))
  }

  /** One seconds word of operator-: the borrow test and the stored word. */
  function SubWord(x: int, y: int, borrow: nat, width: int): (bool, int)
    requires width > 0
  {
    var borrows := borrow > x || x - borrow < y;
    (borrows, if borrows then (x - y - 1) % width else (x - borrow - y) % width)
  }

  function Minus(a: Timestamp, b: Timestamp): Timestamp {
    var nsBorrow := a.nanoseconds < b.nanoseconds;
    var ns := ((if nsBorrow then NS else 0) + a.nanoseconds - b.nanoseconds) % TWO_32;
    var carry := ns > NS;
    var one := if carry then 1 else 0;
    var borrowed := if nsBorrow then 1 else 0;
    var (lsBorrow, ls) := SubWord((one + a.secondsLs) % TWO_32, b.secondsLs, borrowed, TWO_32);
    var (_, ms) := SubWord((one + a.secondsMs) % TWO_16, b.secondsMs, if lsBorrow then borrowed + 1 else 0, TWO_16);
    Timestamp(if carry then ns - NS else ns, ls, ms, MergedVersion(a, b))
  }

  /** A Timestamp that is updated in place. */
  class Cell {
    var nanoseconds: uint32
    var secondsLs: uint32
    var secondsMs: uint16
    var version: uint8

    function View(): Timestamp
      reads this
    {
      Timestamp(nanoseconds, secondsLs, secondsMs, version)
    }

    constructor (ts: Timestamp)
      ensures View() == ts
    {
      nanoseconds, secondsLs, secondsMs, version := ts.nanoseconds, ts.secondsLs, ts.secondsMs, ts.version;
    }

    method Add(ns: uint64)
      modifies this
      ensures View() == AddNs(old(View()), ns)
      ensures old(AtMostOneSecond(View())) ==> AtMostOneSecond(View())
    {
      var secs := Seconds(View()) + ns / NS;
      var nanos := nanoseconds + ns % NS;
      if nanos > NS {
        nanos := nanos - NS;
        secs := secs + 1;
      }
      secondsMs := secs / TWO_32 % TWO_16;
      secondsLs := secs % TWO_32;
      nanoseconds := nanos % TWO_32;
    }

    method Sub(ns: uint64)
      modifies this
      ensures View() == SubNs(old(View()), ns)
      ensures old(AtMostOneSecond(View())) ==> AtMostOneSecond(View())
    {
      var secs: uint64 := ToUint64(Seconds(View()) - ns / NS);
      var nanos: int := nanoseconds;
      if ns % NS > nanos {
        nanos := nanos + NS;
        secs := ToUint64(secs - 1);
      }
      nanos := nanos - ns % NS;
      secondsMs := secs / TWO_32 % TWO_16;
      secondsLs := secs % TWO_32;
      nanoseconds := nanos % TWO_32;
    }

    method Set(value: uint64)
      modifies this
      ensures View() == Set64(old(View()), value)
      ensures Normalized(View()) && Value(View()) == value
    {
      Set64Value(View(), value);
      nanoseconds := value % NS;
      secondsLs := value / NS % TWO_32;
      secondsMs := value / NS / TWO_32 % TWO_16;
    }
  }

  // ---- in-place nanosecond arithmetic ------------------------------------

  lemma ShiftBySpan(x: int, k: int)
    ensures (x + k * SPAN) % SPAN == x % SPAN
  {
    assert x + k * SPAN == (x / SPAN + k) * SPAN + x % SPAN;
  }

  /** A result that is err seconds short, up to whole spans, is right only if err is zero. */
  lemma OffBySeconds(got: int, want: int, err: int, k: int)
    requires 0 <= err < TWO_48 && got == want - err * NS + k * SPAN
    ensures Congruent(got, want) <==> err == 0
  {
    ShiftBySpan(-err * NS, k);
    if err > 0 {
      ShiftBySpan(-err * NS, 1);
    }
  }

  lemma WrapMinusOne(x: int)
    ensures ToUint64(ToUint64(x) - 1) == ToUint64(x - 1)
  {
  }

  lemma PackSeconds(secs: uint64, nanos: nat, version: uint8)
    ensures Seconds(Pack(secs, nanos, version)) == secs % TWO_48
  {
    var hi, lo := secs / TWO_32, secs % TWO_32;
    assert secs == hi / TWO_16 * TWO_48 + (hi % TWO_16 * TWO_32 + lo);
  }

  /** Packing a seconds count, even a wrapped negative one, keeps it modulo the
      span and keeps it exactly when it is a 48-bit number. */
  lemma PackMeaning(secs: int, nanos: nat, version: uint8)
    requires nanos < TWO_32
    ensures var r := Pack(ToUint64(secs), nanos, version);
            && r.nanoseconds == nanos
            && Congruent(Value(r), secs * NS + nanos)
            && (Value(r) == secs * NS + nanos <==> 0 <= secs < TWO_48)
  {
    var r := Pack(ToUint64(secs), nanos, version);
    PackSeconds(ToUint64(secs), nanos, version);
    var k := -(secs / TWO_64) * TWO_16 - ToUint64(secs) / TWO_48;
    assert Seconds(r) == secs + k * TWO_48;
    OffBySeconds(Value(r), secs * NS + nanos, 0, k);
  }

  /** Adding never loses time modulo the 48-bit span, however many nanoseconds are
      uncarried, and is exact precisely when the resulting seconds fit in 48 bits. */
  lemma AddNsMeaning(ts: Timestamp, ns: uint64)
    ensures AtMostOneSecond(ts) ==> AtMostOneSecond(AddNs(ts, ns))
    ensures Congruent(Value(AddNs(ts, ns)), Value(ts) + ns)
    ensures Value(AddNs(ts, ns)) == Value(ts) + ns <==>
            Seconds(ts) + ns / NS + (if ts.nanoseconds + ns % NS > NS then 1 else 0) < TWO_48
  {
    var carry := ts.nanoseconds + ns % NS > NS;
    var secs := Seconds(ts) + ns / NS + if carry then 1 else 0;
    var nanos := ts.nanoseconds + ns % NS - if carry then NS else 0;
    assert ToUint64(secs) == secs;
    assert AddNs(ts, ns) == Pack(ToUint64(secs), nanos, ts.version);
    assert Value(ts) + ns == secs * NS + nanos;
    PackMeaning(secs, nanos, ts.version);
  }

  /** Subtracting never loses time modulo the 48-bit span, and is exact
      precisely when the seconds do not go below zero. */
  lemma SubNsMeaning(ts: Timestamp, ns: uint64)
    ensures AtMostOneSecond(ts) ==> AtMostOneSecond(SubNs(ts, ns))
    ensures Congruent(Value(SubNs(ts, ns)), Value(ts) - ns)
    ensures Value(SubNs(ts, ns)) == Value(ts) - ns <==>
            Seconds(ts) - ns / NS - (if ns % NS > ts.nanoseconds then 1 else 0) >= 0
  {
    var borrow := ns % NS > ts.nanoseconds;
    var secs := Seconds(ts) - ns / NS - if borrow then 1 else 0;
    var nanos := ts.nanoseconds - ns % NS + if borrow then NS else 0;
    WrapMinusOne(Seconds(ts) - ns / NS);
    assert SubNs(ts, ns) == Pack(ToUint64(secs), nanos, ts.version);
    assert Value(ts) - ns == secs * NS + nanos;
    PackMeaning(secs, nanos, ts.version);
  }

  datatype Change = Later(ns: uint64) | Earlier(ns: uint64)

  function Apply(ts: Timestamp, changes: seq<Change>): Timestamp
    decreases |changes|
  {
    if changes == [] then ts
    else match changes[0]
      case Later(n) => Apply(AddNs(ts, n), changes[1..])
      case Earlier(n) => Apply(SubNs(ts, n), changes[1..])
  }

  function Amount(c: Change): int {
    var n: int := c.ns;
    if c.Later? then n else -n
  }

  function SignedSum(changes: seq<Change>): int {
    if changes == [] then 0 else Amount(changes[0]) + SignedSum(changes[1..])
  }

  /** Every intermediate seconds count stays a 48-bit number. */
  predicate SecondsStayInRange(ts: Timestamp, changes: seq<Change>)
    decreases |changes|
  {
    changes == [] ||
    match changes[0]
    case Later(n) =>
      && Seconds(ts) + n / NS + (if ts.nanoseconds + n % NS > NS then 1 else 0) < TWO_48
      && SecondsStayInRange(AddNs(ts, n), changes[1..])
    case Earlier(n) =>
      && Seconds(ts) - n / NS - (if n % NS > ts.nanoseconds then 1 else 0) >= 0
      && SecondsStayInRange(SubNs(ts, n), changes[1..])
  }

  lemma CongruentTrans(x: int, y: int, z: int)
    requires Congruent(x, y) && Congruent(y, z)
    ensures Congruent(x, z)
  {
    var p, q := (x - y) / SPAN, (y - z) / SPAN;
    assert x - z == (p + q) * SPAN;
  }

  /** Any sequence of in-place additions and subtractions, of any length and any
      amounts, is the signed sum modulo the span, and exactly the signed sum while
      the seconds stay in range; it keeps at most one uncarried second. */
  lemma {:induction false} ApplyIsSignedSum(ts: Timestamp, changes: seq<Change>)
    ensures AtMostOneSecond(ts) ==> AtMostOneSecond(Apply(ts, changes))
    ensures Congruent(Value(Apply(ts, changes)), Value(ts) + SignedSum(changes))
    ensures SecondsStayInRange(ts, changes) ==> Value(Apply(ts, changes)) == Value(ts) + SignedSum(changes)
    decreases |changes|
  {
    if changes == [] {
    } else {
      var next;
      match changes[0] {
        case Later(n) => AddNsMeaning(ts, n); next := AddNs(ts, n);
        case Earlier(n) => SubNsMeaning(ts, n); next := SubNs(ts, n);
      }
      ApplyIsSignedSum(next, changes[1..]);
      var rest := SignedSum(changes[1..]);
      assert Congruent(Value(next) + rest, Value(ts) + SignedSum(changes));
      CongruentTrans(Value(Apply(ts, changes)), Value(next) + rest, Value(ts) + SignedSum(changes));
    }
  }

  // ---- operator+ and operator- -------------------------------------------

  predicate LosesCarry(a: Timestamp, b: Timestamp) {
    a.nanoseconds + b.nanoseconds >= NS && b.secondsLs == TWO_32 - 1
  }

  lemma PlusWords(a: Timestamp, b: Timestamp)
    requires Normalized(a) && Normalized(b)
    ensures var r, c := Plus(a, b), if a.nanoseconds + b.nanoseconds >= NS then 1 else 0;
            var l := if a.secondsLs + b.secondsLs + c >= TWO_32 && !LosesCarry(a, b) then 1 else 0;
            && r.nanoseconds == a.nanoseconds + b.nanoseconds - c * NS
            && r.secondsLs == (a.secondsLs + b.secondsLs + c) % TWO_32
            && r.secondsMs == (a.secondsMs + b.secondsMs + l) % TWO_16
  {
  }

  /** operator+ in integers: the seconds lost and the spans dropped. */
  lemma PlusLoss(a: Timestamp, b: Timestamp) returns (lost: int, k: int)
    requires Normalized(a) && Normalized(b)
    ensures Normalized(Plus(a, b))
    ensures lost == if LosesCarry(a, b) then TWO_32 else 0
    ensures Value(Plus(a, b)) == Value(a) + Value(b) - lost * NS + k * SPAN
  {
    PlusWords(a, b);
    var r := Plus(a, b);
    var c := if a.nanoseconds + b.nanoseconds >= NS then 1 else 0;
    var lsSum := a.secondsLs + b.secondsLs + c;
    var l := if lsSum >= TWO_32 && !LosesCarry(a, b) then 1 else 0;
    lost := if LosesCarry(a, b) then TWO_32 else 0;
    assert r.secondsLs == lsSum - l * TWO_32 - lost;
    k := -((a.secondsMs + b.secondsMs + l) / TWO_16);
    assert Seconds(r) == Seconds(a) + Seconds(b) + c - lost + k * TWO_48;
  }

  /** operator+ is addition modulo the span unless a nanosecond carry meets an
      all-ones low word, and then it is exactly 2^32 seconds short. */
  lemma PlusMeaning(a: Timestamp, b: Timestamp)
    requires Normalized(a) && Normalized(b)
    ensures Normalized(Plus(a, b))
    ensures Congruent(Value(Plus(a, b)), Value(a) + Value(b)) <==> !LosesCarry(a, b)
    ensures LosesCarry(a, b) ==> Congruent(Value(Plus(a, b)) + TWO_32 * NS, Value(a) + Value(b))
    ensures Value(Plus(a, b)) == Value(a) + Value(b) <==> !LosesCarry(a, b) && Value(a) + Value(b) < SPAN
  {
    var lost, k := PlusLoss(a, b);
    LossMeaning(Value(Plus(a, b)), Value(a) + Value(b), lost, k);
  }

  lemma LossMeaning(got: int, want: int, lost: int, k: int)
    requires 0 <= got < SPAN && 0 <= want && 0 <= lost < TWO_48
    requires got == want - lost * NS + k * SPAN
    ensures Congruent(got, want) <==> lost == 0
    ensures Congruent(got + lost * NS, want)
    ensures got == want <==> lost == 0 && want < SPAN
  {
    OffBySeconds(got, want, lost, k);
    OffBySeconds(got + lost * NS, want, 0, k);
  }

  /** The inputs on which the borrows of operator- come out right. */
  predicate BorrowsRight(a: Timestamp, b: Timestamp) {
    var nsBorrow := a.nanoseconds < b.nanoseconds;
    var lsBorrow := a.secondsLs - (if nsBorrow then 1 else 0) < b.secondsLs;
    if lsBorrow then nsBorrow && a.secondsMs <= b.secondsMs + 1 else a.secondsMs >= b.secondsMs
  }

  /** Whether the nanoseconds and the low words borrow, and what the high word takes off. */
  function NsBorrow(a: Timestamp, b: Timestamp): int { if a.nanoseconds < b.nanoseconds then 1 else 0 }

  function LsBorrow(a: Timestamp, b: Timestamp): int {
    if a.secondsLs - NsBorrow(a, b) < b.secondsLs then 1 else 0
  }

  function MsTaken(a: Timestamp, b: Timestamp): int {
    var total := if LsBorrow(a, b) == 1 then NsBorrow(a, b) + 1 else 0;
    if total > a.secondsMs || a.secondsMs - total < b.secondsMs then 1 else total
  }

  lemma MinusWords(a: Timestamp, b: Timestamp)
    requires Normalized(a) && Normalized(b)
    ensures var r, n, l := Minus(a, b), NsBorrow(a, b), LsBorrow(a, b);
            && r.nanoseconds == a.nanoseconds - b.nanoseconds + n * NS
            && r.secondsLs == a.secondsLs - b.secondsLs - n + l * TWO_32 - (if l == 1 && n == 0 then 1 else 0)
            && r.secondsMs == (a.secondsMs - b.secondsMs - MsTaken(a, b)) % TWO_16
  {
  }

  /** operator- in integers: the seconds lost and the span borrowed. */
  lemma MinusLoss(a: Timestamp, b: Timestamp) returns (lost: int, k: int)
    requires Normalized(a) && Normalized(b)
    ensures Normalized(Minus(a, b)) && 0 <= k <= 1
    ensures lost in {0, 1, TWO_32}
    ensures lost == 0 <==> BorrowsRight(a, b)
    ensures Value(Minus(a, b)) == Value(a) - Value(b) - lost * NS + k * SPAN
    ensures lost == 0 ==> (k == 0 <==> Value(a) >= Value(b))
  {
    var r, n, l, taken := Minus(a, b), NsBorrow(a, b), LsBorrow(a, b), MsTaken(a, b);
    MinusWords(a, b);
    k := if a.secondsMs - b.secondsMs < taken then 1 else 0;
    lost := (if l == 1 && n == 0 then 1 else 0) + (taken - l) * TWO_32;
    assert r.secondsMs == a.secondsMs - b.secondsMs - taken + k * TWO_16;
    assert Seconds(r) == Seconds(a) - Seconds(b) - n - lost + k * TWO_48;
  }

  /** operator- is subtraction modulo the span exactly on BorrowsRight. */
  lemma MinusMeaning(a: Timestamp, b: Timestamp)
    requires Normalized(a) && Normalized(b)
    ensures Normalized(Minus(a, b))
    ensures Congruent(Value(Minus(a, b)), Value(a) - Value(b)) <==> BorrowsRight(a, b)
    ensures Value(Minus(a, b)) == Value(a) - Value(b) <==> BorrowsRight(a, b) && Value(a) >= Value(b)
  {
    var lost, k := MinusLoss(a, b);
    OffBySeconds(Value(Minus(a, b)), Value(a) - Value(b), lost, k);
  }

  /** A sum of 2^32 seconds comes out as zero: the carry into an all-ones word is lost. */
  lemma LostCarry()
    ensures var a, b := Timestamp(999_999_999, 0, 0, 0), Timestamp(1, 0xFFFF_FFFF, 0, 0);
            Value(a) + Value(b) == TWO_32 * NS && Plus(a, b) == Timestamp(0, 0, 0, 0)
  {
  }

  /** 2^32 seconds minus one: the borrow from the high word is not taken. */
  lemma LostBorrow()
    ensures var a, b := Timestamp(0, 0, 1, 0), Timestamp(0, 1, 0, 0);
            Minus(a, b) == Timestamp(0, 0xFFFF_FFFE, 0, 0) && Value(Minus(a, b)) == Value(a) - Value(b) - NS
  {
  }

  lemma CongruentBelowSpan(x: int, y: int)
    requires 0 <= x < SPAN && 0 <= y < SPAN && Congruent(x, y)
    ensures x == y
  {
    assert x - y == (x - y) / SPAN * SPAN;
  }

  lemma CongruentIsEqual(a: Timestamp, b: Timestamp)
    requires Normalized(a) && Normalized(b) && a.version == b.version
    requires Congruent(Value(a), Value(b))
    ensures a == b
  {
    CongruentBelowSpan(Value(a), Value(b));
    assert Seconds(a) == Seconds(b) && a.nanoseconds == b.nanoseconds;
  }

  /** Going out to mid and back, each leg losing some seconds, returns to a
      exactly when nothing was lost. */
  lemma ReturnIsExact(a: Timestamp, mid: int, r: Timestamp, step: int, lost: int, k: int, lost': int, k': int)
    requires Normalized(a) && Normalized(r) && a.version == r.version
    requires lost in {0, 1, TWO_32} && lost' in {0, 1, TWO_32}
    requires mid == Value(a) + step - lost * NS + k * SPAN
    requires Value(r) == mid - step - lost' * NS + k' * SPAN
    ensures r == a <==> lost == 0 && lost' == 0
  {
    var lost := lost + lost';
    OffBySeconds(Value(r), Value(a), lost, k + k');
    if lost == 0 {
      CongruentIsEqual(r, a);
    }
  }

  /** The operands on which operator- undoes operator+: no carry is lost, and either
      the low words do not carry and the high ones do not overflow, or the low words
      and the nanoseconds both carry into a zero or an overflowing high word. */
  predicate Undoes(a: Timestamp, b: Timestamp) {
    var nsCarry := a.nanoseconds + b.nanoseconds >= NS;
    var lsCarry := a.secondsLs + b.secondsLs + (if nsCarry then 1 else 0) >= TWO_32;
    && !LosesCarry(a, b)
    && if lsCarry then nsCarry && (a.secondsMs == 0 || a.secondsMs + b.secondsMs + 1 >= TWO_16)
       else a.secondsMs + b.secondsMs < TWO_16
  }

  /** What Plus means for the borrows of the subtraction that follows it. */
  lemma UndoesBorrowsRight(a: Timestamp, b: Timestamp)
    requires Normalized(a) && Normalized(b) && !LosesCarry(a, b)
    ensures BorrowsRight(Plus(a, b), b) <==> Undoes(a, b)
  {
  }

  /** operator- undoes operator+ exactly on these operands. */
  lemma PlusThenMinus(a: Timestamp, b: Timestamp)
    requires Normalized(a) && Normalized(b) && a.version == b.version
    ensures Minus(Plus(a, b), b) == a <==> Undoes(a, b)
  {
    var lost, k := PlusLoss(a, b);
    var lost', k' := MinusLoss(Plus(a, b), b);
    ReturnIsExact(a, Value(Plus(a, b)), Minus(Plus(a, b), b), Value(b), lost, k, lost', k');
    if !LosesCarry(a, b) {
      UndoesBorrowsRight(a, b);
    }
  }

  lemma PlusReturns(a: Timestamp, d: Timestamp, b: Timestamp, lost: int, k: int)
    requires Normalized(a) && Normalized(b) && Normalized(d) && a.version == b.version == d.version
    requires lost in {0, 1, TWO_32} && Value(d) == Value(a) - Value(b) - lost * NS + k * SPAN
    ensures Plus(d, b) == a <==> lost == 0 && !LosesCarry(d, b)
  {
    var lost', k' := PlusLoss(d, b);
    ReturnIsExact(a, Value(d), Plus(d, b), -Value(b), lost, k, lost', k');
  }

  lemma ReturnLosesCarry(a: Timestamp, b: Timestamp)
    requires Normalized(a) && Normalized(b)
    ensures LosesCarry(Minus(a, b), b) <==> a.nanoseconds < b.nanoseconds && b.secondsLs == TWO_32 - 1
  {
  }

  /** operator+ undoes operator- exactly when the borrows come out right and the
      nanoseconds do not borrow from an all-ones word. */
  lemma MinusThenPlus(a: Timestamp, b: Timestamp)
    requires Normalized(a) && Normalized(b) && a.version == b.version
    ensures Plus(Minus(a, b), b) == a <==>
            BorrowsRight(a, b) && !(a.nanoseconds < b.nanoseconds && b.secondsLs == TWO_32 - 1)
  {
    var lost, k := MinusLoss(a, b);
    PlusReturns(a, Minus(a, b), b, lost, k);
    ReturnLosesCarry(a, b);
  }

  // ---- 64-bit conversion --------------------------------------------------

  lemma Set64Value(ts: Timestamp, value: uint64)
    ensures Normalized(Set64(ts, value)) && Value(Set64(ts, value)) == value
  {
    var secs := value / NS;
    assert secs < TWO_48;
    assert secs == secs / TWO_32 * TWO_32 + secs % TWO_32;
  }

  /** Storing a 64-bit count and reading it back is the identity, and the signed
      intermediate of the read stays in range precisely below 2^63. */
  /** Arithmetic on one timestamp keeps its version; that on two keeps a common one, and marks
      the result as of none otherwise. */
  lemma VersionsKept(a: Timestamp, b: Timestamp, ns: uint64)
    ensures AddNs(a, ns).version == SubNs(a, ns).version == Set64(a, ns).version == a.version
    ensures Plus(a, b).version == Minus(a, b).version == if a.version == b.version then a.version else 0xFF
  {
  }

  lemma AddStays(a: Timestamp, ns: uint64)
    requires AtMostOneSecond(a)
    ensures AddNs(a, ns).nanoseconds == 1_000_000_000 <==> a.nanoseconds + ns % 1_000_000_000 == 1_000_000_000
  {
    var nanos := a.nanoseconds + ns % NS;
    assert 0 <= nanos < 2 * NS;
    assert AddNs(a, ns).nanoseconds == if nanos > NS then nanos - NS else nanos;
  }

  lemma SubStays(a: Timestamp, ns: uint64)
    requires AtMostOneSecond(a)
    ensures SubNs(a, ns).nanoseconds == 1_000_000_000 <==>
            a.nanoseconds == 1_000_000_000 && ns % 1_000_000_000 == 0
  {
    var rest := ns % NS;
    assert SubNs(a, ns).nanoseconds == if rest > a.nanoseconds then a.nanoseconds + NS - rest else a.nanoseconds - rest;
  }

  lemma MinusStays(a: Timestamp, b: Timestamp)
    requires AtMostOneSecond(a) && AtMostOneSecond(b)
    ensures Minus(a, b).nanoseconds == 1_000_000_000 <==> a.nanoseconds == 1_000_000_000 && b.nanoseconds == 0
  {
    var ns := (if a.nanoseconds < b.nanoseconds then NS else 0) + a.nanoseconds - b.nanoseconds;
    assert 0 <= ns <= NS;
    assert Minus(a, b).nanoseconds == ns;
  }

  /** The arithmetic carries only above 10^9: a sum or difference of exactly that many
      nanoseconds stays. */
  lemma OneSecondStays(a: Timestamp, b: Timestamp, ns: uint64)
    requires AtMostOneSecond(a) && AtMostOneSecond(b)
    ensures AddNs(a, ns).nanoseconds == 1_000_000_000 <==> a.nanoseconds + ns % 1_000_000_000 == 1_000_000_000
    ensures SubNs(a, ns).nanoseconds == 1_000_000_000 <==>
            a.nanoseconds == 1_000_000_000 && ns % 1_000_000_000 == 0
    ensures Minus(a, b).nanoseconds == 1_000_000_000 <==> a.nanoseconds == 1_000_000_000 && b.nanoseconds == 0
  {
    AddStays(a, ns);
    SubStays(a, ns);
    MinusStays(a, b);
  }

  lemma Set64RoundTrip(ts: Timestamp, value: uint64)
    ensures ToNs(Set64(ts, value)) == value
    ensures Value(Set64(ts, value)) < TWO_63 <==> value < TWO_63
  {
    Set64Value(ts, value);
  }
}
