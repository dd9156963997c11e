/** Saving and restoring the clock's and the port's state: memory images of the
    fields copied one after another while they fit, and the shortage reported. */
module Persistence {
  import opened MachineInts
  import opened PriorityVectors
  import opened Wire

  type Fields = seq<Bytes>
  type Ratio = s: Bytes | |s| == 16 witness seq(16, _ => 0) // a long double
  type Word8 = s: Bytes | |s| == 8 witness seq(8, _ => 0)
  type Word4 = s: Bytes | |s| == 4 witness seq(4, _ => 0)
  type Word1 = s: Bytes | |s| == 1 witness [0]

  const PTP_MASTER: Word4 := [7, 0, 0, 0]
  const PTP_SLAVE: Word4 := [9, 0, 0, 0]
  const CLOCK_SIZE: nat := 40
  const PORT_SIZE: nat := 29

  /** ret, *count and the position in the buffer. */
  datatype Cursor = Cursor(ok: bool, count: nat, at: nat)

  predicate Fits(c: Cursor, size: nat) { c.ok && c.count >= size }

  /** Past one field: space left while all is well, then the space that is missing. */
  function Advance(c: Cursor, size: nat): Cursor {
    if Fits(c, size) then Cursor(true, c.count - size, c.at + size)
    else if !c.ok then c.(count := c.count + size)
    else Cursor(false, size - c.count, c.at)
  }

  function Pass(c: Cursor, fs: Fields): Cursor
    decreases |fs|
  {
    if fs == [] then c else Pass(Advance(c, |fs[0]|), fs[1..])
  }

  /** What a pass writes, from the cursor on. */
  function Emitted(c: Cursor, fs: Fields): Bytes
    decreases |fs|
  {
    if fs == [] then []
    else (if Fits(c, |fs[0]|) then fs[0] else []) + Emitted(Advance(c, |fs[0]|), fs[1..])
  }

  predicate Holds(s: Bytes, c: Cursor) { c.ok ==> c.at + c.count <= |s| }

  function ReadOne(s: Bytes, c: Cursor, f: Bytes): (r: Bytes)
    requires Holds(s, c)
    ensures |r| == |f|
  {
    if Fits(c, |f|) then s[c.at..c.at + |f|] else f
  }

  /** The fields after restoring: those that fit are replaced. */
  function ReadBack(s: Bytes, c: Cursor, fs: Fields): Fields
    requires Holds(s, c)
    decreases |fs|
  {
    if fs == [] then [] else [ReadOne(s, c, fs[0])] + ReadBack(s, Advance(c, |fs[0]|), fs[1..])
  }

  // ---- what the passes mean ------------------------------------------------------

  function Total(fs: Fields): nat { if fs == [] then 0 else |fs[0]| + Total(fs[1..]) }

  function Concat(fs: Fields): (s: Bytes)
    ensures |s| == Total(fs)
  {
    if fs == [] then [] else fs[0] + Concat(fs[1..])
  }

  /** How many leading fields fit in n bytes. */
  function Fitting(fs: Fields, n: nat): (k: nat)
    ensures k <= |fs|
  {
    if fs == [] || n < |fs[0]| then 0 else 1 + Fitting(fs[1..], n - |fs[0]|)
  }

  ghost predicate SameSizes(fs: Fields, gs: Fields) {
    |fs| == |gs| && forall i :: 0 <= i < |fs| ==> |fs[i]| == |gs[i]|
  }

  lemma TotalCons(f: Bytes, fs: Fields)
    ensures Total([f] + fs) == |f| + Total(fs) && Concat([f] + fs) == f + Concat(fs)
  {
    assert ([f] + fs)[1..] == fs;
  }

  lemma TakeCons(fs: Fields, k: nat)
    requires 0 < k <= |fs|
    ensures Total(fs[..k]) == |fs[0]| + Total(fs[1..][..k - 1])
    ensures Concat(fs[..k]) == fs[0] + Concat(fs[1..][..k - 1])
  {
    assert fs[..k] == [fs[0]] + fs[1..][..k - 1];
    TotalCons(fs[0], fs[1..][..k - 1]);
  }

  /** Fitting is the longest prefix that n bytes can hold. */
  lemma {:induction false} FittingMeaning(fs: Fields, n: nat)
    ensures var k := Fitting(fs, n); Total(fs[..k]) <= n && (k < |fs| ==> n < Total(fs[..k]) + |fs[k]|)
    ensures Fitting(fs, n) == |fs| <==> Total(fs) <= n
    decreases |fs|
  {
    if fs == [] || n < |fs[0]| {
    } else {
      FittingMeaning(fs[1..], n - |fs[0]|);
      TakeCons(fs, Fitting(fs, n));
    }
  }

  /** Enough space: success and the space left.  Too little: failure and exactly the
      number of bytes that are missing. */
  lemma {:induction false} PassMeaning(c: Cursor, fs: Fields)
    ensures c.ok && c.count >= Total(fs) ==> Pass(c, fs) == Cursor(true, c.count - Total(fs), c.at + Total(fs))
    ensures c.ok && c.count < Total(fs) ==> !Pass(c, fs).ok && Pass(c, fs).count == Total(fs) - c.count
    ensures !c.ok ==> Pass(c, fs) == c.(count := c.count + Total(fs))
    decreases |fs|
  {
    if fs == [] {
    } else {
      PassMeaning(Advance(c, |fs[0]|), fs[1..]);
    }
  }

  lemma {:induction false} EmittedNothing(c: Cursor, fs: Fields)
    requires !c.ok
    ensures Emitted(c, fs) == []
    decreases |fs|
  {
    if fs == [] {
    } else {
      EmittedNothing(Advance(c, |fs[0]|), fs[1..]);
    }
  }

  /** Exactly the fields that fit are written. */
  lemma {:induction false} EmittedMeaning(c: Cursor, fs: Fields)
    requires c.ok
    ensures Emitted(c, fs) == Concat(fs[..Fitting(fs, c.count)])
    decreases |fs|
  {
    if fs == [] {
    } else if c.count < |fs[0]| {
      EmittedNothing(Advance(c, |fs[0]|), fs[1..]);
    } else {
      EmittedMeaning(Advance(c, |fs[0]|), fs[1..]);
      TakeCons(fs, Fitting(fs, c.count));
    }
  }

  lemma {:induction false} ReadNothing(s: Bytes, c: Cursor, fs: Fields)
    requires !c.ok
    ensures ReadBack(s, c, fs) == fs
    decreases |fs|
  {
    if fs == [] {
    } else {
      ReadNothing(s, Advance(c, |fs[0]|), fs[1..]);
    }
  }

  lemma Held(s: Bytes, at: nat, g: Bytes, rest: Bytes)
    requires at + |g| + |rest| <= |s| && s[at..at + |g| + |rest|] == g + rest
    ensures s[at..at + |g|] == g && s[at + |g|..at + |g| + |rest|] == rest
  {
    var held := s[at..at + |g| + |rest|];
    assert s[at..at + |g|] == held[..|g|];
    assert s[at + |g|..at + |g| + |rest|] == held[|g|..];
  }

  ghost predicate HoldsFirst(s: Bytes, at: nat, gs: Fields, k: nat)
    requires k <= |gs|
  {
    at + Total(gs[..k]) <= |s| && s[at..at + Total(gs[..k])] == Concat(gs[..k])
  }

  lemma HoldsRest(s: Bytes, at: nat, gs: Fields, k: nat)
    requires 0 < k <= |gs| && HoldsFirst(s, at, gs, k)
    ensures at + |gs[0]| <= |s| && s[at..at + |gs[0]|] == gs[0] && HoldsFirst(s, at + |gs[0]|, gs[1..], k - 1)
  {
    TakeCons(gs, k);
    Held(s, at, gs[0], Concat(gs[1..][..k - 1]));
  }

  lemma JoinPrefix<T>(gs: seq<T>, fs: seq<T>, k: nat)
    requires 0 < k <= |gs| == |fs|
    ensures gs[..k] + fs[k..] == [gs[0]] + (gs[1..][..k - 1] + fs[1..][k - 1..])
  {
  }

  /** Restoring from a buffer that holds what fitted of gs gives exactly that back, and
      leaves the other fields alone. */
  lemma {:induction false} ReadBackMeaning(s: Bytes, c: Cursor, fs: Fields, gs: Fields)
    requires c.ok && c.at + c.count <= |s| && SameSizes(fs, gs)
    requires HoldsFirst(s, c.at, gs, Fitting(gs, c.count))
    ensures var k := Fitting(gs, c.count); ReadBack(s, c, fs) == gs[..k] + fs[k..]
    decreases |fs|
  {
    var k := Fitting(gs, c.count);
    if fs == [] {
    } else if c.count < |fs[0]| {
      ReadNothing(s, Advance(c, |fs[0]|), fs[1..]);
      assert ReadBack(s, c, fs) == fs;
    } else {
      HoldsRest(s, c.at, gs, k);
      ReadBackMeaning(s, Advance(c, |fs[0]|), fs[1..], gs[1..]);
      assert ReadBack(s, c, fs) == [gs[0]] + ReadBack(s, Advance(c, |fs[0]|), fs[1..]);
      JoinPrefix(gs, fs, k);
    }
  }

  lemma {:induction false} PassSizes(c: Cursor, fs: Fields, gs: Fields)
    requires SameSizes(fs, gs)
    ensures Pass(c, fs) == Pass(c, gs) && Total(fs) == Total(gs)
    decreases |fs|
  {
    if fs == [] {
    } else {
      PassSizes(Advance(c, |fs[0]|), fs[1..], gs[1..]);
    }
  }

  /** One serializer and one restorer on one buffer of any size: what fitted comes back,
      the rest is left alone, and both report the same outcome. */
  lemma RestoreWritten(s: Bytes, c: Cursor, gs: Fields, fs: Fields)
    requires c.ok && c.at + c.count <= |s| && SameSizes(fs, gs)
    requires var e := Emitted(c, gs); c.at + |e| <= |s| && s[c.at..c.at + |e|] == e
    ensures var k := Fitting(gs, c.count);
            && ReadBack(s, c, fs) == gs[..k] + fs[k..]
            && (c.count >= Total(gs) ==> ReadBack(s, c, fs) == gs)
    ensures Pass(c, fs) == Pass(c, gs)
  {
    EmittedMeaning(c, gs);
    ReadBackMeaning(s, c, fs, gs);
    PassSizes(c, fs, gs);
    FittingMeaning(gs, c.count);
  }

  // ---- fields one by one ----------------------------------------------------------

  /** What one field writes. */
  function Part(c: Cursor, f: Bytes): Bytes { if Fits(c, |f|) then f else [] }

  lemma PassCons(c: Cursor, f: Bytes, fs: Fields)
    ensures Pass(c, [f] + fs) == Pass(Advance(c, |f|), fs)
    ensures Emitted(c, [f] + fs) == Part(c, f) + Emitted(Advance(c, |f|), fs)
  {
    assert ([f] + fs)[1..] == fs;
  }

  lemma ReadCons(s: Bytes, c: Cursor, f: Bytes, fs: Fields)
    requires Holds(s, c)
    ensures ReadBack(s, c, [f] + fs) == [ReadOne(s, c, f)] + ReadBack(s, Advance(c, |f|), fs)
  {
    assert ([f] + fs)[1..] == fs;
  }

  lemma PassThree(c: Cursor, x: Bytes, y: Bytes, z: Bytes)
    ensures var d := Advance(c, |x|); var e := Advance(d, |y|);
            && Pass(c, [x, y, z]) == Advance(e, |z|)
            && Emitted(c, [x, y, z]) == Part(c, x) + Part(d, y) + Part(e, z)
    ensures Total([x, y, z]) == |x| + |y| + |z|
  {
    var d := Advance(c, |x|);
    var e := Advance(d, |y|);
    assert [x, y, z] == [x] + [y, z] && [y, z] == [y] + [z] && [z] == [z] + [];
    PassCons(c, x, [y, z]);
    PassCons(d, y, [z]);
    PassCons(e, z, []);
    TotalCons(x, [y, z]);
    TotalCons(y, [z]);
  }

  lemma ReadThree(s: Bytes, c: Cursor, x: Bytes, y: Bytes, z: Bytes)
    requires Holds(s, c)
    ensures var d := Advance(c, |x|); var e := Advance(d, |y|);
            ReadBack(s, c, [x, y, z]) == [ReadOne(s, c, x), ReadOne(s, d, y), ReadOne(s, e, z)]
  {
    var d := Advance(c, |x|);
    var e := Advance(d, |y|);
    assert [x, y, z] == [x] + [y, z] && [y, z] == [y] + [z] && [z] == [z] + [];
    ReadCons(s, c, x, [y, z]);
    ReadCons(s, d, y, [z]);
    ReadCons(s, e, z, []);
  }

  lemma PassFour(c: Cursor, w: Bytes, x: Bytes, y: Bytes, z: Bytes)
    ensures var b := Advance(c, |w|); var d := Advance(b, |x|); var e := Advance(d, |y|);
            && Pass(c, [w, x, y, z]) == Advance(e, |z|)
            && Emitted(c, [w, x, y, z]) == Part(c, w) + Part(b, x) + Part(d, y) + Part(e, z)
    ensures Total([w, x, y, z]) == |w| + |x| + |y| + |z|
  {
    assert [w, x, y, z] == [w] + [x, y, z];
    PassCons(c, w, [x, y, z]);
    PassThree(Advance(c, |w|), x, y, z);
    TotalCons(w, [x, y, z]);
  }

  lemma ReadFour(s: Bytes, c: Cursor, w: Bytes, x: Bytes, y: Bytes, z: Bytes)
    requires Holds(s, c)
    ensures var b := Advance(c, |w|); var d := Advance(b, |x|); var e := Advance(d, |y|);
            ReadBack(s, c, [w, x, y, z]) == [ReadOne(s, c, w), ReadOne(s, b, x), ReadOne(s, d, y), ReadOne(s, e, z)]
  {
    assert [w, x, y, z] == [w] + [x, y, z];
    ReadCons(s, c, w, [x, y, z]);
    ReadThree(s, Advance(c, |w|), x, y, z);
  }

  // ---- the code --------------------------------------------------------------------

  /** One field into the buffer; done is what stands between start and the cursor. */
  method WriteField(buf: array<uint8>, c: Cursor, f: Bytes, ghost start: nat, ghost done: Bytes) returns (d: Cursor)
    requires Holds(buf[..], c) && start <= c.at <= buf.Length && buf[start..c.at] == done
    modifies buf
    ensures d == Advance(c, |f|) && Holds(buf[..], d) && start <= d.at <= buf.Length
    ensures buf[start..d.at] == done + Part(c, f)
    ensures forall i :: 0 <= i < buf.Length && !(c.at <= i < d.at) ==> buf[i] == old(buf[i])
  {
    if c.ok && c.count >= |f| {
      Put(buf, c.at, f);
      d := Cursor(true, c.count - |f|, c.at + |f|);
      assert buf[start..c.at] == done;
      assert buf[start..d.at] == buf[start..c.at] + buf[c.at..d.at];
    } else if !c.ok {
      d := c.(count := c.count + |f|);
    } else {
      d := Cursor(false, |f| - c.count, c.at);
    }
  }

  method ReadField(buf: array<uint8>, c: Cursor, f: Bytes) returns (d: Cursor, g: Bytes)
    requires Holds(buf[..], c)
    ensures d == Advance(c, |f|) && g == ReadOne(buf[..], c, f)
  {
    if c.ok && c.count >= |f| {
      g := buf[c.at..c.at + |f|];
      d := Cursor(true, c.count - |f|, c.at + |f|);
    } else if !c.ok {
      g, d := f, c.(count := c.count + |f|);
    } else {
      g, d := f, Cursor(false, |f| - c.count, c.at);
    }
  }

  /** A buffer after a pass over the fields: the bytes emitted, and nothing else changed. */
  ghost predicate Wrote(was: Bytes, s: Bytes, c: Cursor, fs: Fields) {
    var end := c.at + |Emitted(c, fs)|;
    && |s| == |was| && end <= |s| && s[c.at..end] == Emitted(c, fs)
    && s[..c.at] == was[..c.at] && s[end..] == was[end..]
  }

  class Clock {
    var masterLocal: Ratio
    var localSystem: Ratio
    var lastBest: Word8

    function State(): Fields
      reads this
    {
      [masterLocal, localSystem, lastBest]
    }

    constructor (masterLocal: Ratio, localSystem: Ratio, lastBest: Word8)
      ensures State() == [masterLocal, localSystem, lastBest]
    {
      this.masterLocal, this.localSystem, this.lastBest := masterLocal, localSystem, lastBest;
    }

    /** Without a buffer the size is advertised. */
    method SerializeState(buf: array?<uint8>, at: nat, count: nat) returns (ok: bool, left: nat)
      requires buf != null ==> at + count <= buf.Length
      modifies buf
      ensures buf == null ==> ok && left == Total(State()) == CLOCK_SIZE
      ensures buf != null ==>
                var c := Cursor(true, count, at);
                ok == Pass(c, State()).ok && left == Pass(c, State()).count && Wrote(old(buf[..]), buf[..], c, State())
    {
      PassThree(Cursor(true, count, at), masterLocal, localSystem, lastBest);
      if buf == null {
        return true, 16 + 16 + 8;
      }
      var c := CopyOut(buf, at, count);
      return c.ok, c.count;
    }

    method CopyOut(buf: array<uint8>, at: nat, count: nat) returns (c: Cursor)
      requires at + count <= buf.Length
      modifies buf
      ensures c == Pass(Cursor(true, count, at), State())
              && Wrote(old(buf[..]), buf[..], Cursor(true, count, at), State())
    {
      ghost var was, c0 := buf[..], Cursor(true, count, at);
      PassThree(c0, masterLocal, localSystem, lastBest);
      c := WriteField(buf, Cursor(true, count, at), masterLocal, at, []);
      ghost var c1 := c;
      c := WriteField(buf, c, localSystem, at, Part(c0, masterLocal));
      c := WriteField(buf, c, lastBest, at, Part(c0, masterLocal) + Part(c1, localSystem));
      assert buf[..][at..c.at] == buf[at..c.at] == Emitted(c0, State());
      assert buf[..][..at] == was[..at] && buf[..][c.at..] == was[c.at..];
    }

    method RestoreSerializedState(buf: array<uint8>, at: nat, count: nat) returns (ok: bool, left: nat)
      requires at + count <= buf.Length
      modifies this
      ensures var c := Cursor(true, count, at);
              && State() == ReadBack(buf[..], c, old(State()))
              && ok == Pass(c, old(State())).ok && left == Pass(c, old(State())).count
    {
      var c := Cursor(true, count, at);
      PassThree(c, masterLocal, localSystem, lastBest);
      ReadThree(buf[..], c, masterLocal, localSystem, lastBest);
      c, masterLocal := ReadField(buf, c, masterLocal);
      c, localSystem := ReadField(buf, c, localSystem);
      c, lastBest := ReadField(buf, c, lastBest);
      return c.ok, c.count;
    }
  }

  class Port {
    var asCapable: Word1
    var portState: Word4
    var delay: Word8
    var rate: Ratio

    function State(): Fields
      reads this
    {
      [asCapable, portState, delay, rate]
    }

    predicate Decided()
      reads this
    {
      portState == PTP_MASTER || portState == PTP_SLAVE
    }

    constructor (asCapable: Word1, portState: Word4, delay: Word8, rate: Ratio)
      ensures State() == [asCapable, portState, delay, rate]
    {
      this.asCapable, this.portState, this.delay, this.rate := asCapable, portState, delay, rate;
    }

    /** Without a buffer the size is advertised; only a master or a slave is saved. */
    method SerializeState(buf: array?<uint8>, at: nat, count: nat) returns (ok: bool, left: nat)
      requires buf != null ==> at + count <= buf.Length
      modifies buf
      ensures buf == null ==> ok && left == Total(State()) == PORT_SIZE
      ensures Decided() <==> portState == [7, 0, 0, 0] || portState == [9, 0, 0, 0]
      ensures buf != null && !Decided() ==> !ok && left == 0 && buf[..] == old(buf[..])
      ensures buf != null && Decided() ==>
                var c := Cursor(true, count, at);
                ok == Pass(c, State()).ok && left == Pass(c, State()).count && Wrote(old(buf[..]), buf[..], c, State())
    {
      PassFour(Cursor(true, count, at), asCapable, portState, delay, rate);
      if buf == null {
        return true, 4 + 16 + 1 + 8;
      }
      if portState != PTP_MASTER && portState != PTP_SLAVE {
        return false, 0;
      }
      var c := CopyOut(buf, at, count);
      return c.ok, c.count;
    }

    method CopyOut(buf: array<uint8>, at: nat, count: nat) returns (c: Cursor)
      requires at + count <= buf.Length
      modifies buf
      ensures c == Pass(Cursor(true, count, at), State())
              && Wrote(old(buf[..]), buf[..], Cursor(true, count, at), State())
    {
      ghost var was, c0 := buf[..], Cursor(true, count, at);
      PassFour(c0, asCapable, portState, delay, rate);
      c := WriteField(buf, Cursor(true, count, at), asCapable, at, []);
      ghost var c1 := c;
      c := WriteField(buf, c, portState, at, Part(c0, asCapable));
      ghost var c2 := c;
      c := WriteField(buf, c, delay, at, Part(c0, asCapable) + Part(c1, portState));
      c := WriteField(buf, c, rate, at, Part(c0, asCapable) + Part(c1, portState) + Part(c2, delay));
      assert buf[..][at..c.at] == buf[at..c.at] == Emitted(c0, State());
      assert buf[..][..at] == was[..at] && buf[..][c.at..] == was[c.at..];
    }

    method RestoreSerializedState(buf: array<uint8>, at: nat, count: nat) returns (ok: bool, left: nat)
      requires at + count <= buf.Length
      modifies this
      ensures var c := Cursor(true, count, at);
              && State() == ReadBack(buf[..], c, old(State()))
              && ok == Pass(c, old(State())).ok && left == Pass(c, old(State())).count
    {
      var c := Cursor(true, count, at);
      PassFour(c, asCapable, portState, delay, rate);
      ReadFour(buf[..], c, asCapable, portState, delay, rate);
      c, asCapable := ReadField(buf, c, asCapable);
      c, portState := ReadField(buf, c, portState);
      c, delay := ReadField(buf, c, delay);
      c, rate := ReadField(buf, c, rate);
      return c.ok, c.count;
    }
  }

  // ---- both together -----------------------------------------------------------------

  /** A saved file: both states side by side at its start. */
  ghost predicate Saved(s: Bytes, cs: Fields, ps: Fields) {
    && |s| >= CLOCK_SIZE + PORT_SIZE && Total(cs) == CLOCK_SIZE && Total(ps) == PORT_SIZE
    && s[..CLOCK_SIZE] == Concat(cs) && s[CLOCK_SIZE..CLOCK_SIZE + PORT_SIZE] == Concat(ps)
  }

  /** A pass over fields that all fit. */
  lemma EmitsAll(c: Cursor, fs: Fields)
    requires c.ok && c.count >= Total(fs)
    ensures Pass(c, fs) == Cursor(true, c.count - Total(fs), c.at + Total(fs)) && Emitted(c, fs) == Concat(fs)
  {
    PassMeaning(c, fs);
    EmittedMeaning(c, fs);
    FittingMeaning(fs, c.count);
    assert fs[..|fs|] == fs;
  }

  /** Where the write callback lets the port's state begin: at the end of the buffer
      minus the count that the clock's pass left. */
  function PortAt(n: nat, cs: Fields): int { n - Pass(Cursor(true, n, 0), cs).count }

  /** It begins after the clock's state if there is room for that; otherwise the count is
      what was missing, and it begins inside the buffer exactly from 20 bytes on. */
  lemma CallbackInside(n: nat, cs: Fields)
    requires Total(cs) == CLOCK_SIZE
    ensures PortAt(n, cs) == if n >= CLOCK_SIZE then CLOCK_SIZE else 2 * n - CLOCK_SIZE
    ensures PortAt(n, cs) >= 0 <==> n >= 20
  {
    PassMeaning(Cursor(true, n, 0), cs);
  }

  /** With fewer bytes a master or slave begins to write before the buffer: its first
      field always fits what was missing. */
  lemma WritesBefore(n: nat, cs: Fields, ps: Fields)
    requires n < 20 && Total(cs) == CLOCK_SIZE && ps != [] && |ps[0]| == 1
    ensures PortAt(n, cs) < 0 && Fits(Cursor(true, Pass(Cursor(true, n, 0), cs).count, 0), |ps[0]|)
  {
    PassMeaning(Cursor(true, n, 0), cs);
  }

  /** What the callback leaves in a buffer: the clock's pass, then the port's. */
  ghost predicate SavedIn(was: Bytes, s: Bytes, cs: Fields, ps: Fields, decided: bool) {
    var n := |was|;
    exists mid ::
      && Wrote(was, mid, Cursor(true, n, 0), cs)
      && if decided then PortAt(n, cs) >= 0 && Wrote(mid, s, Cursor(true, n - PortAt(n, cs), PortAt(n, cs)), ps)
         else s == mid
  }

  function PortLeft(n: nat, cs: Fields, ps: Fields): nat
    requires PortAt(n, cs) >= 0
  {
    Pass(Cursor(true, n - PortAt(n, cs), PortAt(n, cs)), ps).count
  }

  method SaveStates(
    clock: Clock, ghost cs: Fields, port: Port, ghost ps: Fields, ghost decided: bool, buf: array<uint8>)
    returns (left: nat)
    requires cs == clock.State() && ps == port.State() && decided == port.Decided()
    requires decided ==> PortAt(buf.Length, cs) >= 0
    modifies buf
    ensures SavedIn(old(buf[..]), buf[..], cs, ps, decided)
    ensures left == if decided then PortLeft(buf.Length, cs, ps) else 0
  {
    ghost var was := buf[..];
    var missing := SerializeClock(clock, cs, buf);
    ghost var mid := buf[..];
    assert Wrote(was, mid, Cursor(true, |was|, 0), cs);
    ghost var at := PortAt(|was|, cs);
    assert buf.Length - missing == at;
    left := SerializePort(port, ps, buf, buf.Length - missing, missing);
    assert decided ==> Wrote(mid, buf[..], Cursor(true, |was| - at, at), ps);
    Composed(was, mid, buf[..], cs, ps, decided);
  }

  /** The callback's first call. */
  method SerializeClock(clock: Clock, ghost cs: Fields, buf: array<uint8>) returns (missing: nat)
    requires cs == clock.State()
    modifies buf
    ensures missing == buf.Length - PortAt(buf.Length, cs)
    ensures Wrote(old(buf[..]), buf[..], Cursor(true, buf.Length, 0), cs)
  {
    var ok;
    ok, missing := clock.SerializeState(buf, 0, buf.Length);
  }

  lemma Composed(was: Bytes, mid: Bytes, s: Bytes, cs: Fields, ps: Fields, decided: bool)
    requires Wrote(was, mid, Cursor(true, |was|, 0), cs)
    requires !decided ==> s == mid
    requires decided ==>
               var n := |was|;
               PortAt(n, cs) >= 0 && Wrote(mid, s, Cursor(true, n - PortAt(n, cs), PortAt(n, cs)), ps)
    ensures SavedIn(was, s, cs, ps, decided)
  {
  }

  /** The callback's second call; a port without a role does not look at the position. */
  method SerializePort(port: Port, ghost ps: Fields, buf: array<uint8>, at: int, count: nat) returns (left: nat)
    requires ps == port.State() && (port.Decided() ==> 0 <= at && at + count <= buf.Length)
    modifies buf
    ensures !port.Decided() ==> left == 0 && buf[..] == old(buf[..])
    ensures port.Decided() ==>
              var c := Cursor(true, count, at);
              left == Pass(c, ps).count && Wrote(old(buf[..]), buf[..], c, ps)
  {
    if port.portState != PTP_MASTER && port.portState != PTP_SLAVE {
      return 0;
    }
    var ok;
    ok, left := port.SerializeState(buf, at, count);
  }

  /** With room for both, the file holds both. */
  lemma RoomForBoth(was: Bytes, s: Bytes, cs: Fields, ps: Fields)
    requires SavedIn(was, s, cs, ps, true) && |was| >= CLOCK_SIZE + PORT_SIZE
    requires Total(cs) == CLOCK_SIZE && Total(ps) == PORT_SIZE
    ensures Saved(s, cs, ps) && PortAt(|was|, cs) >= 0 && PortLeft(|was|, cs, ps) == |was| - CLOCK_SIZE - PORT_SIZE
  {
    var n := |was|;
    CallbackInside(n, cs);
    var mid :| Wrote(was, mid, Cursor(true, n, 0), cs)
        && Wrote(mid, s, Cursor(true, n - PortAt(n, cs), PortAt(n, cs)), ps);
    EmitsAll(Cursor(true, n, 0), cs);
    EmitsAll(Cursor(true, n - 40, 40), ps);
    assert mid[..40] == mid[0..40] == Concat(cs);
    assert s[..40] == mid[..40];
  }

  /** A master or a slave is saved, and no other port. */
  predicate HasRole(ps: Fields) { |ps| == 4 && (ps[1] == [7, 0, 0, 0] || ps[1] == [9, 0, 0, 0]) }

  /** The file byte by byte: two ratios and the last best clock, then capability, state, delay
      and ratio of the port. */
  ghost predicate Layout(s: Bytes, cs: Fields, ps: Fields)
    requires |s| >= 69 && |cs| == 3 && |ps| == 4
  {
    && s[..16] == cs[0] && s[16..32] == cs[1] && s[32..40] == cs[2]
    && s[40..41] == ps[0] && s[41..45] == ps[1] && s[45..53] == ps[2] && s[53..69] == ps[3]
  }

  ghost predicate Sized(cs: Fields, ps: Fields) {
    && |cs| == 3 && |cs[0]| == |cs[1]| == 16 && |cs[2]| == 8
    && |ps| == 4 && |ps[0]| == 1 && |ps[1]| == 4 && |ps[2]| == 8 && |ps[3]| == 16
  }

  lemma ConcatThree(fs: Fields)
    requires |fs| == 3
    ensures Concat(fs) == fs[0] + fs[1] + fs[2]
  {
    assert fs == [fs[0]] + ([fs[1]] + ([fs[2]] + []));
    TotalCons(fs[0], [fs[1]] + ([fs[2]] + []));
    TotalCons(fs[1], [fs[2]] + []);
    TotalCons(fs[2], []);
  }

  lemma ClockLayout(t: Bytes, cs: Fields)
    requires |t| == 40 && |cs| == 3 && |cs[0]| == |cs[1]| == 16 && t == cs[0] + cs[1] + cs[2]
    ensures t[..16] == cs[0] && t[16..32] == cs[1] && t[32..40] == cs[2]
  {
  }

  lemma PortLayout(t: Bytes, ps: Fields)
    requires |t| == 29 && |ps| == 4 && |ps[0]| == 1 && |ps[1]| == 4 && |ps[2]| == 8
    requires t == ps[0] + (ps[1] + ps[2] + ps[3])
    ensures t[..1] == ps[0] && t[1..5] == ps[1] && t[5..13] == ps[2] && t[13..29] == ps[3]
  {
  }

  lemma SavedLayout(s: Bytes, cs: Fields, ps: Fields)
    requires Saved(s, cs, ps) && Sized(cs, ps)
    ensures Layout(s, cs, ps)
  {
    ConcatThree(cs);
    ConcatThree(ps[1..]);
    assert ps == [ps[0]] + ps[1..];
    TotalCons(ps[0], ps[1..]);
    ClockLayout(s[..40], cs);
    PortLayout(s[40..69], ps);
    SliceOfSlice(s, 40, 69, 0, 1);
    SliceOfSlice(s, 40, 69, 1, 5);
    SliceOfSlice(s, 40, 69, 5, 13);
    SliceOfSlice(s, 40, 69, 13, 29);
  }

  /** On a buffer of at least 69 bytes the callback writes the clock's state; a master's or
      slave's after it, and then says how much is left; of another port nothing. */
  lemma SavedExactly(was: Bytes, s: Bytes, cs: Fields, ps: Fields)
    requires SavedIn(was, s, cs, ps, HasRole(ps)) && Sized(cs, ps) && |was| >= 69
    ensures |s| == |was| && s[..40] == cs[0] + cs[1] + cs[2]
    ensures if HasRole(ps) then
              Saved(s, cs, ps) && Layout(s, cs, ps) && s[69..] == was[69..] && PortAt(|was|, cs) == 40
              && PortLeft(|was|, cs, ps) == |was| - 69
            else s[40..] == was[40..]
  {
    ConcatThree(cs);
    ConcatThree(ps[1..]);
    assert ps == [ps[0]] + ps[1..];
    TotalCons(ps[0], ps[1..]);
    var n := |was|;
    CallbackInside(n, cs);
    EmitsAll(Cursor(true, n, 0), cs);
    if HasRole(ps) {
      RoomForBoth(was, s, cs, ps);
      SavedLayout(s, cs, ps);
      var mid :| Wrote(was, mid, Cursor(true, n, 0), cs) && Wrote(mid, s, Cursor(true, n - 40, 40), ps);
      EmitsAll(Cursor(true, n - 40, 40), ps);
      assert s[69..] == mid[69..] == was[69..];
    } else {
      var mid :| Wrote(was, mid, Cursor(true, n, 0), cs) && s == mid;
      assert mid[..40] == mid[0..40];
    }
  }

  /** The write callback, on any buffer that it stays inside of. */
  method Save(clock: Clock, port: Port, buf: array<uint8>) returns (left: nat)
    requires port.Decided() ==> PortAt(buf.Length, clock.State()) >= 0
    modifies buf
    ensures SavedIn(old(buf[..]), buf[..], clock.State(), port.State(), port.Decided())
    ensures left == if port.Decided() then PortLeft(buf.Length, clock.State(), port.State()) else 0
    ensures buf.Length >= 69 ==>
              if HasRole(port.State()) then Layout(buf[..], clock.State(), port.State()) && left == buf.Length - 69
              else buf[40..] == old(buf[40..]) && left == 0
  {
    left := SaveStates(clock, clock.State(), port, port.State(), port.Decided(), buf);
    if buf.Length >= 69 {
      SavedExactly(old(buf[..]), buf[..], clock.State(), port.State());
      assert buf[..][40..] == buf[40..] && old(buf[..])[40..] == old(buf[40..]);
    }
  }

  /** The daemon's start, from a file of any size and content: the clock's part, and if
      that was all there, the port's. */
  method Restore(clock: Clock, port: Port, buf: array<uint8>) returns (failed: bool)
    modifies clock, port
    ensures clock.State() == ReadBack(buf[..], Cursor(true, buf.Length, 0), old(clock.State()))
    ensures port.State() == if buf.Length < CLOCK_SIZE then old(port.State())
                            else ReadBack(buf[..], Cursor(true, buf.Length - CLOCK_SIZE, CLOCK_SIZE), old(port.State()))
    ensures failed <==> buf.Length < CLOCK_SIZE + PORT_SIZE
  {
    StateSizes(clock, port);
    PassMeaning(Cursor(true, buf.Length, 0), clock.State());
    var ok, left := clock.RestoreSerializedState(buf, 0, buf.Length);
    failed := !ok;
    if !failed {
      PassMeaning(Cursor(true, left, 40), port.State());
      ok, left := port.RestoreSerializedState(buf, buf.Length - left, left);
      failed := !ok;
    }
  }

  lemma StateSizes(clock: Clock, port: Port)
    ensures Total(clock.State()) == CLOCK_SIZE && Total(port.State()) == PORT_SIZE
  {
    PassThree(Cursor(false, 0, 0), clock.masterLocal, clock.localSystem, clock.lastBest);
    PassFour(Cursor(false, 0, 0), port.asCapable, port.portState, port.delay, port.rate);
  }

  /** What was saved comes back, whatever the states were before. */
  lemma SavedComesBack(s: Bytes, cs: Fields, ps: Fields, fs: Fields, gs: Fields)
    requires Saved(s, cs, ps) && SameSizes(fs, cs) && SameSizes(gs, ps)
    ensures ReadBack(s, Cursor(true, |s|, 0), fs) == cs
    ensures ReadBack(s, Cursor(true, |s| - CLOCK_SIZE, CLOCK_SIZE), gs) == ps
  {
    PartComesBack(s, Cursor(true, |s|, 0), cs, fs);
    PartComesBack(s, Cursor(true, |s| - CLOCK_SIZE, CLOCK_SIZE), ps, gs);
  }

  lemma PartComesBack(s: Bytes, c: Cursor, gs: Fields, fs: Fields)
    requires c.ok && c.at + c.count == |s| && Total(gs) <= c.count && SameSizes(fs, gs)
    requires s[c.at..c.at + Total(gs)] == Concat(gs)
    ensures ReadBack(s, c, fs) == gs
  {
    EmitsAll(c, gs);
    RestoreWritten(s, c, gs, fs);
  }
}
