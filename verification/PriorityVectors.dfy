/** Best-master comparison: the 14-byte priority vectors compared with memcmp,
    and the clock identity made from a MAC address. */
module PriorityVectors {
  import opened MachineInts

  type Bytes = seq<uint8>
  type Identity = s: Bytes | |s| == 8 witness [0, 0, 0, 0, 0, 0, 0, 0]
  type Mac = s: Bytes | |s| == 6 witness [0, 0, 0, 0, 0, 0]

  /** systemIdentity without the trailing port fields. */
  datatype Vector = Vector(
    priority1: uint8, cqClass: uint8, accuracy: uint8, variance: uint16, priority2: uint8, identity: Identity)

  /** The buffer both comparisons fill: variance in network order. */
  function Buffer(v: Vector): (b: Bytes)
    ensures |b| == 14
  {
    [v.priority1, v.cqClass, v.accuracy, v.variance / TWO_8, v.variance % TWO_8, v.priority2] + v.identity
  }

  /** memcmp(a, b, n) < 0 for buffers of one length. */
  predicate MemLess(a: Bytes, b: Bytes)
    requires |a| == |b|
  {
    a != [] && (a[0] < b[0] || (a[0] == b[0] && MemLess(a[1..], b[1..])))
  }

  /** memcmp: the sign of the first differing byte. */
  method Memcmp(a: array<uint8>, b: array<uint8>, n: nat) returns (r: int)
    requires n <= a.Length && n <= b.Length
    ensures r < 0 <==> MemLess(a[..n], b[..n])
    ensures r == 0 <==> a[..n] == b[..n]
  {
    var i := 0;
    while i < n
      invariant 0 <= i <= n && a[..i] == b[..i]
    {
      if a[i] != b[i] {
        assert a[..n][..i] == a[..i] && b[..n][..i] == b[..i];
        MemLessAt(a[..n], b[..n], i);
        var x: int, y: int := a[i], b[i];
        return x - y;
      }
      i := i + 1;
    }
    MemLessIrreflexive(a[..n]);
    r := 0;
  }

  lemma {:induction false} MemLessAt(a: Bytes, b: Bytes, i: nat)
    requires |a| == |b| && i < |a| && a[..i] == b[..i] && a[i] != b[i]
    ensures MemLess(a, b) <==> a[i] < b[i]
    decreases i
  {
    if i == 0 {
    } else {
      assert a[0] == a[..i][0] == b[..i][0] == b[0];
      assert a[1..][..i - 1] == a[..i][1..] == b[1..][..i - 1];
      MemLessAt(a[1..], b[1..], i - 1);
    }
  }

  lemma MemLessIrreflexive(a: Bytes)
    ensures !MemLess(a, a)
  {
  }

  /** IEEE1588Clock::isBetterThan, and PTPMessageAnnounce::isBetterThan when there
      is a message: fill two buffers and compare them.  No message loses. */
  method IsBetterThan(mine: Vector, msg: Option<Vector>) returns (better: bool)
    ensures better <==> msg.None? || Better(mine, msg.value)
  {
    if msg.None? {
      return true;
    }
    var this1, that1 := new uint8[14], new uint8[14];
    Fill(this1, mine);
    Fill(that1, msg.value);
    var r := Memcmp(this1, that1, 14);
    assert this1[..14] == Buffer(mine) && that1[..14] == Buffer(msg.value);
    BufferOrder(mine, msg.value);
    better := r < 0;
  }

  method Fill(a: array<uint8>, v: Vector)
    requires a.Length == 14
    modifies a
    ensures a[..] == Buffer(v)
  {
    a[0] := v.priority1;
    a[1] := v.cqClass;
    a[2] := v.accuracy;
    a[3], a[4] := v.variance / TWO_8, v.variance % TWO_8;
    a[5] := v.priority2;
    for i := 0 to 8
      invariant a[..6] == Buffer(v)[..6]
      invariant forall j :: 0 <= j < i ==> a[6 + j] == v.identity[j]
    {
      a[6 + i] := v.identity[i];
    }
  }

  // ---- what the comparison means ---------------------------------------------

  function Pow256(n: nat): (p: nat)
    ensures p >= 1
  {
    if n == 0 then 1 else 256 * Pow256(n - 1)
  }

  /** A byte string as a big-endian number. */
  function BigEndian(s: Bytes): nat {
    if s == [] then 0 else s[0] * Pow256(|s| - 1) + BigEndian(s[1..])
  }

  lemma {:induction false} BigEndianBound(s: Bytes)
    ensures BigEndian(s) < Pow256(|s|)
    decreases |s|
  {
    if s == [] {
    } else {
      BigEndianBound(s[1..]);
      DigitBound(s[0], Pow256(|s| - 1), BigEndian(s[1..]));
    }
  }

  lemma DigitBound(x: int, p: int, u: int)
    requires 0 <= x <= 255 && 0 <= u < p
    ensures x * p + u < 256 * p
  {
    assert (255 - x) * p >= 0;
  }

  lemma DigitLess(x: int, y: int, p: int, u: int, v: int)
    requires x < y && 0 <= u < p && 0 <= v < p
    ensures x * p + u < y * p + v
  {
    var k := y - x - 1;
    assert k * p >= 0;
    assert y * p == x * p + k * p + p;
  }

  lemma DigitOrder(x: int, y: int, p: int, u: int, v: int)
    requires 0 <= u < p && 0 <= v < p
    ensures x * p + u < y * p + v <==> x < y || (x == y && u < v)
    ensures x * p + u == y * p + v <==> x == y && u == v
  {
    if x < y {
      DigitLess(x, y, p, u, v);
    } else if y < x {
      DigitLess(y, x, p, v, u);
    }
  }

  /** memcmp on equal lengths is numeric comparison in network order. */
  lemma {:induction false} MemLessIsNumeric(a: Bytes, b: Bytes)
    requires |a| == |b|
    ensures MemLess(a, b) <==> BigEndian(a) < BigEndian(b)
    ensures a == b <==> BigEndian(a) == BigEndian(b)
    decreases |a|
  {
    if a == [] {
    } else {
      MemLessIsNumeric(a[1..], b[1..]);
      BigEndianBound(a[1..]);
      BigEndianBound(b[1..]);
      DigitOrder(a[0], b[0], Pow256(|a| - 1), BigEndian(a[1..]), BigEndian(b[1..]));
      assert a == [a[0]] + a[1..] && b == [b[0]] + b[1..];
    }
  }

  /** The order the standard describes: field by field, smaller is better. */
  predicate Better(v: Vector, w: Vector) {
    if v.priority1 != w.priority1 then v.priority1 < w.priority1
    else if v.cqClass != w.cqClass then v.cqClass < w.cqClass
    else if v.accuracy != w.accuracy then v.accuracy < w.accuracy
    else if v.variance != w.variance then v.variance < w.variance
    else if v.priority2 != w.priority2 then v.priority2 < w.priority2
    else BigEndian(v.identity) < BigEndian(w.identity)
  }

  lemma VarianceOrder(x: uint16, y: uint16)
    ensures x < y <==> x / TWO_8 < y / TWO_8 || (x / TWO_8 == y / TWO_8 && x % TWO_8 < y % TWO_8)
    ensures x == y <==> x / TWO_8 == y / TWO_8 && x % TWO_8 == y % TWO_8
  {
  }

  lemma FirstField(v: Vector, w: Vector, k: nat)
    requires k < 6 && Buffer(v)[k] != Buffer(w)[k] && forall j :: 0 <= j < k ==> Buffer(v)[j] == Buffer(w)[j]
    ensures Better(v, w) <==> Buffer(v)[k] < Buffer(w)[k]
  {
    VarianceOrder(v.variance, w.variance);
    var a, b := Buffer(v), Buffer(w);
    assert a[0] == v.priority1 && a[1] == v.cqClass && a[2] == v.accuracy && a[5] == v.priority2;
    assert a[3] == v.variance / TWO_8 && a[4] == v.variance % TWO_8;
    assert b[0] == w.priority1 && b[1] == w.cqClass && b[2] == w.accuracy && b[5] == w.priority2;
    assert b[3] == w.variance / TWO_8 && b[4] == w.variance % TWO_8;
    assert k in {0, 1, 2, 3, 4, 5};
  }

  /** The byte comparison is the field-by-field order. */
  lemma BufferOrder(v: Vector, w: Vector)
    ensures MemLess(Buffer(v), Buffer(w)) <==> Better(v, w)
    ensures Buffer(v) == Buffer(w) <==> v == w
  {
    var a, b := Buffer(v), Buffer(w);
    assert a[6..] == v.identity && b[6..] == w.identity;
    VarianceOrder(v.variance, w.variance);
    if k: nat :| k < 6 && a[k] != b[k] && a[..k] == b[..k] {
      MemLessAt(a, b, k);
      assert forall j :: 0 <= j < k ==> a[j] == a[..k][j] == b[j];
      FirstField(v, w, k);
    } else {
      SamePrefix(a, b, 6);
      MemLessIsNumeric(v.identity, w.identity);
      assert forall j :: 0 <= j < 6 ==> a[j] == a[..6][j] == b[j];
    }
  }

  lemma {:induction false} SamePrefix(a: Bytes, b: Bytes, n: nat)
    requires |a| == |b| && n <= |a|
    requires forall k: nat :: k < n && a[..k] == b[..k] ==> a[k] == b[k]
    ensures a[..n] == b[..n]
    ensures MemLess(a, b) <==> MemLess(a[n..], b[n..])
    decreases n
  {
    if n == 0 {
    } else {
      SamePrefix(a, b, n - 1);
      assert a[n - 1..][1..] == a[n..] && b[n - 1..][1..] == b[n..];
      assert a[..n] == a[..n - 1] + [a[n - 1]] && b[..n] == b[..n - 1] + [b[n - 1]];
    }
  }

  /** A strict total order: no vector beats itself, it is transitive, and of two
      different vectors exactly one is better. */
  lemma BetterIsStrictTotal(u: Vector, v: Vector, w: Vector)
    ensures !Better(v, v)
    ensures Better(u, v) && Better(v, w) ==> Better(u, w)
    ensures u != v ==> (Better(u, v) <==> !Better(v, u))
  {
    BufferOrder(u, v);
    BufferOrder(v, u);
    BufferOrder(v, v);
    BufferOrder(v, w);
    BufferOrder(u, w);
    MemLessIsNumeric(Buffer(u), Buffer(v));
    MemLessIsNumeric(Buffer(v), Buffer(u));
    MemLessIsNumeric(Buffer(v), Buffer(v));
    MemLessIsNumeric(Buffer(v), Buffer(w));
    MemLessIsNumeric(Buffer(u), Buffer(w));
  }

  // ---- clock identity from a MAC address ----------------------------------------

  /** Memory bytes as a little-endian machine word, and back. */
  function Word(s: Bytes): nat {
    if s == [] then 0 else s[0] + 256 * Word(s[1..])
  }

  function Memory(x: nat, n: nat): (s: Bytes)
    ensures |s| == n
    decreases n
  {
    if n == 0 then [] else [x % 256] + Memory(x / 256, n - 1)
  }

  lemma {:induction false} MemoryOfWord(s: Bytes)
    ensures Memory(Word(s), |s|) == s
    decreases |s|
  {
    if s == [] {
    } else {
      MemoryOfWord(s[1..]);
      assert Word(s) % 256 == s[0] && Word(s) / 256 == Word(s[1..]);
    }
  }

  /** ClockIdentity::set on a 64-bit word: open a 16-bit gap above the low three
      octets and put 0xFEFF into it. */
  function ClockIdentity(mac: Mac): Identity {
    var word := Word(mac);
    var low := word % 0x100_0000;
    Memory((word / 0x100_0000 * 0x1_0000 + 0xFEFF) * 0x100_0000 + low, 8)
  }

  function Eui64(mac: Mac): Identity { mac[..3] + [0xFF, 0xFE] + mac[3..] }

  /** The shifted and masked word is the word of the EUI-64. */
  lemma EuiWord(mac: Mac)
    ensures (Word(mac) / 0x100_0000 * 0x1_0000 + 0xFEFF) * 0x100_0000 + Word(mac) % 0x100_0000 == Word(Eui64(mac))
  {
    var eui := Eui64(mac);
    var x: int, y: int, z: int := mac[0], mac[1], mac[2];
    WordSplit(mac);
    WordSplit(eui);
    assert eui[3..] == [0xFF, 0xFE] + mac[3..];
    WordOfGap(eui[3..], mac[3..]);
    InsertGap(x + 256 * y + 0x1_0000 * z, Word(mac[3..]));
  }

  /** The result is the standard's EUI-64: FF FE between the two halves of the
      address, so two addresses give one identity only if they are equal. */
  lemma ClockIdentityIsEui64(mac: Mac)
    ensures ClockIdentity(mac) == mac[..3] + [0xFF, 0xFE] + mac[3..]
  {
    EuiWord(mac);
    MemoryOfWord(Eui64(mac));
  }

  lemma WordOfGap(rest: Bytes, tail: Bytes)
    requires rest == [0xFF, 0xFE] + tail
    ensures Word(rest) == 0xFEFF + 0x1_0000 * Word(tail)
  {
    assert rest[1..] == [0xFE] + tail && rest[1..][1..] == tail;
    assert Word(rest[1..]) == 0xFE + 256 * Word(tail);
  }

  lemma InsertGap(low: nat, high: nat)
    requires low < 0x100_0000
    ensures var word := low + 0x100_0000 * high;
            (word / 0x100_0000 * 0x1_0000 + 0xFEFF) * 0x100_0000 + word % 0x100_0000
                == low + 0x100_0000 * (0xFEFF + 0x1_0000 * high)
  {
    var word := low + 0x100_0000 * high;
    assert word / 0x100_0000 == high && word % 0x100_0000 == low;
  }

  lemma WordSplit(s: Bytes)
    requires |s| >= 3
    ensures Word(s) == s[0] + 256 * s[1] + 0x1_0000 * s[2] + 0x100_0000 * Word(s[3..])
  {
    assert s[1..][1..] == s[2..] && s[2..][1..] == s[3..];
    assert Word(s[1..]) == s[1] + 256 * Word(s[2..]);
    assert Word(s[2..]) == s[2] + 256 * Word(s[3..]);
  }

  lemma ClockIdentityInjective(a: Mac, b: Mac)
    ensures ClockIdentity(a) == ClockIdentity(b) <==> a == b
  {
    ClockIdentityIsEui64(a);
    ClockIdentityIsEui64(b);
    if ClockIdentity(a) == ClockIdentity(b) {
      assert a == ClockIdentity(a)[..3] + ClockIdentity(a)[5..];
      assert b == ClockIdentity(b)[..3] + ClockIdentity(b)[5..];
    }
  }
}
