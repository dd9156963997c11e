/** The path-trace TLV of Announce messages: a list of clock identities that is
    printed to and parsed from a byte buffer. */
module PathTrace {
  import opened MachineInts
  import opened PriorityVectors
  import opened Wire

  const ID: nat := 8

  function Flatten(ids: seq<Identity>): (s: Bytes)
    ensures |s| == 8 * |ids|
  {
    if ids == [] then [] else Flatten(ids[..|ids| - 1]) + ids[|ids| - 1]
  }

  /** Type, length (of which only sixteen bits remain) and the identities. */
  function Print(ids: seq<Identity>): (s: Bytes)
    ensures |s| == 4 + 8 * |ids|
  {
    ToBytes(8, 2) + ToBytes(8 * |ids| % TWO_16, 2) + Flatten(ids)
  }

  /** The first n identities of a byte string. */
  function Chunks(s: Bytes, n: nat): (ids: seq<Identity>)
    requires 8 * n <= |s|
    ensures |ids| == n
  {
    seq(n, i requires 0 <= i < n => s[8 * i..8 * i + 8])
  }

  /** How many identities are taken from size bytes that follow the TLV type.  The size
      left after the length is compared as an unsigned number, so that one below zero
      does not limit anything. */
  function Count(buffer: Bytes, size: int): nat
    requires |buffer| >= 2
  {
    var length := BigEndian(buffer[..2]);
    (if 0 <= size - 2 < length then size - 2 else length) / 8
  }

  /** That is the whole identities in what the length field shows and, if there are at least the
      two bytes of the length field, in what is left of the size; with fewer the size limits
      nothing. */
  lemma CountMeans(buffer: Bytes, size: int)
    requires |buffer| >= 2
    ensures var length, n := BigEndian(buffer[..2]), Count(buffer, size);
            if size >= 2 && size - 2 < length then 8 * n <= size - 2 < 8 * n + 8 else 8 * n <= length < 8 * n + 8
  {
  }

  function Identities(buffer: Bytes, size: int): (ids: seq<Identity>)
    requires |buffer| >= 2 && 2 + 8 * Count(buffer, size) <= |buffer|
  {
    Chunks(buffer[2..], Count(buffer, size))
  }

  /** The parser stays inside the bytes it is pointed to. */
  predicate Inside(buffer: Bytes, size: int)
    requires |buffer| >= 2
  {
    2 + 8 * Count(buffer, size) <= |buffer|
  }

  /** The identities that are parsed from inside them: all, or those before the end. */
  function Obtained(buffer: Bytes, size: int): (ids: seq<Identity>)
    requires |buffer| >= 2
    ensures Inside(buffer, size) ==> ids == Identities(buffer, size)
  {
    Chunks(buffer[2..], if Inside(buffer, size) then Count(buffer, size) else (|buffer| - 2) / 8)
  }

  method PutIdentities(buf: array<uint8>, at: nat, ids: seq<Identity>)
    requires at + 8 * |ids| <= buf.Length
    modifies buf
    ensures buf[at..at + 8 * |ids|] == Flatten(ids)
    ensures forall i :: 0 <= i < buf.Length && !(at <= i < at + 8 * |ids|) ==> buf[i] == old(buf[i])
  {
    for k := 0 to |ids|
      invariant buf[at..at + 8 * k] == Flatten(ids[..k])
      invariant forall i :: 0 <= i < buf.Length && !(at <= i < at + 8 * k) ==> buf[i] == old(buf[i])
    {
      ghost var done := buf[at..at + 8 * k];
      Put(buf, at + 8 * k, ids[k]);
      assert buf[at..at + 8 * k] == done;
      assert buf[at..at + 8 * (k + 1)] == done + ids[k];
      assert ids[..k + 1][..k] == ids[..k];
    }
    assert ids[..|ids|] == ids;
  }

  class PathTraceTLV {
    var identityList: seq<Identity>

    constructor ()
      ensures identityList == []
    {
      identityList := [];
    }

    /** From after the TLV type on, the identities are appended.  What the program reads
        beyond the end of the buffer is undefined; the model stops there and says so. */
    method ParseClockIdentity(buffer: array<uint8>, start: nat, size: int) returns (overran: bool)
      requires start + 2 <= buffer.Length
      modifies this
      ensures identityList == old(identityList) + Obtained(buffer[start..], size)
      ensures overran <==> !Inside(buffer[start..], size)
    {
      var length := BigEndian(buffer[start..start + 2]);
      ghost var rest := buffer[start..];
      assert rest[..2] == buffer[start..start + 2];
      if 0 <= size - 2 < length {
        length := size - 2;
      }
      length := length / ID;
      ghost var n, ids := length, Obtained(rest, size);
      var at := start + 2;
      while length > 0
        invariant 0 <= length <= n && at == start + 2 + 8 * (n - length) <= buffer.Length
        invariant n - length <= |ids| && identityList == old(identityList) + ids[..n - length]
      {
        if at + ID > buffer.Length {
          assert |ids| == n - length && ids[..n - length] == ids;
          return true;
        }
        SliceOfRest(rest, 2, 8 * (n - length), 8 * (n - length) + 8);
        assert rest[at - start..at - start + 8] == buffer[at..at + 8];
        assert ids[..n - length + 1] == ids[..n - length] + [buffer[at..at + 8]];
        identityList := identityList + [buffer[at..at + 8]];
        at := at + ID;
        length := length - 1;
      }
      assert ids[..n] == ids;
      overran := false;
    }

    method AppendClockIdentity(id: Identity)
      modifies this
      ensures identityList == old(identityList) + [id]
    {
      identityList := identityList + [id];
    }

    method ToByteString(buf: array<uint8>, at: nat)
      requires at + 4 + 8 * |identityList| <= buf.Length
      modifies buf
      ensures buf[at..at + 4 + 8 * |identityList|] == Print(identityList)
      ensures forall i :: 0 <= i < buf.Length && !(at <= i < at + 4 + 8 * |identityList|) ==> buf[i] == old(buf[i])
    {
      Put(buf, at, ToBytes(8, 2));
      Put(buf, at + 2, ToBytes(8 * |identityList| % TWO_16, 2));
      ghost var front := buf[at..at + 4];
      assert front == buf[at..at + 2] + buf[at + 2..at + 4];
      PutIdentities(buf, at + 4, identityList);
      assert buf[at..at + 4] == front;
      assert buf[at..at + 4 + 8 * |identityList|] == front + buf[at + 4..at + 4 + 8 * |identityList|];
    }

    /** std::find over the list. */
    method Has(id: Identity) returns (found: bool)
      ensures found <==> id in identityList
    {
      for i := 0 to |identityList|
        invariant id !in identityList[..i]
      {
        if identityList[i] == id {
          return true;
        }
      }
      found := false;
    }

    method Length() returns (n: nat)
      ensures n == |Print(identityList)|
    {
      n := 2 * 2 + ID * |identityList|;
    }
  }

  // ---- printing and parsing ---------------------------------------------------------

  lemma {:induction false} FlattenAt(ids: seq<Identity>, i: nat)
    requires i < |ids|
    ensures Flatten(ids)[8 * i..8 * i + 8] == ids[i]
    decreases |ids|
  {
    var front := ids[..|ids| - 1];
    if i == |ids| - 1 {
    } else {
      FlattenAt(front, i);
      assert Flatten(ids)[8 * i..8 * i + 8] == Flatten(front)[8 * i..8 * i + 8];
    }
  }

  /** A printed TLV is of type eight, shows the bytes of its identities, of which sixteen bits
      remain, and holds them one after the other. */
  lemma PrintedAs(ids: seq<Identity>, i: nat)
    requires i < |ids|
    ensures var s := Print(ids);
            && BigEndian(s[..2]) == 8 && BigEndian(s[2..4]) == 8 * |ids| % 65536
            && s[4 + 8 * i..12 + 8 * i] == ids[i]
  {
    var s := Print(ids);
    Powers();
    BytesToNumber(8, 2);
    BytesToNumber(8 * |ids| % TWO_16, 2);
    assert s[..2] == ToBytes(8, 2) && s[2..4] == ToBytes(8 * |ids| % TWO_16, 2);
    FlattenAt(ids, i);
    SliceOfRest(s, 4, 8 * i, 8 * i + 8);
    assert s[4..] == Flatten(ids);
  }

  lemma PrintedChunks(ids: seq<Identity>, n: nat)
    requires n <= |ids|
    ensures Chunks(Print(ids)[2..][2..], n) == ids[..n]
  {
    assert Print(ids)[2..][2..] == Flatten(ids);
    forall i | 0 <= i < n
      ensures Chunks(Flatten(ids), n)[i] == ids[i]
    {
      FlattenAt(ids, i);
    }
  }

  lemma ShownLength(n: nat)
    ensures 8 * n % 65536 == 8 * (n % 8192)
  {
    assert 8 * n == 65536 * (n / 8192) + 8 * (n % 8192);
  }

  lemma PrintedLength(ids: seq<Identity>)
    ensures BigEndian(Print(ids)[2..][..2]) == 8 * |ids| % TWO_16
  {
    Powers();
    BytesToNumber(8 * |ids| % TWO_16, 2);
    assert Print(ids)[2..][..2] == ToBytes(8 * |ids| % TWO_16, 2);
  }

  /** Of any printed list, cut anywhere, the longest whole prefix is parsed, up to
      what the sixteen-bit length still shows. */
  lemma ParsePrinted(ids: seq<Identity>, size: nat)
    requires 2 <= size <= 2 + 8 * |ids|
    ensures var shown, fit := |ids| % 8192, (size - 2) / 8;
            Identities(Print(ids)[2..], size) == ids[..if fit < shown then fit else shown]
  {
    PrintedLength(ids);
    ShownLength(|ids|);
    var n := Count(Print(ids)[2..], size);
    PrintedChunks(ids, n);
  }

  /** Printing then parsing is the identity exactly for lists of up to 8191 identities. */
  lemma RoundTrip(ids: seq<Identity>)
    ensures Identities(Print(ids)[2..], 2 + 8 * |ids|) == ids <==> |ids| <= 8191
  {
    ParsePrinted(ids, 2 + 8 * |ids|);
    if |ids| <= 8191 {
      assert ids[..|ids|] == ids;
    }
  }

  /** The shortest list that is lost: its length field is zero. */
  lemma LostList(id: Identity)
    ensures var ids: seq<Identity> := seq(8192, _ => id); Identities(Print(ids)[2..], 2 + 8 * |ids|) == []
  {
    var ids: seq<Identity> := seq(8192, _ => id);
    ParsePrinted(ids, 2 + 8 * |ids|);
  }

  /** Whatever the bytes are, a parsed list prints back to the bytes it came from. */
  lemma PrintParsed(buffer: Bytes, size: nat)
    requires 2 <= size <= |buffer|
    ensures var n := Count(buffer, size); 2 + 8 * n <= size && Flatten(Identities(buffer, size)) == buffer[2..2 + 8 * n]
  {
    var n := Count(buffer, size);
    FlattenChunks(buffer[2..], n);
    assert buffer[2..][..8 * n] == buffer[2..2 + 8 * n];
  }

  lemma {:induction false} FlattenChunks(s: Bytes, n: nat)
    requires 8 * n <= |s|
    ensures Flatten(Chunks(s, n)) == s[..8 * n]
  {
    if n == 0 {
    } else {
      FlattenChunks(s, n - 1);
      assert Chunks(s, n)[..n - 1] == Chunks(s, n - 1);
      assert s[..8 * n] == s[..8 * (n - 1)] + s[8 * (n - 1)..8 * n];
    }
  }

  // ---- the call: the path trace of a received Announce ---------------------------------

  /** Header and Announce fields; the TLV type follows, then its length and its identities. */
  const TLV_AT: nat := 34 + 30

  /** tlv_length as it is computed: the Announce fields are added, not taken away. */
  function TlvLength(size: int): int { size - 34 + 30 }

  predicate HasPath(buf: Bytes, size: int)
    requires |buf| == RECEIVE_BUFFER
  {
    TlvLength(size) > 4 && BigEndian(buf[TLV_AT..TLV_AT + 2]) == 8
  }

  /** The path obtained, and whether the parser left the buffer. */
  function PathOf(buf: Bytes, size: int): (seq<Identity>, bool)
    requires |buf| == RECEIVE_BUFFER
  {
    if HasPath(buf, size) then
      var rest := buf[TLV_AT + 2..];
      (Obtained(rest, TlvLength(size) - 2), !Inside(rest, TlvLength(size) - 2))
    else ([], false)
  }

  method ParsePath(buf: array<uint8>, size: int) returns (tlv: PathTraceTLV, overran: bool)
    requires buf.Length == RECEIVE_BUFFER
    ensures fresh(tlv) && (tlv.identityList, overran) == PathOf(buf[..], size)
  {
    tlv := new PathTraceTLV();
    overran := false;
    var tlvLength := size - 34 + 30;
    assert buf[..][TLV_AT..TLV_AT + 2] == buf[TLV_AT..TLV_AT + 2];
    if tlvLength > 4 && BigEndian(buf[TLV_AT..TLV_AT + 2]) == 8 {
      assert buf[..][TLV_AT + 2..] == buf[TLV_AT + 2..];
      overran := tlv.ParseClockIdentity(buf, TLV_AT + 2, tlvLength - 2);
      assert [] + Obtained(buf[TLV_AT + 2..], tlvLength - 2) == Obtained(buf[TLV_AT + 2..], tlvLength - 2);
    }
  }

  /** There is a path exactly if more than eight bytes arrived and the TLV behind the Announce
      fields is of type eight. */
  lemma PathWhen(buf: Bytes, size: int)
    requires |buf| == RECEIVE_BUFFER
    ensures HasPath(buf, size) <==> size > 8 && BigEndian(buf[64..66]) == 8
    ensures !HasPath(buf, size) ==> PathOf(buf, size) == ([], false)
  {
  }

  /** The length field of the TLV. */
  function Shown(buf: Bytes): nat
    requires |buf| == RECEIVE_BUFFER
  {
    BigEndian(buf[TLV_AT + 2..][..2])
  }

  /** The position behind the last byte that is read. */
  function ReadEnd(buf: Bytes, size: int): nat
    requires |buf| == RECEIVE_BUFFER && HasPath(buf, size)
  {
    TLV_AT + 4 + 8 * Count(buf[TLV_AT + 2..], TlvLength(size) - 2)
  }

  /** What is read lies inside the buffer exactly if few bytes arrived or few are shown. */
  lemma StaysInside(buf: Bytes, size: int)
    requires |buf| == RECEIVE_BUFFER && HasPath(buf, size)
    ensures !PathOf(buf, size).1 <==> ReadEnd(buf, size) <= RECEIVE_BUFFER
    ensures !PathOf(buf, size).1 <==> size < 72 || Shown(buf) < 64
  {
    assert |buf[TLV_AT + 2..]| == 62;
  }

  /** And it is what arrived exactly if all of the identities shown did. */
  lemma UsesArrived(buf: Bytes, size: int)
    requires |buf| == RECEIVE_BUFFER && HasPath(buf, size)
    ensures ReadEnd(buf, size) <= size <==> 68 + 8 * (Shown(buf) / 8) <= size
  {
  }

  /** The longest whole prefix of the identities shown that arrived. */
  function Arrived(buf: Bytes, size: nat): seq<Identity>
    requires |buf| == RECEIVE_BUFFER && 68 <= size <= RECEIVE_BUFFER
  {
    Chunks(buf[TLV_AT + 2..][2..], (if Shown(buf) < size - 68 then Shown(buf) else size - 68) / 8)
  }

  /** So is the path obtained the longest whole prefix of what arrived. */
  lemma PathIsArrived(buf: Bytes, size: nat)
    requires |buf| == RECEIVE_BUFFER && 68 <= size <= RECEIVE_BUFFER && HasPath(buf, size)
    ensures PathOf(buf, size) == (Arrived(buf, size), false) <==> 68 + 8 * (Shown(buf) / 8) <= size
  {
    StaysInside(buf, size);
    UsesArrived(buf, size);
    var n := Count(buf[TLV_AT + 2..], TlvLength(size) - 2);
    if n <= 7 {
      assert |PathOf(buf, size).0| == n;
    }
  }

  /** Received bytes that begin like an Announce with this path. */
  ghost predicate Carries(buf: Bytes, size: nat, ids: seq<Identity>) {
    && |buf| == RECEIVE_BUFFER && 68 <= size <= RECEIVE_BUFFER && size <= 68 + 8 * |ids|
    && buf[TLV_AT..size] == Print(ids)[..size - TLV_AT]
  }

  /** A stretch of the received bytes is that stretch of the TLV. */
  lemma CarriedBytes(buf: Bytes, size: nat, ids: seq<Identity>, i: nat, j: nat)
    requires Carries(buf, size, ids) && i <= j && TLV_AT + j <= size
    ensures buf[TLV_AT + i..TLV_AT + j] == Print(ids)[i..j]
  {
    SliceOfSlice(buf, TLV_AT, size, i, j);
    SliceOfSlice(Print(ids), 0, size - TLV_AT, i, j);
  }

  lemma CarriedPath(buf: Bytes, size: nat, ids: seq<Identity>)
    requires Carries(buf, size, ids)
    ensures HasPath(buf, size) && Shown(buf) == 8 * |ids| % TWO_16
  {
    var sent := Print(ids);
    CarriedBytes(buf, size, ids, 0, 2);
    CarriedBytes(buf, size, ids, 2, 4);
    assert sent[0..2] == ToBytes(8, 2);
    SliceOfRest(buf, TLV_AT + 2, 0, 2);
    SliceOfRest(sent, 2, 0, 2);
    Powers();
    BytesToNumber(8, 2);
    PrintedLength(ids);
  }

  lemma CarriedChunks(buf: Bytes, size: nat, ids: seq<Identity>, n: nat)
    requires Carries(buf, size, ids) && 68 + 8 * n <= size
    ensures Chunks(buf[TLV_AT + 2..][2..], n) == ids[..n]
  {
    PrintedChunks(ids, n);
    forall i | 0 <= i < n
      ensures buf[TLV_AT + 2..][2..][8 * i..8 * i + 8] == Print(ids)[2..][2..][8 * i..8 * i + 8]
    {
      CarriedIdentity(buf, size, ids, i);
    }
  }

  lemma CarriedIdentity(buf: Bytes, size: nat, ids: seq<Identity>, i: nat)
    requires Carries(buf, size, ids) && 76 + 8 * i <= size
    ensures buf[TLV_AT + 2..][2..][8 * i..8 * i + 8] == Print(ids)[2..][2..][8 * i..8 * i + 8]
  {
    var a, b := 8 * i, 8 * i + 8;
    SliceOfRest(buf[TLV_AT + 2..], 2, a, b);
    SliceOfRest(buf, TLV_AT + 2, 2 + a, 2 + b);
    SliceOfRest(Print(ids)[2..], 2, a, b);
    SliceOfRest(Print(ids), 2, 2 + a, 2 + b);
    CarriedBytes(buf, size, ids, 4 + a, 4 + b);
  }

  /** A path sent comes out of the daemon as the longest whole prefix that arrived, of what
      its length field shows, exactly if all of that arrived; of every path that was cut
      the parser takes bytes that did not arrive. */
  lemma SentPath(buf: Bytes, size: nat, ids: seq<Identity>)
    requires Carries(buf, size, ids)
    ensures HasPath(buf, size)
    ensures var shown, fit := |ids| % 8192, (size - 68) / 8;
            && (PathOf(buf, size) == (ids[..if shown < fit then shown else fit], false) <==> shown <= fit)
            && (ReadEnd(buf, size) > size <==> shown > fit)
  {
    CarriedPath(buf, size, ids);
    ShownLength(|ids|);
    PathIsArrived(buf, size);
    UsesArrived(buf, size);
    var shown, fit := |ids| % 8192, (size - 68) / 8;
    CarriedChunks(buf, size, ids, if shown < fit then shown else fit);
  }

  /** From eight identities on an Announce does not fit the buffer, and the parser leaves it:
      by 4 bytes with eight of them, by 60 with fifteen or more. */
  lemma LongPath(buf: Bytes, ids: seq<Identity>)
    requires Carries(buf, RECEIVE_BUFFER, ids) && |ids| % 8192 >= 8
    ensures HasPath(buf, RECEIVE_BUFFER)
    ensures PathOf(buf, RECEIVE_BUFFER).1
    ensures var shown := |ids| % 8192;
            ReadEnd(buf, RECEIVE_BUFFER) == RECEIVE_BUFFER + 8 * (if shown < 15 then shown else 15) - 60
  {
    CarriedPath(buf, RECEIVE_BUFFER, ids);
    ShownLength(|ids|);
    StaysInside(buf, RECEIVE_BUFFER);
  }

  /** Such an Announce, with eight times the same identity. */
  lemma EightHops(id: Identity) returns (buf: Bytes)
    ensures Carries(buf, RECEIVE_BUFFER, seq(8, _ => id)) && HasPath(buf, RECEIVE_BUFFER)
    ensures PathOf(buf, RECEIVE_BUFFER).1 && ReadEnd(buf, RECEIVE_BUFFER) == 132
  {
    var ids: seq<Identity> := seq(8, _ => id);
    buf := seq(64, _ => 0) + Print(ids)[..64];
    assert buf[TLV_AT..RECEIVE_BUFFER] == Print(ids)[..64];
    LongPath(buf, ids);
  }

  /** Hence a path survives the daemon's reception exactly up to seven identities. */
  lemma PathSurvives(buf: Bytes, size: nat, ids: seq<Identity>)
    requires Carries(buf, size, ids)
    requires size == if 68 + 8 * |ids| <= RECEIVE_BUFFER then 68 + 8 * |ids| else RECEIVE_BUFFER
    ensures PathOf(buf, size) == (ids, false) <==> |ids| <= 7
  {
    SentPath(buf, size, ids);
    if |ids| <= 7 {
      assert ids[..|ids|] == ids;
    } else if |ids| % 8192 >= 8 {
      LongPath(buf, ids);
    }
  }
}
