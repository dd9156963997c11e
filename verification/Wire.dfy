/** The byte formats of Follow_Up, Pdelay_Resp and Pdelay_Resp_Follow_Up: encoders
    that fill a zeroed buffer in place, and the decoder.  Multi-byte host integers
    are little-endian, as on the daemon's platforms. */
module Wire {
  import opened MachineInts
  import opened Timestamps
  import opened PriorityVectors
  import opened PeerDelay

  type Flags = s: Bytes | |s| == 2 witness [0, 0]
  type Tlv = s: Bytes | |s| == 32 witness seq(32, _ => 0)

  datatype Header = Header(
    version: uint8, length: uint16, domain: uint8, flags: Flags, correction: int64,
    source: PortId, seqId: uint16, interval: uint8)

  datatype Body =
    | PdelayResp(receipt: Timestamp, requesting: PortId)
    | PdelayRespFollowUp(origin: Timestamp, requesting: PortId)
    | FollowUpBody(precise: Timestamp, tlv: Tlv)

  datatype Message = Message(header: Header, body: Body)

  datatype Decoded =
    | Parsed(msg: Message, rx: Option<Timestamp>)
    | Discarded
    | Other(messageType: nat) // Sync, Pdelay_Req, Announce and Signalling

  const RECEIVE_BUFFER: nat := 128

  function TypeOf(b: Body): uint8 {
    match b
    case PdelayResp(_, _) => 3
    case PdelayRespFollowUp(_, _) => 0xA
    case FollowUpBody(_, _) => 8
  }

  function ControlOf(b: Body): uint8 { if b.FollowUpBody? then 2 else 5 }

  function LengthOf(b: Body): uint16 { if b.FollowUpBody? then 76 else 54 }

  // ---- integers in network order ----------------------------------------------

  function ToBytes(x: nat, k: nat): (s: Bytes)
    ensures |s| == k
  {
    if k == 0 then [] else ToBytes(x / 256, k - 1) + [x % 256]
  }

  lemma {:induction false} BigEndianSnoc(s: Bytes, b: uint8)
    ensures BigEndian(s + [b]) == BigEndian(s) * 256 + b
    decreases |s|
  {
    if s == [] {
      assert (s + [b])[1..] == [];
    } else {
      BigEndianSnoc(s[1..], b);
      assert (s + [b])[1..] == s[1..] + [b];
      Shifted(s[0], Pow256(|s| - 1), BigEndian(s[1..]));
    }
  }

  lemma Shifted(x: int, p: int, u: int)
    ensures (x * p + u) * 256 == x * (256 * p) + u * 256
  {
  }

  lemma {:induction false} BytesToNumber(x: nat, k: nat)
    requires x < Pow256(k)
    ensures BigEndian(ToBytes(x, k)) == x
  {
    if k == 0 {
    } else {
      BytesToNumber(x / 256, k - 1);
      BigEndianSnoc(ToBytes(x / 256, k - 1), x % 256);
    }
  }

  lemma LastByte(n: nat, b: uint8)
    ensures (n * 256 + b) / 256 == n && (n * 256 + b) % 256 == b
  {
  }

  lemma {:induction false} NumberToBytes(s: Bytes)
    ensures ToBytes(BigEndian(s), |s|) == s
    decreases |s|
  {
    if s == [] {
    } else {
      var front, last := s[..|s| - 1], s[|s| - 1];
      NumberToBytes(front);
      assert s == front + [last];
      BigEndianSnoc(front, last);
      LastByte(BigEndian(front), last);
    }
  }

  lemma Powers()
    ensures Pow256(2) == TWO_16 && Pow256(4) == TWO_32 && Pow256(8) == TWO_64
  {
    assert Pow256(3) == 256 * Pow256(2);
    assert Pow256(4) == 256 * Pow256(3);
    assert Pow256(5) == 256 * Pow256(4);
    assert Pow256(6) == 256 * Pow256(5);
    assert Pow256(7) == 256 * Pow256(6);
    assert Pow256(8) == 256 * Pow256(7);
  }

  // ---- the layout ---------------------------------------------------------------

  function PortBytes(id: PortId): (s: Bytes)
    ensures |s| == 10
  {
    id.clock + ToBytes(id.number, 2)
  }

  function TimeBytes(ts: Timestamp): (s: Bytes)
    ensures |s| == 10
  {
    ToBytes(ts.secondsMs, 2) + ToBytes(ts.secondsLs, 4) + ToBytes(ts.nanoseconds, 4)
  }

  /** PLAT_htonl on a little-endian host. */
  function Swap32(x: uint32): uint32 {
    x % 256 * 0x100_0000 + x / 256 % 256 * 0x1_0000 + x / 0x1_0000 % 256 * 256 + x / 0x100_0000
  }

  /** The time-base indicator, a 16-bit host integer at 14, passes through the 32-bit swap
      into a 16-bit variable, and the TLV is copied out as it lies in memory. */
  function Indicator(tlv: Tlv): uint16 {
    var lo: int, hi: int := tlv[14], tlv[15];
    lo + 256 * hi
  }

  function WireTlv(tlv: Tlv): Tlv {
    var indicator := Indicator(tlv);
    var swapped := Swap32(indicator) % TWO_16;
    tlv[..14] + [swapped % 256, swapped / 256] + tlv[16..]
  }

  function StartBytes(h: Header, messageType: uint8): (s: Bytes)
    requires messageType < 16
    ensures |s| == 6
  {
    [16 + messageType, h.version] + ToBytes(h.length, 2) + [h.domain, 0]
  }

  function PrefixBytes(h: Header, messageType: uint8): (s: Bytes)
    requires messageType < 16
    ensures |s| == 16
  {
    StartBytes(h, messageType) + h.flags + ToBytes(ToUint64(h.correction), 8)
  }

  function HeaderBytes(h: Header, messageType: uint8, control: uint8): (s: Bytes)
    requires messageType < 16
    ensures |s| == 34
  {
    PrefixBytes(h, messageType) + [0, 0, 0, 0] + PortBytes(h.source) + (ToBytes(h.seqId, 2) + [control, h.interval])
  }

  function BodyBytes(b: Body): (s: Bytes)
    ensures |s| == LengthOf(b) - 34
  {
    match b
    case PdelayResp(receipt, requesting) => TimeBytes(receipt) + PortBytes(requesting)
    case PdelayRespFollowUp(origin, requesting) => TimeBytes(origin) + PortBytes(requesting)
    case FollowUpBody(precise, tlv) => TimeBytes(precise) + WireTlv(tlv)
  }

  function Encode(m: Message): (s: Bytes)
    ensures |s| == LengthOf(m.body)
  {
    HeaderBytes(m.header.(length := LengthOf(m.body)), TypeOf(m.body), ControlOf(m.body)) + BodyBytes(m.body)
  }

  // ---- the encoder, in place --------------------------------------------------------

  /** memcpy into the buffer. */
  method Put(buf: array<uint8>, at: nat, bytes: Bytes)
    requires at + |bytes| <= buf.Length
    modifies buf
    ensures buf[at..at + |bytes|] == bytes
    ensures forall i :: 0 <= i < buf.Length && !(at <= i < at + |bytes|) ==> buf[i] == old(buf[i])
  {
    for k := 0 to |bytes|
      invariant buf[at..at + k] == bytes[..k]
      invariant forall i :: 0 <= i < buf.Length && !(at <= i < at + k) ==> buf[i] == old(buf[i])
    {
      buf[at + k] := bytes[k];
      assert buf[at..at + k + 1] == buf[at..at + k] + [bytes[k]];
    }
  }

  method PutPortId(buf: array<uint8>, at: nat, id: PortId)
    requires at + 10 <= buf.Length
    modifies buf
    ensures buf[at..at + 10] == PortBytes(id)
    ensures forall i :: 0 <= i < buf.Length && !(at <= i < at + 10) ==> buf[i] == old(buf[i])
  {
    Put(buf, at, id.clock);
    Put(buf, at + 8, ToBytes(id.number, 2));
    assert buf[at..at + 10] == buf[at..at + 8] + buf[at + 8..at + 10];
  }

  method PutTimestamp(buf: array<uint8>, at: nat, ts: Timestamp)
    requires at + 10 <= buf.Length
    modifies buf
    ensures buf[at..at + 10] == TimeBytes(ts)
    ensures forall i :: 0 <= i < buf.Length && !(at <= i < at + 10) ==> buf[i] == old(buf[i])
  {
    Put(buf, at, ToBytes(ts.secondsMs, 2));
    Put(buf, at + 2, ToBytes(ts.secondsLs, 4));
    Put(buf, at + 6, ToBytes(ts.nanoseconds, 4));
    assert buf[at..at + 10] == buf[at..at + 2] + buf[at + 2..at + 6] + buf[at + 6..at + 10];
  }

  /** The first six bytes of the header. */
  method PutStart(buf: array<uint8>, at: nat, h: Header, messageType: uint8)
    requires at + 6 <= buf.Length && messageType < 16 && buf[at + 5] == 0
    modifies buf
    ensures buf[at..at + 6] == StartBytes(h, messageType)
    ensures forall i :: 0 <= i < buf.Length && !(at <= i < at + 6) ==> buf[i] == old(buf[i])
  {
    buf[at] := 16 + messageType;
    buf[at + 1] := h.version;
    Put(buf, at + 2, ToBytes(h.length, 2));
    buf[at + 4] := h.domain;
    assert buf[at + 2..at + 4] == ToBytes(h.length, 2);
    assert buf[at..at + 6] == [buf[at], buf[at + 1]] + buf[at + 2..at + 4] + [buf[at + 4], buf[at + 5]];
  }

  /** The first sixteen bytes of the header. */
  method PutPrefix(buf: array<uint8>, at: nat, h: Header, messageType: uint8)
    requires at + 16 <= buf.Length && messageType < 16 && buf[at + 5] == 0
    modifies buf
    ensures buf[at..at + 16] == PrefixBytes(h, messageType)
    ensures forall i :: 0 <= i < buf.Length && !(at <= i < at + 16) ==> buf[i] == old(buf[i])
  {
    PutStart(buf, at, h, messageType);
    Put(buf, at + 6, h.flags);
    Put(buf, at + 8, ToBytes(ToUint64(h.correction), 8));
    assert buf[at..at + 6] == StartBytes(h, messageType) && buf[at + 6..at + 8] == h.flags;
    assert buf[at..at + 16] == buf[at..at + 6] + buf[at + 6..at + 8] + buf[at + 8..at + 16];
  }

  /** Sequence id, control and interval.  control is a four-byte enumeration: its
      second byte is overwritten by the interval, the others fall on the body. */
  method PutTail(buf: array<uint8>, at: nat, h: Header, control: uint8)
    requires at + 6 <= buf.Length && buf[at + 4] == 0 && buf[at + 5] == 0
    modifies buf
    ensures buf[at..at + 4] == ToBytes(h.seqId, 2) + [control, h.interval]
    ensures forall i :: 0 <= i < buf.Length && !(at <= i < at + 4) ==> buf[i] == old(buf[i])
  {
    Put(buf, at, ToBytes(h.seqId, 2));
    Put(buf, at + 2, [control, 0, 0, 0]);
    ghost var four := buf[at + 2..at + 6];
    assert buf[at + 2] == four[0] && buf[at + 4] == four[2] && buf[at + 5] == four[3];
    buf[at + 3] := h.interval;
    assert buf[at..at + 4] == buf[at..at + 2] + [control, h.interval];
  }

  method BuildCommonHeader(buf: array<uint8>, at: nat, h: Header, messageType: uint8, control: uint8)
    requires at + 36 <= buf.Length && messageType < 16
    requires forall i :: at <= i < at + 36 ==> buf[i] == 0
    modifies buf
    ensures buf[at..at + 34] == HeaderBytes(h, messageType, control)
    ensures forall i :: 0 <= i < buf.Length && !(at <= i < at + 34) ==> buf[i] == old(buf[i])
  {
    PutPrefix(buf, at, h, messageType);
    PutPortId(buf, at + 20, h.source);
    PutTail(buf, at + 30, h, control);
    assert buf[at..at + 16] == PrefixBytes(h, messageType) && buf[at + 20..at + 30] == PortBytes(h.source);
    assert buf[at..at + 34] == buf[at..at + 16] + [0, 0, 0, 0] + buf[at + 20..at + 30] + buf[at + 30..at + 34];
  }

  method PutBody(buf: array<uint8>, at: nat, b: Body)
    requires at + LengthOf(b) - 34 <= buf.Length
    modifies buf
    ensures buf[at..at + LengthOf(b) - 34] == BodyBytes(b)
    ensures forall i :: 0 <= i < buf.Length && !(at <= i < at + LengthOf(b) - 34) ==> buf[i] == old(buf[i])
  {
    match b {
      case PdelayResp(receipt, requesting) =>
        PutPortId(buf, at + 10, requesting);
        PutTimestamp(buf, at, receipt);
        assert buf[at..at + 20] == buf[at..at + 10] + buf[at + 10..at + 20];
      case PdelayRespFollowUp(origin, requesting) =>
        PutPortId(buf, at + 10, requesting);
        PutTimestamp(buf, at, origin);
        assert buf[at..at + 20] == buf[at..at + 10] + buf[at + 10..at + 20];
      case FollowUpBody(precise, tlv) =>
        PutTimestamp(buf, at, precise);
        Put(buf, at + 10, WireTlv(tlv));
        assert buf[at..at + 42] == buf[at..at + 10] + buf[at + 10..at + 42];
    }
  }

  /** The three send-side encoders: a zeroed buffer, the header, then the body. */
  method BuildMessage(m: Message, payload: nat) returns (buf: array<uint8>)
    requires payload + 76 <= 256
    ensures fresh(buf) && buf.Length == 256
    ensures buf[payload..payload + LengthOf(m.body)] == Encode(m)
    ensures forall i :: 0 <= i < 256 && !(payload <= i < payload + LengthOf(m.body)) ==> buf[i] == 0
  {
    buf := new uint8[256](_ => 0);
    BuildCommonHeader(buf, payload, m.header.(length := LengthOf(m.body)), TypeOf(m.body), ControlOf(m.body));
    PutBody(buf, payload + 34, m.body);
    assert buf[payload..payload + LengthOf(m.body)]
           == buf[payload..payload + 34] + buf[payload + 34..payload + LengthOf(m.body)];
  }

  // ---- the decoder ------------------------------------------------------------------

  function ReadPort(s: Bytes): PortId
    requires |s| == 10
  {
    BigEndianBound(s[8..]);
    Powers();
    PortId(s[..8], BigEndian(s[8..]))
  }

  /** Received timestamps carry no version. */
  function ReadTime(s: Bytes): Timestamp
    requires |s| == 10
  {
    BigEndianBound(s[..2]);
    BigEndianBound(s[2..6]);
    BigEndianBound(s[6..]);
    Powers();
    Timestamp(BigEndian(s[6..]), BigEndian(s[2..6]), BigEndian(s[..2]), INVALID_VERSION)
  }

  function ReadHeader(s: Bytes): Header
    requires |s| == 34
  {
    BigEndianBound(s[2..4]);
    BigEndianBound(s[30..32]);
    Powers();
    Header(s[1], BigEndian(s[2..4]), s[4], s[6..8], ToInt64(BigEndian(s[8..16])), ReadPort(s[20..30]),
           BigEndian(s[30..32]), s[33])
  }

  /** The received bytes, their count, and the receive timestamp if there is one. */
  function Parse(buf: Bytes, size: nat, rx: Option<Timestamp>): Decoded
    requires |buf| == RECEIVE_BUFFER
  {
    var messageType := buf[0] % 16;
    if messageType < 8 && rx.None? then Discarded
    else if buf[0] / 16 != 1 then Discarded
    else if messageType == 3 then
      if size < 54 then Discarded
      else Parsed(Message(ReadHeader(buf[..34]), PdelayResp(ReadTime(buf[34..44]), ReadPort(buf[44..54]))), rx)
    else if messageType == 0xA then
      Parsed(Message(ReadHeader(buf[..34]), PdelayRespFollowUp(ReadTime(buf[34..44]), ReadPort(buf[44..54]))), None)
    else if messageType == 8 then
      if size < 76 then Discarded
      else Parsed(Message(ReadHeader(buf[..34]), FollowUpBody(ReadTime(buf[34..44]), buf[44..76])), None)
    else if messageType == 0 then if size < 44 then Discarded else Other(messageType)
    else if messageType == 2 then if size < 54 && size != 46 then Discarded else Other(messageType)
    else if messageType in {0xB, 0xC} then Other(messageType)
    else Discarded
  }

  /** The bytes that must have arrived: a Sync is its header and 10, a Pdelay_Req or a
      Pdelay_Resp its header and 20, a Follow_Up its header, 10 and a 32-byte TLV; of the
      others the size is not looked at, and a Pdelay_Req of 46 bytes is let through. */
  predicate Enough(messageType: uint8, size: nat) {
    match messageType
    case 0 => size >= 34 + 10
    case 2 => size >= 34 + 20 || size == 46
    case 3 => size >= 34 + 20
    case 8 => size >= 34 + 10 + 32
    case _ => true
  }

  /** A message of a known type, of the daemon's transport, with a receive timestamp if it
      is an event message, and long enough. */
  predicate Taken(first: uint8, size: nat, rx: Option<Timestamp>) {
    var messageType := first % 16;
    && first / 16 == 1 && messageType in {0, 2, 3, 8, 10, 11, 12}
    && (messageType < 8 ==> rx.Some?) && Enough(messageType, size)
  }

  /** Every other message is discarded, and only those; the type of the result is the
      type that the first byte says. */
  lemma DiscardedExactly(buf: Bytes, size: nat, rx: Option<Timestamp>)
    requires |buf| == RECEIVE_BUFFER
    ensures var r, messageType := Parse(buf, size, rx), buf[0] % 16;
            && (r == Discarded <==> !Taken(buf[0], size, rx))
            && (r.Other? <==> Taken(buf[0], size, rx) && messageType in {0, 2, 11, 12})
            && (r.Other? ==> r == Other(messageType))
            && (r.Parsed? ==> TypeOf(r.msg.body) == messageType)
            && (r.Parsed? ==> r.rx == if messageType == 3 then rx else None)
  {
  }

  function FirstStamp(attempts: seq<Option<Timestamp>>): Option<Timestamp> {
    if attempts == [] then None else if attempts[0].Some? then attempts[0] else FirstStamp(attempts[1..])
  }

  lemma {:induction false} FirstStampAt(attempts: seq<Option<Timestamp>>, k: nat)
    requires k <= |attempts| && forall i :: 0 <= i < k ==> attempts[i].None?
    ensures k < |attempts| && attempts[k].Some? ==> FirstStamp(attempts) == attempts[k]
    ensures k == |attempts| ==> FirstStamp(attempts) == None
    decreases k
  {
    if k == 0 {
    } else {
      FirstStampAt(attempts[1..], k - 1);
    }
  }

  /** The receive timestamp is asked for once and then up to five times more. */
  method RxTimestamp(attempts: seq<Option<Timestamp>>) returns (rx: Option<Timestamp>)
    requires |attempts| == 6
    ensures rx == FirstStamp(attempts)
  {
    var iter, k := 5, 0;
    rx := attempts[0];
    while rx.None? && iter != 0
      invariant 0 <= iter <= 5 && k == 5 - iter && rx == attempts[k]
      invariant forall i :: 0 <= i < k ==> attempts[i].None?
      decreases iter
    {
      iter := iter - 1;
      k := k + 1;
      rx := attempts[k];
    }
    FirstStampAt(attempts, if rx.Some? then k else 6);
  }

  method BuildPTPMessage(buf: array<uint8>, size: nat, attempts: seq<Option<Timestamp>>) returns (r: Decoded)
    requires buf.Length == RECEIVE_BUFFER && |attempts| == 6
    ensures r == Parse(buf[..], size, FirstStamp(attempts))
  {
    var messageType := buf[0] % 16;
    var rx := None;
    if messageType < 8 {
      rx := RxTimestamp(attempts);
      if rx.None? {
        return Discarded;
      }
    }
    if buf[0] / 16 != 1 {
      return Discarded;
    }
    var body;
    if messageType == 3 {
      if size < 54 {
        return Discarded;
      }
      body := PdelayResp(ReadTime(buf[34..44]), ReadPort(buf[44..54]));
    } else if messageType == 0xA {
      body := PdelayRespFollowUp(ReadTime(buf[34..44]), ReadPort(buf[44..54]));
    } else if messageType == 8 {
      if size < 76 {
        return Discarded;
      }
      body := FollowUpBody(ReadTime(buf[34..44]), buf[44..76]);
    } else if messageType == 0 {
      if size < 44 {
        return Discarded;
      }
      return Other(messageType);
    } else if messageType == 2 {
      if size < 54 && size != 46 {
        return Discarded;
      }
      return Other(messageType);
    } else if messageType in {0xB, 0xC} {
      return Other(messageType);
    } else {
      return Discarded;
    }
    assert buf[..][..34] == buf[..34] && buf[..][34..44] == buf[34..44] && buf[..][44..54] == buf[44..54]
           && buf[..][44..76] == buf[44..76];
    r := Parsed(Message(ReadHeader(buf[..34]), body), rx);
  }

  // ---- decoding what was encoded --------------------------------------------------------

  lemma Signed64(x: int64)
    ensures ToInt64(ToUint64(x)) == x
  {
  }

  lemma Unsigned64(x: uint64)
    ensures ToUint64(ToInt64(x)) == x
  {
  }

  lemma PortRoundTrip(id: PortId)
    ensures ReadPort(PortBytes(id)) == id
  {
    Powers();
    BytesToNumber(id.number, 2);
    assert PortBytes(id)[8..] == ToBytes(id.number, 2);
  }

  lemma TimeRoundTrip(ts: Timestamp)
    ensures ReadTime(TimeBytes(ts)) == ts.(version := 0xFF)
  {
    Powers();
    BytesToNumber(ts.secondsMs, 2);
    BytesToNumber(ts.secondsLs, 4);
    BytesToNumber(ts.nanoseconds, 4);
    var s := TimeBytes(ts);
    assert s[..2] == ToBytes(ts.secondsMs, 2) && s[2..6] == ToBytes(ts.secondsLs, 4)
           && s[6..] == ToBytes(ts.nanoseconds, 4);
  }

  /** Where the fields of a header are. */
  lemma HeaderFields(h: Header, t: uint8, control: uint8)
    requires t < 16
    ensures var s := HeaderBytes(h, t, control);
            && s[0] == 16 + t && s[1] == h.version && s[2..4] == ToBytes(h.length, 2) && s[4] == h.domain
               && s[6..8] == h.flags
            && s[8..16] == ToBytes(ToUint64(h.correction), 8) && s[20..30] == PortBytes(h.source)
            && s[30..32] == ToBytes(h.seqId, 2) && s[32] == control && s[33] == h.interval
            && s[5] == 0 && s[16..20] == [0, 0, 0, 0]
  {
    var s, prefix := HeaderBytes(h, t, control), PrefixBytes(h, t);
    assert s[..16] == prefix;
    assert s[..6] == StartBytes(h, t);
    assert s[2..4] == s[..6][2..4] == ToBytes(h.length, 2);
    assert s[6..8] == prefix[6..8] == h.flags;
    assert s[8..16] == prefix[8..16] == ToBytes(ToUint64(h.correction), 8);
    assert s[20..30] == PortBytes(h.source);
    assert s[30..32] == ToBytes(h.seqId, 2);
  }

  lemma HeaderRoundTrip(h: Header, t: uint8, control: uint8)
    requires t < 16
    ensures ReadHeader(HeaderBytes(h, t, control)) == h
  {
    HeaderFields(h, t, control);
    Powers();
    BytesToNumber(h.length, 2);
    BytesToNumber(h.seqId, 2);
    BytesToNumber(ToUint64(h.correction), 8);
    Signed64(h.correction);
    PortRoundTrip(h.source);
  }

  function ReceivedBody(b: Body): Body {
    match b
    case PdelayResp(receipt, requesting) => PdelayResp(receipt.(version := 0xFF), requesting)
    case PdelayRespFollowUp(origin, requesting) => PdelayRespFollowUp(origin.(version := 0xFF), requesting)
    case FollowUpBody(precise, tlv) => FollowUpBody(precise.(version := 0xFF), WireTlv(tlv))
  }

  /** A message as its receiver sees it: the true length, no timestamp version, no
      time-base indicator, and otherwise the same. */
  function Received(m: Message): Message {
    Message(m.header.(length := LengthOf(m.body)), ReceivedBody(m.body))
  }

  function TimeOf(b: Body): Timestamp {
    match b
    case PdelayResp(receipt, _) => receipt
    case PdelayRespFollowUp(origin, _) => origin
    case FollowUpBody(precise, _) => precise
  }

  lemma BodyRoundTrip(b: Body, s: Bytes)
    requires |s| >= LengthOf(b) - 34 && s[..LengthOf(b) - 34] == BodyBytes(b)
    ensures ReadTime(s[..10]) == TimeOf(b).(version := 0xFF)
    ensures !b.FollowUpBody? ==> ReadPort(s[10..20]) == b.requesting
    ensures b.FollowUpBody? ==> s[10..42] == WireTlv(b.tlv)
  {
    var n := LengthOf(b) - 34;
    assert s[..10] == s[..n][..10] && s[10..n] == s[..n][10..];
    match b {
      case PdelayResp(t, id) => TimeRoundTrip(t); PortRoundTrip(id);
      case PdelayRespFollowUp(t, id) => TimeRoundTrip(t); PortRoundTrip(id);
      case FollowUpBody(t, _) => TimeRoundTrip(t);
    }
  }

  lemma EncodedParts(m: Message, buf: Bytes)
    requires |buf| == RECEIVE_BUFFER && buf[..LengthOf(m.body)] == Encode(m)
    ensures buf[..34] == HeaderBytes(m.header.(length := LengthOf(m.body)), TypeOf(m.body), ControlOf(m.body))
    ensures buf[34..][..LengthOf(m.body) - 34] == BodyBytes(m.body)
    ensures buf[0] == 16 + TypeOf(m.body)
  {
    var n := LengthOf(m.body);
    assert buf[..34] == buf[..n][..34];
    assert buf[34..][..n - 34] == buf[..n][34..];
    HeaderFields(m.header.(length := LengthOf(m.body)), TypeOf(m.body), ControlOf(m.body));
  }

  /** Big-endian numbers concatenate. */
  lemma {:induction false} BigEndianSum(a: Bytes, b: Bytes)
    ensures BigEndian(a + b) == BigEndian(a) * Pow256(|b|) + BigEndian(b)
    decreases |b|
  {
    if b == [] {
      assert a + b == a;
    } else {
      var front, last := b[..|b| - 1], b[|b| - 1];
      BigEndianSum(a, front);
      BigEndianSnoc(a + front, last);
      BigEndianSnoc(front, last);
      assert a + b == a + front + [last] && b == front + [last];
      Shifted(BigEndian(a), Pow256(|front|), BigEndian(front));
    }
  }

  /** A timestamp is 48 bits of seconds, then 32 bits of nanoseconds, in network order. */
  lemma TimeOnTheWire(ts: Timestamp)
    ensures BigEndian(TimeBytes(ts)[..6]) == Seconds(ts) && BigEndian(TimeBytes(ts)[6..]) == ts.nanoseconds
  {
    Powers();
    BytesToNumber(ts.secondsMs, 2);
    BytesToNumber(ts.secondsLs, 4);
    BytesToNumber(ts.nanoseconds, 4);
    BigEndianSum(ToBytes(ts.secondsMs, 2), ToBytes(ts.secondsLs, 4));
    assert TimeBytes(ts)[..6] == ToBytes(ts.secondsMs, 2) + ToBytes(ts.secondsLs, 4);
    assert TimeBytes(ts)[6..] == ToBytes(ts.nanoseconds, 4);
  }

  lemma PortOnTheWire(id: PortId)
    ensures PortBytes(id)[..8] == id.clock && BigEndian(PortBytes(id)[8..]) == id.number
  {
    Powers();
    BytesToNumber(id.number, 2);
  }

  /** The fields of a header where the standard has them, multi-byte ones as numbers in
      network order. */
  lemma HeaderOnTheWire(h: Header, t: uint8, control: uint8)
    requires t < 16
    ensures var s := HeaderBytes(h, t, control);
            && s[0] == 16 + t && s[1] == h.version && s[4] == h.domain && s[6..8] == h.flags && s[33] == h.interval
            && s[5] == 0 && s[16..20] == [0, 0, 0, 0] && s[32] == control
            && BigEndian(s[2..4]) == h.length && BigEndian(s[30..32]) == h.seqId
            && BigEndian(s[8..16]) == ToUint64(h.correction)
            && s[20..28] == h.source.clock && BigEndian(s[28..30]) == h.source.number
  {
    var s := HeaderBytes(h, t, control);
    HeaderFields(h, t, control);
    Powers();
    BytesToNumber(h.length, 2);
    BytesToNumber(h.seqId, 2);
    BytesToNumber(ToUint64(h.correction), 8);
    PortOnTheWire(h.source);
    assert s[20..28] == s[20..30][..8] && s[28..30] == s[20..30][8..];
  }

  lemma BodyOnTheWire(b: Body)
    ensures var s := BodyBytes(b);
            && BigEndian(s[..6]) == Seconds(TimeOf(b)) && BigEndian(s[6..10]) == TimeOf(b).nanoseconds
            && (!b.FollowUpBody? ==> s[10..18] == b.requesting.clock && BigEndian(s[18..20]) == b.requesting.number)
            && (b.FollowUpBody? ==> s[10..42] == WireTlv(b.tlv))
  {
    var s := BodyBytes(b);
    TimeOnTheWire(TimeOf(b));
    assert s[..6] == TimeBytes(TimeOf(b))[..6] && s[6..10] == TimeBytes(TimeOf(b))[6..];
    if !b.FollowUpBody? {
      PortOnTheWire(b.requesting);
      assert s[10..18] == PortBytes(b.requesting)[..8] && s[18..20] == PortBytes(b.requesting)[8..];
    }
  }

  /** First byte, control and length of the three messages, as the standard numbers them. */
  predicate Numbered(s: Bytes, b: Body)
    requires |s| > 33
  {
    match b
    case PdelayResp(_, _) => s[0] == 0x13 && s[32] == 5 && |s| == 54
    case PdelayRespFollowUp(_, _) => s[0] == 0x1A && s[32] == 5 && |s| == 54
    case FollowUpBody(_, _) => s[0] == 0x18 && s[32] == 2 && |s| == 76
  }

  /** And so for every message sent: its type and length, the header, seconds and nanoseconds,
      and behind them the requesting port or the TLV. */
  lemma OnTheWire(m: Message)
    ensures var s, b := Encode(m), m.body;
            && Numbered(s, b) && s[1] == m.header.version && s[4] == m.header.domain && s[5] == 0
            && s[6..8] == m.header.flags && s[16..20] == [0, 0, 0, 0] && s[33] == m.header.interval
            && BigEndian(s[2..4]) == |s|
            && BigEndian(s[8..16]) == ToUint64(m.header.correction) && BigEndian(s[30..32]) == m.header.seqId
            && s[20..28] == m.header.source.clock && BigEndian(s[28..30]) == m.header.source.number
            && BigEndian(s[34..40]) == Seconds(TimeOf(b)) && BigEndian(s[40..44]) == TimeOf(b).nanoseconds
            && (!b.FollowUpBody? ==> s[44..52] == b.requesting.clock && BigEndian(s[52..54]) == b.requesting.number)
            && (b.FollowUpBody? ==> s[44..76] == WireTlv(b.tlv))
  {
    var h := HeaderBytes(m.header.(length := LengthOf(m.body)), TypeOf(m.body), ControlOf(m.body));
    HeaderOnTheWire(m.header.(length := LengthOf(m.body)), TypeOf(m.body), ControlOf(m.body));
    BodyOnTheWire(m.body);
    SameSlices(h, BodyBytes(m.body));
  }

  /** The slices of a header and a body are those of the whole. */
  lemma SameSlices(h: Bytes, b: Bytes)
    requires |h| == 34 && |b| >= 20
    ensures var s := h + b;
            && s[0] == h[0] && s[1] == h[1] && s[4] == h[4] && s[5] == h[5] && s[32] == h[32] && s[33] == h[33]
            && s[6..8] == h[6..8] && s[16..20] == h[16..20]
            && s[2..4] == h[2..4] && s[8..16] == h[8..16] && s[20..28] == h[20..28]
            && s[28..30] == h[28..30] && s[30..32] == h[30..32]
            && s[34..40] == b[..6] && s[40..44] == b[6..10] && s[44..52] == b[10..18] && s[52..54] == b[18..20]
            && (|b| == 42 ==> s[44..76] == b[10..42])
  {
  }

  lemma SliceOfSlice(s: Bytes, lo: nat, hi: nat, i: nat, j: nat)
    requires i <= j && lo + j <= hi <= |s|
    ensures s[lo..hi][i..j] == s[lo + i..lo + j]
  {
    forall k | 0 <= k < j - i
      ensures s[lo..hi][i..j][k] == s[lo + i..lo + j][k]
    {
      assert s[lo..hi][i + k] == s[lo + i + k];
    }
  }

  lemma SliceOfRest(s: Bytes, k: nat, i: nat, j: nat)
    requires i <= j && k + j <= |s|
    ensures s[k..][i..j] == s[k + i..k + j]
  {
  }

  lemma BodyRead(b: Body, buf: Bytes)
    requires |buf| == RECEIVE_BUFFER && buf[34..][..LengthOf(b) - 34] == BodyBytes(b)
    ensures ReadTime(buf[34..44]) == TimeOf(b).(version := 0xFF)
    ensures !b.FollowUpBody? ==> ReadPort(buf[44..54]) == b.requesting
    ensures b.FollowUpBody? ==> buf[44..76] == WireTlv(b.tlv)
  {
    BodyRoundTrip(b, buf[34..]);
    SliceOfRest(buf, 34, 0, 10);
    SliceOfRest(buf, 34, 10, 20);
    SliceOfRest(buf, 34, 10, 42);
  }

  /** Every encoded message is decoded, whatever follows it in the buffer, and
      nothing but the version and the time-base indicator is lost. */
  lemma DecodeEncoded(m: Message, buf: Bytes, size: nat, rx: Option<Timestamp>)
    requires |buf| == RECEIVE_BUFFER && buf[..LengthOf(m.body)] == Encode(m) && size >= LengthOf(m.body)
    requires m.body.PdelayResp? ==> rx.Some?
    ensures Parse(buf, size, rx) == Parsed(Received(m), if m.body.PdelayResp? then rx else None)
  {
    EncodedParts(m, buf);
    HeaderRoundTrip(m.header.(length := LengthOf(m.body)), TypeOf(m.body), ControlOf(m.body));
    BodyRead(m.body, buf);
  }

  /** The swapped bytes of a 16-bit number are in the upper half. */
  lemma SwapOfShort(x: uint16)
    ensures Swap32(x) % TWO_16 == 0 && Swap32(x) / TWO_16 == x % 256 * 256 + x / 256
  {
    assert x / 256 % 256 == x / 256 && x / 0x1_0000 == 0 && x / 0x100_0000 == 0;
  }

  /** So the time-base indicator survives exactly when it is zero. */
  lemma TimeBaseLost(tlv: Tlv)
    ensures WireTlv(tlv)[14..16] == [0, 0]
    ensures WireTlv(tlv) == tlv <==> Indicator(tlv) == 0
  {
    SwapOfShort(Indicator(tlv));
    assert tlv == tlv[..14] + [tlv[14], tlv[15]] + tlv[16..];
  }

  /** A message of which only the first bytes arrived, whatever else the buffer holds,
      is discarded, unless it is a Pdelay_Resp_Follow_Up, whose size is never looked at. */
  lemma ShortIsDiscarded(m: Message, buf: Bytes, size: nat, rx: Option<Timestamp>)
    requires |buf| == RECEIVE_BUFFER && 1 <= size < LengthOf(m.body) && buf[..size] == Encode(m)[..size]
    ensures Parse(buf, size, rx) == Discarded <==> !m.body.PdelayRespFollowUp?
  {
    HeaderFields(m.header.(length := LengthOf(m.body)), TypeOf(m.body), ControlOf(m.body));
    assert buf[0] == buf[..size][0] == Encode(m)[0];
  }

  // ---- encoding what was decoded --------------------------------------------------------

  /** Bytes that carry information: not the length, which the sender recomputes, the
      reserved bytes, control, or the time-base indicator. */
  predicate Significant(b: Body, i: nat) {
    && i < LengthOf(b) && i != 2 && i != 3 && i != 5 && !(16 <= i < 20) && i != 32
    && !(b.FollowUpBody? && 58 <= i < 60)
  }

  lemma PortReencoded(s: Bytes)
    requires |s| == 10
    ensures PortBytes(ReadPort(s)) == s
  {
    NumberToBytes(s[8..]);
    assert s == s[..8] + s[8..];
  }

  lemma TimeReencoded(s: Bytes)
    requires |s| == 10
    ensures TimeBytes(ReadTime(s)) == s
  {
    NumberToBytes(s[..2]);
    NumberToBytes(s[2..6]);
    NumberToBytes(s[6..]);
    assert s == s[..2] + s[2..6] + s[6..];
  }

  lemma HeaderReencoded(s: Bytes, t: uint8, control: uint8, length: uint16, i: nat)
    requires |s| == 34 && t < 16 && s[0] == 16 + t
    requires i < 34 && i != 2 && i != 3 && i != 5 && !(16 <= i < 20) && i != 32
    ensures HeaderBytes(ReadHeader(s).(length := length), t, control)[i] == s[i]
  {
    var h := ReadHeader(s).(length := length);
    var r := HeaderBytes(h, t, control);
    HeaderFields(h, t, control);
    PortReencoded(s[20..30]);
    NumberToBytes(s[30..32]);
    NumberToBytes(s[8..16]);
    BigEndianBound(s[8..16]);
    Powers();
    Unsigned64(BigEndian(s[8..16]));
    if 6 <= i < 8 {
      assert r[i] == r[6..8][i - 6];
    } else if 8 <= i < 16 {
      assert r[i] == r[8..16][i - 8];
    } else if 20 <= i < 30 {
      assert r[i] == r[20..30][i - 20];
    } else if 30 <= i < 32 {
      assert r[i] == r[30..32][i - 30];
    }
  }

  lemma BodyReencoded(buf: Bytes, b: Body, i: nat)
    requires |buf| == RECEIVE_BUFFER && 34 <= i < LengthOf(b) && Significant(b, i)
    requires match b
             case PdelayResp(t, id) => t == ReadTime(buf[34..44]) && id == ReadPort(buf[44..54])
             case PdelayRespFollowUp(t, id) => t == ReadTime(buf[34..44]) && id == ReadPort(buf[44..54])
             case FollowUpBody(t, tlv) => t == ReadTime(buf[34..44]) && tlv == buf[44..76]
    ensures BodyBytes(b)[i - 34] == buf[i]
  {
    var s := buf[34..44];
    TimeReencoded(s);
    if i < 44 {
      assert TimeBytes(ReadTime(s))[i - 34] == s[i - 34] == buf[i];
    } else if !b.FollowUpBody? {
      PortReencoded(buf[44..54]);
      assert buf[44..54][i - 44] == buf[i];
    } else {
      assert WireTlv(b.tlv)[i - 44] == b.tlv[i - 44] == buf[i];
    }
  }

  /** Every buffer that is decoded is what its own message encodes to, on every byte
      that carries information: decoding loses and invents nothing. */
  lemma EncodeDecoded(buf: Bytes, size: nat, rx: Option<Timestamp>, i: nat)
    requires |buf| == RECEIVE_BUFFER && Parse(buf, size, rx).Parsed?
    requires Significant(Parse(buf, size, rx).msg.body, i)
    ensures Encode(Parse(buf, size, rx).msg)[i] == buf[i]
  {
    var m := Parse(buf, size, rx).msg;
    if i < 34 {
      assert buf[0] == 16 + TypeOf(m.body);
      HeaderReencoded(buf[..34], TypeOf(m.body), ControlOf(m.body), LengthOf(m.body), i);
    } else {
      BodyReencoded(buf, m.body, i);
    }
  }
}
