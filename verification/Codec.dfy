/** The PTCP packet codec: what the bytes of a packet are, and what a datagram means. */
module Codec {
  import opened Bytes

  datatype Result<+T> = Ok(value: T) | Err(error: Error)

  datatype Error = PacketTooShort | InvalidMagic | InvalidPadding | InvalidLength

  datatype Header = Header(sent: U32, recv: U32, pid: U32, lmid: U32, rmid: U32)

  datatype Body =
    | Empty
    | Sync
    | Command(command: seq<Byte>)
    | Payload(realm: U32, data: seq<Byte>)
    | Bind(realm: U32, port: U32)
    | Status(realm: U32, status: seq<Byte>)
    | Heartbeat

  datatype Packet = Packet(header: Header, body: Body)

  const HEADER_SIZE := 24
  const MAGIC: seq<Byte> := [0x50, 0x54, 0x43, 0x50]  // "PTCP"

  const TYPE_SYNC: Byte := 0x00
  const TYPE_PAYLOAD: Byte := 0x10
  const TYPE_BIND: Byte := 0x11
  const TYPE_STATUS: Byte := 0x12
  const TYPE_HEARTBEAT: Byte := 0x13

  const STATUS_DISCONNECT: seq<Byte> := [0x44, 0x49, 0x53, 0x43]  // "DISC"

  // Headers

  function HeaderBytes(h: Header): (s: seq<Byte>)
    ensures |s| == HEADER_SIZE
  {
    MAGIC + PutU32(h.sent) + PutU32(h.recv) + PutU32(h.pid) + PutU32(h.lmid) + PutU32(h.rmid)
  }

  function ParseHeader(d: seq<Byte>): Result<Header> {
    if |d| < HEADER_SIZE then Err(PacketTooShort)
    else if d[0..4] != MAGIC then Err(InvalidMagic)
    else Ok(Header(GetU32(d[4..8]), GetU32(d[8..12]), GetU32(d[12..16]), GetU32(d[16..20]), GetU32(d[20..24])))
  }

  // Bodies

  function Len(b: Body): nat {
    match b
    case Empty => 0
    case Sync => 4
    case Command(command) => |command|
    case Payload(_, data) => |data| + 12
    case Bind(_, _) => 20
    case Status(_, status) => |status| + 12
    case Heartbeat => 12
  }

  /** x | bit, for a single-bit mask. */
  function SetBit(x: Byte, bit: Byte): Byte
    requires bit == 0x02 || bit == 0x10
  {
    if x / bit % 2 == 1 then x else x + bit
  }

  /** The top byte of a body header word: the type tag or-ed over bits 24 to 31 of the length. */
  function TagByte(tag: Byte, high: Byte): Byte
    requires tag == TYPE_PAYLOAD || tag == TYPE_STATUS
  {
    if tag == TYPE_PAYLOAD then SetBit(high, 0x10) else SetBit(SetBit(high, 0x10), 0x02)
  }

  /** tag << 24 | uint32(len) */
  function TagWord(tag: Byte, len: nat): U32
    requires tag == TYPE_PAYLOAD || tag == TYPE_STATUS
  {
    TagByte(tag, Wrap32(len) / 0x100_0000) * 0x100_0000 + Wrap32(len) % 0x100_0000
  }

  function BodyBytes(b: Body): seq<Byte> {
    match b
    case Empty => []
    case Sync => [0x00, 0x03, 0x01, 0x00]
    case Command(command) => command
    case Payload(realm, data) => PutU32(TagWord(TYPE_PAYLOAD, |data|)) + PutU32(realm) + PutU32(0) + data
    case Bind(realm, port) => PutU32(0x1100_0008) + PutU32(realm) + PutU32(0) + PutU32(port) + [0x7f, 0x00, 0x00, 0x01]
    case Status(realm, status) => PutU32(TagWord(TYPE_STATUS, |status|)) + PutU32(realm) + PutU32(0) + status
    case Heartbeat => [TYPE_HEARTBEAT] + Zeros(11)
  }

  function Zeros(n: nat): seq<Byte> {
    seq(n, _ => 0)
  }

  /** strings.TrimRight(s, "\x00") */
  function TrimNuls(s: seq<Byte>): (t: seq<Byte>)
    ensures t <= s
    ensures t == [] || t[|t| - 1] != 0
  {
    if s != [] && s[|s| - 1] == 0 then TrimNuls(s[..|s| - 1]) else s
  }

  function ParseBody(d: seq<Byte>): Result<Body> {
    if |d| == 0 then Ok(Empty)
    else if |d| < 4 then Err(PacketTooShort)
    else if d[0] == TYPE_SYNC then Ok(Sync)
    else if d[0] == TYPE_PAYLOAD then ParsePayload(d)
    else if d[0] == TYPE_BIND then
      if |d| < 16 then Err(PacketTooShort) else Ok(Bind(GetU32(d[4..8]), GetU32(d[12..16])))
    else if d[0] == TYPE_STATUS then
      if |d| < 12 then Err(PacketTooShort) else Ok(Status(GetU32(d[4..8]), TrimNuls(d[12..])))
    else if d[0] == TYPE_HEARTBEAT then Ok(Heartbeat)
    else Ok(Command(d))
  }

  function ParsePayload(d: seq<Byte>): Result<Body>
    requires |d| >= 4
  {
    if |d| < 12 then Err(PacketTooShort)
    else if GetU32(d[8..12]) != 0 then Err(InvalidPadding)
    else if Wrap32(|d| - 12) != GetU32(d[0..4]) % 0x100_0000 then Err(InvalidLength)
    else Ok(Payload(GetU32(d[4..8]), d[12..]))
  }

  // Packets

  function PacketBytes(p: Packet): seq<Byte> {
    HeaderBytes(p.header) + BodyBytes(p.body)
  }

  function ParsePacket(d: seq<Byte>): Result<Packet> {
    match ParseHeader(d)
    case Err(e) => Err(e)
    case Ok(header) =>
      match ParseBody(d[HEADER_SIZE..])
      case Err(e) => Err(e)
      case Ok(body) => Ok(Packet(header, body))
  }

  /**
   * The bodies that survive the wire. A length of 2^24 or more spills into the
   * tag byte, a trailing NUL of a status is trimmed, and a command must neither be
   * too short nor start with another type's tag.
   */
  predicate Canonical(b: Body) {
    match b
    case Payload(_, data) => Wrap32(|data|) < 0x100_0000
    case Status(_, status) =>
      && (status == [] || status[|status| - 1] != 0)
      && Wrap32(|status|) / 0x100_0000 in {0x00, 0x02, 0x10, 0x12}
    case Command(command) =>
      && |command| >= 4
      && command[0] !in {TYPE_SYNC, TYPE_PAYLOAD, TYPE_BIND, TYPE_STATUS, TYPE_HEARTBEAT}
    case _ => true
  }

  // Round trips

  lemma HeaderRoundTrip(h: Header, rest: seq<Byte>)
    ensures ParseHeader(HeaderBytes(h) + rest) == Ok(h)
  {
    var d := HeaderBytes(h) + rest;
    assert d[0..4] == MAGIC;
    assert d[4..8] == PutU32(h.sent);
    assert d[8..12] == PutU32(h.recv);
    assert d[12..16] == PutU32(h.pid);
    assert d[16..20] == PutU32(h.lmid);
    assert d[20..24] == PutU32(h.rmid);
    GetPut(h.sent);
    GetPut(h.recv);
    GetPut(h.pid);
    GetPut(h.lmid);
    GetPut(h.rmid);
  }

  /** An accepted header is exactly the bytes it was read from. */
  lemma HeaderNormalForm(d: seq<Byte>)
    requires ParseHeader(d).Ok?
    ensures HeaderBytes(ParseHeader(d).value) == d[..HEADER_SIZE]
  {
    PutGet(d[4..8]);
    PutGet(d[8..12]);
    PutGet(d[12..16]);
    PutGet(d[16..20]);
    PutGet(d[20..24]);
    assert d[..24] == d[0..4] + d[4..8] + d[8..12] + d[12..16] + d[16..20] + d[20..24];
  }

  lemma LenIsSerializedLength(b: Body)
    ensures |BodyBytes(b)| == Len(b)
  {
  }

  lemma TagBytes(high: Byte)
    ensures TagByte(TYPE_PAYLOAD, high) == TYPE_PAYLOAD <==> high in {0x00, 0x10}
    ensures TagByte(TYPE_STATUS, high) == TYPE_STATUS <==> high in {0x00, 0x02, 0x10, 0x12}
  {
  }

  lemma TagWordBytes(tag: Byte, len: nat)
    requires tag == TYPE_PAYLOAD || tag == TYPE_STATUS
    ensures PutU32(TagWord(tag, len))[0] == TagByte(tag, Wrap32(len) / 0x100_0000)
    ensures TagWord(tag, len) % 0x100_0000 == Wrap32(len) % 0x100_0000
  {
  }

  lemma PayloadRoundTrip(b: Body)
    requires b.Payload?
    ensures ParseBody(BodyBytes(b)) == Ok(b) <==> Canonical(b)
  {
    var d := BodyBytes(b);
    var w := TagWord(TYPE_PAYLOAD, |b.data|);
    var high := Wrap32(|b.data|) / 0x100_0000;
    assert d[0] == PutU32(w)[0];
    TagWordBytes(TYPE_PAYLOAD, |b.data|);
    TagBytes(high);
    assert d[0..4] == PutU32(w);
    assert d[4..8] == PutU32(b.realm);
    assert d[8..12] == PutU32(0);
    assert d[12..] == b.data;
    GetPut(w);
    GetPut(b.realm);
    GetPut(0);
    assert high == 0 <==> Canonical(b);
  }

  lemma StatusRoundTrip(b: Body)
    requires b.Status?
    ensures ParseBody(BodyBytes(b)) == Ok(b) <==> Canonical(b)
  {
    var d := BodyBytes(b);
    var w := TagWord(TYPE_STATUS, |b.status|);
    assert d[0] == PutU32(w)[0];
    TagWordBytes(TYPE_STATUS, |b.status|);
    TagBytes(Wrap32(|b.status|) / 0x100_0000);
    assert d[4..8] == PutU32(b.realm);
    assert d[12..] == b.status;
    GetPut(b.realm);
  }

  lemma BindRoundTrip(b: Body)
    requires b.Bind?
    ensures ParseBody(BodyBytes(b)) == Ok(b)
  {
    var d := BodyBytes(b);
    assert d[0] == PutU32(0x1100_0008)[0] == TYPE_BIND;
    assert d[4..8] == PutU32(b.realm);
    assert d[12..16] == PutU32(b.port);
    GetPut(b.realm);
    GetPut(b.port);
  }

  /** A body comes back from its bytes if and only if it is canonical. */
  lemma BodyRoundTrip(b: Body)
    ensures ParseBody(BodyBytes(b)) == Ok(b) <==> Canonical(b)
  {
    match b
    case Payload(_, _) => PayloadRoundTrip(b);
    case Status(_, _) => StatusRoundTrip(b);
    case Bind(_, _) => BindRoundTrip(b);
    case _ =>
  }

  /** A packet comes back from its bytes if and only if its body is canonical. */
  lemma PacketRoundTrip(p: Packet)
    ensures ParsePacket(PacketBytes(p)) == Ok(p) <==> Canonical(p.body)
  {
    HeaderRoundTrip(p.header, BodyBytes(p.body));
    assert PacketBytes(p)[HEADER_SIZE..] == BodyBytes(p.body);
    BodyRoundTrip(p.body);
  }

  /** Two different canonical packets never share their bytes. */
  lemma PacketBytesInjective(p: Packet, q: Packet)
    requires Canonical(p.body) && Canonical(q.body)
    requires PacketBytes(p) == PacketBytes(q)
    ensures p == q
  {
    PacketRoundTrip(p);
    PacketRoundTrip(q);
  }

  /** What the parser accepts from anything shorter than 2^24 bytes is canonical. */
  lemma ParsedIsCanonical(d: seq<Byte>)
    requires ParseBody(d).Ok?
    requires |d| < 0x100_0000
    ensures Canonical(ParseBody(d).value)
  {
  }

  /** Payload, command and empty bodies are read without losing a bit of the input. */
  lemma ExactBodies(d: seq<Byte>)
    requires ParseBody(d).Ok?
    ensures var b := ParseBody(d).value;
            b.Payload? || b.Command? || b.Empty? ==> BodyBytes(b) == d
  {
    var b := ParseBody(d).value;
    if b.Payload? {
      var w := GetU32(d[0..4]);
      assert w / 0x100_0000 == TYPE_PAYLOAD;
      assert TagWord(TYPE_PAYLOAD, |b.data|) == w;
      PutGet(d[0..4]);
      PutGet(d[4..8]);
      PutGet(d[8..12]);
      assert d == d[0..4] + d[4..8] + d[8..12] + d[12..];
    }
  }

  /**
   * Parsing, serializing and parsing again is parsing, for every datagram that fits
   * a UDP packet; and payload, command and empty packets serialize to the very
   * datagram they came from.
   */
  lemma NormalForm(d: seq<Byte>)
    requires |d| <= 0xFFFF
    requires ParsePacket(d).Ok?
    ensures var p := ParsePacket(d).value;
            && ParsePacket(PacketBytes(p)) == Ok(p)
            && (p.body.Payload? || p.body.Command? || p.body.Empty? ==> PacketBytes(p) == d)
  {
    var p := ParsePacket(d).value;
    ParsedIsCanonical(d[HEADER_SIZE..]);
    PacketRoundTrip(p);
    HeaderNormalForm(d);
    ExactBodies(d[HEADER_SIZE..]);
    assert d == d[..HEADER_SIZE] + d[HEADER_SIZE..];
  }
}
