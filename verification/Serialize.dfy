/**
 * Serialization as the source does it: allocate a zeroed buffer, then fill it in
 * place. Every method is proved against the byte sequences of Codec and, field by field,
 * against the wire format of Layout.
 */
module Serialize {
  import opened Bytes
  import opened Codec
  import opened Layout

  /** copy(buf[off:], src), for a buffer that has the room. */
  method CopyAt(buf: array<Byte>, off: nat, src: seq<Byte>)
    requires off + |src| <= buf.Length
    modifies buf
    ensures buf[..off + |src|] == old(buf[..off]) + src
    ensures buf[off + |src|..] == old(buf[off + |src|..])
  {
    for i := 0 to |src|
      invariant buf[..off + i] == old(buf[..off]) + src[..i]
      invariant buf[off + |src|..] == old(buf[off + |src|..])
    {
      buf[off + i] := src[i];
      assert buf[..off + i + 1] == buf[..off + i] + [src[i]];
    }
    assert src[..|src|] == src;
  }

  /** binary.BigEndian.PutUint32(buf[off:off+4], n) */
  method PutUint32(buf: array<Byte>, off: nat, n: U32)
    requires off + 4 <= buf.Length
    modifies buf
    ensures buf[..off + 4] == old(buf[..off]) + PutU32(n)
    ensures buf[off + 4..] == old(buf[off + 4..])
  {
    CopyAt(buf, off, PutU32(n));
  }

  method SerializeHeader(h: Header) returns (buf: array<Byte>)
    ensures fresh(buf)
    ensures buf[..] == HeaderBytes(h) && HeaderLayout(buf[..], h)
  {
    HeaderIsLaidOut(h);
    buf := new Byte[HEADER_SIZE](_ => 0);
    CopyAt(buf, 0, MAGIC);
    PutUint32(buf, 4, h.sent);
    PutUint32(buf, 8, h.recv);
    PutUint32(buf, 12, h.pid);
    PutUint32(buf, 16, h.lmid);
    PutUint32(buf, 20, h.rmid);
    assert buf[..24] == buf[..];
  }

  /** The 12-byte prefix and the data of a payload or status body. */
  method SerializeTagged(word: U32, realm: U32, data: seq<Byte>) returns (buf: array<Byte>)
    ensures fresh(buf)
    ensures buf[..] == PutU32(word) + PutU32(realm) + PutU32(0) + data
  {
    buf := new Byte[12 + |data|](_ => 0);
    PutUint32(buf, 0, word);
    PutUint32(buf, 4, realm);
    PutUint32(buf, 8, 0);
    CopyAt(buf, 12, data);
    assert buf[..12 + |data|] == buf[..];
  }

  method SerializeBody(b: Body) returns (buf: array<Byte>)
    ensures fresh(buf)
    ensures buf[..] == BodyBytes(b) && buf.Length == Len(b) && BodyLayout(buf[..], b)
  {
    hide HeaderLayout, BodyLayout;
    BodyIsLaidOut(b);
    LenIsSerializedLength(b);
    match b
    case Empty =>
      buf := new Byte[0];
    case Sync =>
      buf := new Byte[] [0x00, 0x03, 0x01, 0x00];
    case Command(command) =>
      buf := new Byte[|command|](i requires 0 <= i < |command| => command[i]);
    case Payload(realm, data) =>
      buf := SerializeTagged(TagWord(TYPE_PAYLOAD, |data|), realm, data);
    case Bind(realm, port) =>
      buf := new Byte[20](_ => 0);
      assert buf[4..] == Zeros(16);
      PutUint32(buf, 0, 0x1100_0008);
      PutUint32(buf, 4, realm);
      assert buf[8..] == Zeros(12);
      assert buf[..12] == buf[..8] + PutU32(0);
      PutUint32(buf, 12, port);
      CopyAt(buf, 16, [0x7f, 0x00, 0x00, 0x01]);
      assert buf[..20] == buf[..];
    case Status(realm, status) =>
      buf := SerializeTagged(TagWord(TYPE_STATUS, |status|), realm, status);
    case Heartbeat =>
      buf := new Byte[12](_ => 0);
      buf[0] := TYPE_HEARTBEAT;
  }

  /** The datagram of a packet is its header bytes followed by its body bytes. */
  method SerializePacket(p: Packet) returns (buf: array<Byte>)
    ensures fresh(buf)
    ensures buf[..] == PacketBytes(p)
    ensures buf.Length >= 24 && HeaderLayout(buf[..24], p.header) && BodyLayout(buf[24..], p.body)
  {
    hide HeaderLayout, BodyLayout, BodyBytes;
    var headerBytes := SerializeHeader(p.header);
    var bodyBytes := SerializeBody(p.body);
    buf := new Byte[headerBytes.Length + bodyBytes.Length](_ => 0);
    CopyAt(buf, 0, headerBytes[..]);
    CopyAt(buf, headerBytes.Length, bodyBytes[..]);
    assert buf[..] == buf[..headerBytes.Length + bodyBytes.Length];
    assert buf[..24] == headerBytes[..] && buf[24..] == bodyBytes[..];
  }
}
