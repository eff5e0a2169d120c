/** The PTCP wire format by offset: where each field of a packet is, written and read. */
module Layout {
  import opened Bytes
  import opened Codec

  /** The 32-bit big-endian number at an offset. */
  function Word(s: seq<Byte>, off: nat): int
    requires off + 4 <= |s|
  {
    s[off] as int * 0x100_0000 + s[off + 1] as int * 0x1_0000 + s[off + 2] as int * 0x100 + s[off + 3] as int
  }

  predicate HeaderLayout(s: seq<Byte>, h: Header) {
    && |s| == 24
    && s[0] == 0x50 && s[1] == 0x54 && s[2] == 0x43 && s[3] == 0x50
    && Word(s, 4) == h.sent && Word(s, 8) == h.recv && Word(s, 12) == h.pid
    && Word(s, 16) == h.lmid && Word(s, 20) == h.rmid
  }

  /** r has bit 4 set, and bits 7 to 5 and 3 to 0 of x. */
  predicate WithBit4(r: int, x: int) {
    r / 32 == x / 32 && r / 16 % 2 == 1 && r % 16 == x % 16
  }

  /** r has bits 4 and 1 set, and bits 7 to 5, 3 and 2, and 0 of x. */
  predicate WithBits4And1(r: int, x: int) {
    r / 32 == x / 32 && r / 16 % 2 == 1 && r % 16 / 4 == x % 16 / 4 && r / 2 % 2 == 1 && r % 2 == x % 2
  }

  /** r is the tag or-ed over the byte x. */
  predicate IsOr(r: int, tag: Byte, x: int) {
    if tag == 0x10 then WithBit4(r, x) else WithBits4And1(r, x)
  }

  /** The first twelve bytes of a payload or status body: tag and length, realm, padding. */
  predicate Tagged(s: seq<Byte>, tag: Byte, len: nat, realm: U32) {
    && |s| == 12 + len
    && IsOr(s[0], tag, len % 0x1_0000_0000 / 0x100_0000)
    && s[1] as int * 0x1_0000 + s[2] as int * 0x100 + s[3] as int == len % 0x100_0000
    && (len < 0x100_0000 ==> s[0] == tag)
    && Word(s, 4) == realm && Word(s, 8) == 0
  }

  predicate BodyLayout(s: seq<Byte>, b: Body) {
    match b
    case Empty => s == []
    case Sync => s == [0, 3, 1, 0]
    case Command(command) => s == command
    case Payload(realm, data) => Tagged(s, 0x10, |data|, realm) && s[12..] == data
    case Bind(realm, port) =>
      && |s| == 20 && s[0] == 0x11 && s[1] == 0 && s[2] == 0 && s[3] == 8
      && Word(s, 4) == realm && Word(s, 8) == 0 && Word(s, 12) == port
      && s[16] == 127 && s[17] == 0 && s[18] == 0 && s[19] == 1
    case Status(realm, status) => Tagged(s, 0x12, |status|, realm) && s[12..] == status
    case Heartbeat => |s| == 12 && s[0] == 0x13 && forall i :: 1 <= i < 12 ==> s[i] == 0
  }

  // Written

  lemma WordIs(s: seq<Byte>, off: nat, n: U32)
    requires off + 4 <= |s| && s[off..off + 4] == PutU32(n)
    ensures Word(s, off) == n
  {
    GetPut(n);
    var w := s[off..off + 4];
    assert w[0] == s[off] && w[1] == s[off + 1] && w[2] == s[off + 2] && w[3] == s[off + 3];
  }

  lemma HeaderIsLaidOut(h: Header)
    ensures HeaderLayout(HeaderBytes(h), h)
  {
    hide PutU32;
    var s := HeaderBytes(h);
    assert s[4..8] == PutU32(h.sent) && s[8..12] == PutU32(h.recv) && s[12..16] == PutU32(h.pid);
    assert s[16..20] == PutU32(h.lmid) && s[20..24] == PutU32(h.rmid);
    WordIs(s, 4, h.sent);
    WordIs(s, 8, h.recv);
    WordIs(s, 12, h.pid);
    WordIs(s, 16, h.lmid);
    WordIs(s, 20, h.rmid);
  }

  lemma SetBit4(x: Byte)
    ensures WithBit4(SetBit(x, 0x10), x)
  {
  }

  lemma SetBit1(x: Byte)
    ensures var r := SetBit(x, 0x02); r / 4 == x / 4 && r / 2 % 2 == 1 && r % 2 == x % 2
  {
  }

  /** Bytes that agree above bit 1. */
  lemma SameAbove(r: Byte, x: Byte, q: int)
    requires r / 4 == q && x / 4 == q
    ensures r / 32 == x / 32 && r / 16 == x / 16 && r % 16 / 4 == x % 16 / 4
  {
    assert r / 32 == q / 8 && x / 32 == q / 8;
    assert r / 16 == q / 4 && x / 16 == q / 4;
    assert r % 16 / 4 == q % 4 && x % 16 / 4 == q % 4;
  }

  lemma LowBit(x: int)
    ensures x % 16 % 2 == x % 2
  {
    var half, bit := x / 2, x % 2;
    assert x == 2 * half + bit && x / 16 == half / 8;
    assert x % 16 == 2 * (half % 8) + bit;
  }

  lemma BothBits(high: Byte, x: Byte, r: Byte)
    requires WithBit4(x, high) && r / 4 == x / 4 && r / 2 % 2 == 1 && r % 2 == x % 2
    ensures WithBits4And1(r, high)
  {
    assert r / 32 == x / 32 && r / 16 == x / 16 && r % 16 / 4 == x % 16 / 4 by {
      SameAbove(r, x, x / 4);
    }
    assert x % 2 == high % 2 by {
      LowBit(x);
      LowBit(high);
    }
  }

  lemma TagIsOr(tag: Byte, high: Byte)
    requires tag == TYPE_PAYLOAD || tag == TYPE_STATUS
    ensures IsOr(TagByte(tag, high), tag, high)
  {
    hide SetBit, WithBit4, WithBits4And1;
    var x := SetBit(high, 0x10);
    SetBit4(high);
    SetBit1(x);
    BothBits(high, x, SetBit(x, 0x02));
  }

  lemma TagWordIs(tag: Byte, len: nat)
    requires tag == TYPE_PAYLOAD || tag == TYPE_STATUS
    ensures var w := PutU32(TagWord(tag, len));
            && w[0] == TagByte(tag, Wrap32(len) / 0x100_0000)
            && w[1] as int * 0x1_0000 + w[2] as int * 0x100 + w[3] as int == len % 0x100_0000
  {
    var low := Wrap32(len) % 0x100_0000;
    var top := TagByte(tag, Wrap32(len) / 0x100_0000);
    assert TagWord(tag, len) == top as int * 0x100_0000 + low;
    assert low == len % 0x100_0000;
    GetPut(TagWord(tag, len));
  }

  lemma SmallTag(tag: Byte, len: nat)
    requires (tag == TYPE_PAYLOAD || tag == TYPE_STATUS) && len < 0x100_0000
    ensures TagByte(tag, Wrap32(len) / 0x100_0000) == tag
  {
    assert Wrap32(len) == len && len / 0x100_0000 == 0;
  }

  lemma TaggedIs(tag: Byte, len: nat, realm: U32, data: seq<Byte>)
    requires (tag == TYPE_PAYLOAD || tag == TYPE_STATUS) && |data| == len
    ensures var s := PutU32(TagWord(tag, len)) + PutU32(realm) + PutU32(0) + data;
            Tagged(s, tag, len, realm) && s[12..] == data
  {
    hide IsOr, TagByte, PutU32, TagWord;
    var word := PutU32(TagWord(tag, len));
    var s := word + PutU32(realm) + PutU32(0) + data;
    assert s[0] == word[0] && s[1] == word[1] && s[2] == word[2] && s[3] == word[3];
    TagWordIs(tag, len);
    TagIsOr(tag, Wrap32(len) / 0x100_0000);
    if len < 0x100_0000 {
      SmallTag(tag, len);
    }
    assert s[4..8] == PutU32(realm) && s[8..12] == PutU32(0);
    WordIs(s, 4, realm);
    WordIs(s, 8, 0);
  }

  lemma BindIsLaidOut(realm: U32, port: U32)
    ensures BodyLayout(BodyBytes(Bind(realm, port)), Bind(realm, port))
  {
    var s := BodyBytes(Bind(realm, port));
    WordIs(s, 0, 0x1100_0008);
    WordIs(s, 4, realm);
    WordIs(s, 8, 0);
    WordIs(s, 12, port);
  }

  lemma BodyIsLaidOut(b: Body)
    ensures BodyLayout(BodyBytes(b), b)
  {
    match b
    case Payload(realm, data) => TaggedIs(TYPE_PAYLOAD, |data|, realm, data);
    case Status(realm, status) => TaggedIs(TYPE_STATUS, |status|, realm, status);
    case Bind(realm, port) => BindIsLaidOut(realm, port);
    case _ =>
  }

  // Read

  /** A header is accepted exactly if it is there, and then every field is read from its place. */
  lemma HeaderIsReadFrom(d: seq<Byte>, h: Header)
    ensures ParseHeader(d) == Ok(h) <==> |d| >= 24 && HeaderLayout(d[..24], h)
    ensures ParseHeader(d) == Err(PacketTooShort) <==> |d| < 24
    ensures ParseHeader(d) == Err(InvalidMagic) <==>
            |d| >= 24 && !(d[0] == 0x50 && d[1] == 0x54 && d[2] == 0x43 && d[3] == 0x50)
  {
  }

  /** t is s without its trailing NULs. */
  predicate WithoutNuls(t: seq<Byte>, s: seq<Byte>) {
    t <= s && (forall i :: |t| <= i < |s| ==> s[i] == 0) && (t == [] || t[|t| - 1] != 0)
  }

  lemma {:induction false} TrimNulsIff(s: seq<Byte>, t: seq<Byte>)
    ensures TrimNuls(s) == t <==> WithoutNuls(t, s)
  {
    if s != [] && s[|s| - 1] == 0 {
      TrimNulsIff(s[..|s| - 1], t);
      assert s == s[..|s| - 1] + [0];
    } else if t < s {
      assert s[|s| - 1] != 0;
    }
  }

  /** The bytes a body is read from. */
  predicate ReadAs(d: seq<Byte>, b: Body) {
    match b
    case Empty => d == []
    case Sync => |d| >= 4 && d[0] == 0x00
    case Payload(realm, data) =>
      && |d| >= 12 && d[0] == 0x10 && Word(d, 4) == realm && Word(d, 8) == 0 && d[12..] == data
      && |data| % 0x1_0000_0000 == d[1] as int * 0x1_0000 + d[2] as int * 0x100 + d[3] as int
    case Bind(realm, port) => |d| >= 16 && d[0] == 0x11 && Word(d, 4) == realm && Word(d, 12) == port
    case Status(realm, status) => |d| >= 12 && d[0] == 0x12 && Word(d, 4) == realm && WithoutNuls(status, d[12..])
    case Heartbeat => |d| >= 4 && d[0] == 0x13
    case Command(command) => |d| >= 4 && d[0] !in {0x00, 0x10, 0x11, 0x12, 0x13} && command == d
  }

  lemma WordReads(d: seq<Byte>, off: nat)
    requires off + 4 <= |d|
    ensures GetU32(d[off..off + 4]) == Word(d, off)
  {
  }

  lemma PayloadIsReadFrom(d: seq<Byte>, b: Body)
    requires |d| >= 4 && d[0] == 0x10
    ensures ParsePayload(d) == Ok(b) <==> b.Payload? && ReadAs(d, b)
    ensures ParsePayload(d) == Err(PacketTooShort) <==> |d| < 12
    ensures ParsePayload(d) == Err(InvalidPadding) <==> |d| >= 12 && Word(d, 8) != 0
    ensures ParsePayload(d) == Err(InvalidLength) <==>
            && |d| >= 12 && Word(d, 8) == 0
            && (|d| - 12) % 0x1_0000_0000 != d[1] as int * 0x1_0000 + d[2] as int * 0x100 + d[3] as int
  {
    if |d| >= 12 {
      WordReads(d, 0);
      WordReads(d, 4);
      WordReads(d, 8);
      var low := d[1] as int * 0x1_0000 + d[2] as int * 0x100 + d[3] as int;
      assert Word(d, 0) == d[0] as int * 0x100_0000 + low && 0 <= low < 0x100_0000;
      assert Word(d, 0) % 0x100_0000 == low;
    }
  }

  /** For every body: the parser returns it exactly if the bytes are those it is read from. */
  lemma BodyIsReadFrom(d: seq<Byte>, b: Body)
    ensures ParseBody(d) == Ok(b) <==> ReadAs(d, b)
  {
    hide ParsePayload, TrimNuls, WithoutNuls, Word, GetU32;
    if |d| >= 4 && d[0] == 0x10 {
      PayloadIsReadFrom(d, b);
    } else if |d| >= 12 {
      WordReads(d, 4);
      if b.Status? {
        TrimNulsIff(d[12..], b.status);
      }
      if |d| >= 16 {
        WordReads(d, 12);
      }
    }
  }

  /** And when it refuses, it says why: too short for its type, padding, or a wrong length. */
  lemma BodyIsRefused(d: seq<Byte>)
    ensures ParseBody(d) == Err(PacketTooShort) <==>
            || 0 < |d| < 4
            || (4 <= |d| < 12 && (d[0] == 0x10 || d[0] == 0x12))
            || (4 <= |d| < 16 && d[0] == 0x11)
    ensures ParseBody(d) == Err(InvalidPadding) <==> |d| >= 12 && d[0] == 0x10 && Word(d, 8) != 0
    ensures ParseBody(d) == Err(InvalidLength) <==>
            && |d| >= 12 && d[0] == 0x10 && Word(d, 8) == 0
            && (|d| - 12) % 0x1_0000_0000 != d[1] as int * 0x1_0000 + d[2] as int * 0x100 + d[3] as int
  {
    hide ParsePayload, TrimNuls, Word, GetU32;
    if |d| >= 4 && d[0] == 0x10 {
      PayloadIsReadFrom(d, Empty);
    }
  }
}
