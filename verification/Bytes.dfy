/** Bytes, 32-bit words and the big-endian form the wire uses. */
module Bytes {

  type Byte = b: int | 0 <= b < 0x100

  /** A Go uint32. Arithmetic on it wraps, so every update goes through Wrap32. */
  type U32 = n: int | 0 <= n < 0x1_0000_0000

  const TWO_31 := 0x8000_0000
  const TWO_32 := 0x1_0000_0000

  /** The conversion uint32(n). */
  function Wrap32(n: int): U32 {
    n % TWO_32
  }

  /** The conversion int32(n): the upper half of the range reads as negative. */
  function Signed32(n: U32): int {
    if n < TWO_31 then n else n - TWO_32
  }

  function PutU32(n: U32): (s: seq<Byte>)
    ensures |s| == 4
  {
    [n / 0x100_0000, n / 0x1_0000 % 0x100, n / 0x100 % 0x100, n % 0x100]
  }

  function GetU32(s: seq<Byte>): U32
    requires |s| == 4
  {
    s[0] as int * 0x100_0000 + s[1] as int * 0x1_0000 + s[2] as int * 0x100 + s[3] as int
  }

  lemma GetPut(n: U32)
    ensures GetU32(PutU32(n)) == n
  {
    assert n / 0x100 == n / 0x1_0000 * 0x100 + n / 0x100 % 0x100;
    assert n / 0x1_0000 == n / 0x100_0000 * 0x100 + n / 0x1_0000 % 0x100;
  }

  lemma PutGet(s: seq<Byte>)
    requires |s| == 4
    ensures PutU32(GetU32(s)) == s
  {
    var n := GetU32(s);
    assert n / 0x100 == s[0] as int * 0x1_0000 + s[1] as int * 0x100 + s[2] as int;
    assert n / 0x1_0000 == s[0] as int * 0x100 + s[1] as int;
  }

  /** The bytes of a sequence of fragments, in order. */
  function Flatten(frags: seq<seq<Byte>>): seq<Byte> {
    if frags == [] then [] else frags[0] + Flatten(frags[1..])
  }

  lemma {:induction false} FlattenConcat(xs: seq<seq<Byte>>, ys: seq<seq<Byte>>)
    ensures Flatten(xs + ys) == Flatten(xs) + Flatten(ys)
  {
    if xs == [] {
      assert xs + ys == ys;
    } else {
      assert (xs + ys)[1..] == xs[1..] + ys;
      FlattenConcat(xs[1..], ys);
    }
  }

  lemma FlattenSnoc(xs: seq<seq<Byte>>, y: seq<Byte>)
    ensures Flatten(xs + [y]) == Flatten(xs) + y
  {
    FlattenConcat(xs, [y]);
    assert [y][1..] == [];
    assert Flatten([y]) == y + [];
  }
}
