/** Hexadecimal text. */
module Hex {
  import opened Basics

  function HexDigit(n: int): Byte
    requires 0 <= n < 16
  {
    if n < 10 then 48 + n else 87 + n
  }

  function HexValue(c: Byte): Option<int> {
    if 48 <= c <= 57 then Some(c - 48)
    else if 97 <= c <= 102 then Some(c - 87)
    else if 65 <= c <= 70 then Some(c - 55)
    else None
  }

  function HexEncode(b: Bytes): Bytes {
    if b == [] then [] else [HexDigit(b[0] / 16), HexDigit(b[0] % 16)] + HexEncode(b[1..])
  }

  function HexDecode(t: Bytes): Option<Bytes> {
    if t == [] then Some([])
    else if |t| == 1 then None
    else
      match (HexValue(t[0]), HexValue(t[1]), HexDecode(t[2..]))
      case (Some(x), Some(y), Some(rest)) => Some([HexByte(x, y)] + rest)
      case _ => None
  }

  function HexByte(x: int, y: int): Byte {
    if 0 <= x < 16 && 0 <= y < 16 then 16 * x + y else 0
  }

  lemma {:induction false} HexRoundTrip(b: Bytes)
    ensures HexDecode(HexEncode(b)) == Some(b) && |HexEncode(b)| == 2 * |b| && Lower(HexEncode(b)) == HexEncode(b)
  {
    if b != [] {
      var t := HexEncode(b);
      HexRoundTrip(b[1..]);
      assert t[2..] == HexEncode(b[1..]);
      var x: int := b[0];
      assert HexValue(t[0]) == Some(x / 16) && HexValue(t[1]) == Some(x % 16);
      assert 16 * (x / 16) + x % 16 == x;
      assert [b[0]] + b[1..] == b;
      assert Lower(t)[2..] == Lower(t[2..]);
      assert Lower(t) == [LowerByte(t[0]), LowerByte(t[1])] + Lower(t)[2..];
    }
  }

  /** Upper-case hex reads the same and is written back in lower case. */
  lemma {:induction false} HexLowers(t: Bytes)
    requires HexDecode(t).Some?
    ensures HexEncode(HexDecode(t).value) == Lower(t) && |t| == 2 * |HexDecode(t).value|
  {
    if t != [] {
      HexLowers(t[2..]);
      var b := HexDecode(t).value;
      assert b[1..] == HexDecode(t[2..]).value;
      assert Lower(t)[2..] == Lower(t[2..]);
      assert Lower(t) == [LowerByte(t[0]), LowerByte(t[1])] + Lower(t)[2..];
      var x, y := HexValue(t[0]).value, HexValue(t[1]).value;
      assert b[0] == 16 * x + y && b[0] / 16 == x && b[0] % 16 == y;
    }
  }

  predicate AnyHexDigit(c: Byte) {
    48 <= c <= 57 || 65 <= c <= 70 || 97 <= c <= 102
  }

  /** Exactly the even-length strings of hex digits decode. */
  lemma {:induction false} HexAccepts(t: Bytes)
    ensures HexDecode(t).Some? <==> |t| % 2 == 0 && forall i | 0 <= i < |t| :: AnyHexDigit(t[i])
  {
    if |t| >= 2 {
      HexAccepts(t[2..]);
      assert forall i | 0 <= i < |t[2..]| :: t[2..][i] == t[i + 2];
      assert (forall i | 0 <= i < |t| :: AnyHexDigit(t[i])) ==> forall i | 0 <= i < |t[2..]| :: AnyHexDigit(t[2..][i]);
      if AnyHexDigit(t[0]) && AnyHexDigit(t[1]) && forall i | 0 <= i < |t[2..]| :: AnyHexDigit(t[2..][i]) {
        forall i | 0 <= i < |t| ensures AnyHexDigit(t[i]) {
          if i >= 2 { assert t[i] == t[2..][i - 2]; }
        }
      }
    }
  }

  /** Nine and ten, and the order of the digits. */
  lemma HexOfBytes()
    ensures HexEncode([0x9A, 0x0F]) == [57, 97, 48, 102]
  {
    var b: Bytes := [0x9A, 0x0F];
    assert b[1..] == [0x0F];
    var c: Bytes := [0x0F];
    assert c[1..] == [];
    assert HexEncode(c) == [48, 102];
  }

  /** The hypotheses on hash functions can be met: the hex text of the bytes themselves meets both. */
  lemma HashesExist()
    ensures CollisionFree(b => HexEncode(b)) && HexDigests(b => HexEncode(b))
  {
    var h: Hash := b => HexEncode(b);
    forall x: Bytes, y: Bytes | EqualFold(h(x), h(y)) ensures x == y {
      HexRoundTrip(x);
      HexRoundTrip(y);
    }
    forall x: Bytes, i: nat | i < |h(x)| ensures IsHexDigit(h(x)[i]) {
      HexIsHex(x);
    }
  }

  lemma {:induction false} HexIsHex(b: Bytes)
    ensures forall i | 0 <= i < |HexEncode(b)| :: IsHexDigit(HexEncode(b)[i])
  {
    if b != [] {
      HexIsHex(b[1..]);
    }
  }
}
