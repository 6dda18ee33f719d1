/**
 * The wire framing: four bytes of header length, the encoded header, then as many payload bytes
 * as the header declares. The header encoding itself is any codec that decodes what it encodes
 * and never encodes to nothing.
 */
module Framing {
  import opened Basics

  const MAX_HEADER := 1 * 1024 * 1024

  /** A header codec; length is the payload length a header declares. */
  datatype Codec<!H(!new)> = Codec(encode: H -> Bytes, decode: Bytes -> Option<H>, length: H -> int) {
    ghost predicate Inverse() {
      forall h: H :: decode(encode(h)) == Some(h) && encode(h) != []
    }
  }

  function Declared<H(!new)>(c: Codec<H>, h: H): nat {
    if c.length(h) > 0 then c.length(h) else 0
  }

  // ----- big-endian lengths ---------------------------------------------------------

  function Bytes4(n: nat): Bytes
    requires n < 0x1_0000_0000
  {
    [n / 0x100_0000, (n / 0x1_0000) % 0x100, (n / 0x100) % 0x100, n % 0x100]
  }

  function Value4(b: Bytes): nat
    requires |b| == 4
  {
    0x100_0000 * b[0] as int + 0x1_0000 * b[1] as int + 0x100 * b[2] as int + b[3] as int
  }

  lemma Length4(n: nat)
    requires n < 0x1_0000_0000
    ensures Value4(Bytes4(n)) == n
  {
    var a, b, c := n / 0x100, n / 0x1_0000, n / 0x100_0000;
    assert n == a * 0x100 + n % 0x100;
    assert a == b * 0x100 + a % 0x100;
    assert b == c * 0x100 + b % 0x100;
  }

  // ----- messages -------------------------------------------------------------------

  datatype Message<H> = Message(hdr: H, payload: Bytes)

  /** The header fits and the payload has the declared length. */
  predicate Sendable<H(!new)>(c: Codec<H>, m: Message<H>) {
    |c.encode(m.hdr)| <= MAX_HEADER && |m.payload| == Declared(c, m.hdr)
  }

  function HeaderBytes<H(!new)>(c: Codec<H>, h: H): Bytes
    requires |c.encode(h)| <= MAX_HEADER
  {
    Bytes4(|c.encode(h)|) + c.encode(h)
  }

  function MessageBytes<H(!new)>(c: Codec<H>, m: Message<H>): Bytes
    requires Sendable(c, m)
  {
    HeaderBytes(c, m.hdr) + m.payload
  }

  function StreamBytes<H(!new)>(c: Codec<H>, ms: seq<Message<H>>): Bytes
    requires forall k | 0 <= k < |ms| :: Sendable(c, ms[k])
  {
    if ms == [] then [] else MessageBytes(c, ms[0]) + StreamBytes(c, ms[1..])
  }

  // ----- reading ----------------------------------------------------------------------

  /** What ReadHeader returns: the header and what follows it, or an error. */
  datatype Header<H> = Error | Header(hdr: H, rest: Bytes)

  function Parse<H(!new)>(c: Codec<H>, b: Bytes): Header<H> {
    if |b| < 4 then Error
    else
      var n := Value4(b[..4]);
      if n == 0 || n > MAX_HEADER || |b| < 4 + n then Error
      else
        match c.decode(b[4..4 + n])
        case None => Error
        case Some(h) => Header(h, b[4 + n..])
  }

  /** What a reader sees of a stream: headers, and payload bytes, the last of them possibly cut short. */
  datatype Seen<H> = Hdr(hdr: H) | Payload(bytes: Bytes)

  function See<H(!new)>(c: Codec<H>, b: Bytes): seq<Seen<H>>
    decreases |b|
  {
    match Parse(c, b)
    case Error => []
    case Header(h, rest) =>
      var n := Declared(c, h);
      if n == 0 then [Hdr(h)] + See(c, rest)
      else if |rest| >= n then [Hdr(h), Payload(rest[..n])] + See(c, rest[n..])
      else [Hdr(h)] + (if rest == [] then [] else [Payload(rest)])
  }

  /** The two ends of a connection as WriteMessage and ReadHeader use them. */
  class Conn {
    var input: Bytes
    var output: Bytes

    constructor (input: Bytes)
      ensures this.input == input && output == []
    {
      this.input, output := input, [];
    }

    /** io.ReadFull: all n bytes, or an error after consuming what there is. */
    method ReadFull(n: nat) returns (ok: bool, b: Bytes)
      modifies this`input
      ensures ok == (|old(input)| >= n)
      ensures ok ==> b == old(input)[..n] && input == old(input)[n..]
      ensures !ok ==> b == old(input) && input == []
    {
      ok := |input| >= n;
      if ok {
        b, input := input[..n], input[n..];
      } else {
        b, input := input, [];
      }
    }

    method ReadHeader<H(!new)>(c: Codec<H>) returns (r: Option<H>)
      modifies this`input
      ensures match Parse(c, old(input))
              case Error => r == None
              case Header(h, rest) => r == Some(h) && input == rest
    {
      ghost var b := input;
      var ok, lenbuf := ReadFull(4);
      if !ok { return None; }
      var n := Value4(lenbuf);
      if n == 0 || n > MAX_HEADER { return None; }
      var raw;
      ok, raw := ReadFull(n);
      if !ok { return None; }
      assert raw == b[4..4 + n] && input == b[4 + n..];
      r := c.decode(raw);
    }

    /** Writes the header, then exactly the declared number of payload bytes, or reports an error. */
    method WriteMessage<H(!new)>(c: Codec<H>, h: H, payload: Option<Bytes>) returns (ok: bool)
      modifies this`output
      ensures ok == (|c.encode(h)| <= MAX_HEADER
                     && (c.length(h) > 0 ==> payload.Some? && |payload.value| >= c.length(h)))
      ensures ok ==> output == old(output) + HeaderBytes(c, h)
                             + (if c.length(h) > 0 then payload.value[..c.length(h)] else [])
      ensures !ok ==> output == old(output)
                              + (if |c.encode(h)| > MAX_HEADER then []
                                 else HeaderBytes(c, h) + (if payload.Some? then payload.value else []))
    {
      var raw := c.encode(h);
      if |raw| > MAX_HEADER { return false; }
      output := output + Bytes4(|raw|);
      output := output + raw;
      assert output == old(output) + HeaderBytes(c, h);
      if c.length(h) > 0 {
        match payload
        case None => return false;
        case Some(p) =>
          var n := Min(|p|, c.length(h));
          output := output + p[..n];
          return n == c.length(h);
      }
      ok := true;
    }
  }

  /**
   * Exactly what is read as a header: four bytes of its length, the most significant first, from 1 byte to 1 MiB; that
   * many bytes, which decode; and what is left follows.
   */
  lemma ParsesExactly<H(!new)>(c: Codec<H>, b: Bytes, h: H, rest: Bytes)
    ensures Parse(c, b) == Header(h, rest) <==>
      && |b| >= 4
      && var n := ((b[0] as int * 256 + b[1] as int) * 256 + b[2] as int) * 256 + b[3] as int;
         1 <= n <= 1048576 && |b| >= 4 + n && c.decode(b[4..4 + n]) == Some(h) && rest == b[4 + n..]
  {
  }

  // ----- round trip ---------------------------------------------------------------------

  lemma ParseHeader<H(!new)>(c: Codec<H>, h: H, rest: Bytes)
    requires c.Inverse() && |c.encode(h)| <= MAX_HEADER
    ensures Parse(c, HeaderBytes(c, h) + rest) == Header(h, rest)
  {
    var raw := c.encode(h);
    var b := HeaderBytes(c, h) + rest;
    Length4(|raw|);
    assert b[..4] == Bytes4(|raw|);
    assert b[4..4 + |raw|] == raw;
    assert b[4 + |raw|..] == rest;
  }

  /** A header cut anywhere is not mistaken for another. */
  lemma ParseCut<H(!new)>(c: Codec<H>, h: H, k: nat)
    requires c.Inverse() && |c.encode(h)| <= MAX_HEADER && k < |HeaderBytes(c, h)|
    ensures Parse(c, HeaderBytes(c, h)[..k]) == Error
  {
    var raw := c.encode(h);
    var b := HeaderBytes(c, h)[..k];
    Length4(|raw|);
    if k >= 4 {
      assert b[..4] == Bytes4(|raw|);
    }
  }

  function Shown<H>(m: Message<H>): seq<Seen<H>> {
    [Hdr(m.hdr)] + (if m.payload == [] then [] else [Payload(m.payload)])
  }

  /** What is to be seen of a message of which only k bytes arrive. */
  function ShownCut<H(!new)>(c: Codec<H>, m: Message<H>, k: nat): seq<Seen<H>>
    requires Sendable(c, m) && k < |MessageBytes(c, m)|
  {
    var head := |HeaderBytes(c, m.hdr)|;
    if k < head then [] else Shown(Message(m.hdr, m.payload[..k - head]))
  }

  /** What is to be seen of the messages when only the first k bytes arrive. */
  function SeenOf<H(!new)>(c: Codec<H>, ms: seq<Message<H>>, k: nat): seq<Seen<H>>
    requires forall i | 0 <= i < |ms| :: Sendable(c, ms[i])
  {
    if ms == [] then []
    else
      var m := ms[0];
      var size := |MessageBytes(c, m)|;
      if k < size then ShownCut(c, m, k)
      else Shown(m) + SeenOf(c, ms[1..], k - size)
  }

  /** What is seen of a stream that starts with a whole header. */
  lemma SeeHeader<H(!new)>(c: Codec<H>, h: H, rest: Bytes)
    requires c.Inverse() && |c.encode(h)| <= MAX_HEADER
    ensures var n := Declared(c, h);
            See(c, HeaderBytes(c, h) + rest)
            == if n == 0 then [Hdr(h)] + See(c, rest)
               else if |rest| >= n then [Hdr(h), Payload(rest[..n])] + See(c, rest[n..])
               else [Hdr(h)] + (if rest == [] then [] else [Payload(rest)])
  {
    hide HeaderBytes, Parse;
    ParseHeader(c, h, rest);
  }

  lemma SeeMessage<H(!new)>(c: Codec<H>, m: Message<H>, tail: Bytes)
    requires c.Inverse() && Sendable(c, m)
    ensures See(c, MessageBytes(c, m) + tail) == Shown(m) + See(c, tail)
  {
    hide HeaderBytes, See;
    var rest := m.payload + tail;
    assert MessageBytes(c, m) + tail == HeaderBytes(c, m.hdr) + rest;
    SeeHeader(c, m.hdr, rest);
    assert rest[..|m.payload|] == m.payload && rest[|m.payload|..] == tail;
    assert m.payload == [] ==> rest == tail;
    assert m.payload != [] ==> Shown(m) == [Hdr(m.hdr), Payload(m.payload)];
  }

  lemma SeeCut<H(!new)>(c: Codec<H>, m: Message<H>, k: nat)
    requires c.Inverse() && Sendable(c, m) && k < |MessageBytes(c, m)|
    ensures See(c, MessageBytes(c, m)[..k]) == ShownCut(c, m, k)
  {
    hide HeaderBytes;
    var hb := HeaderBytes(c, m.hdr);
    if k < |hb| {
      assert MessageBytes(c, m)[..k] == hb[..k];
      ParseCut(c, m.hdr, k);
    } else {
      assert MessageBytes(c, m)[..k] == hb + m.payload[..k - |hb|];
      SeeHeader(c, m.hdr, m.payload[..k - |hb|]);
    }
  }

  /**
   * A stream of messages cut at any byte: the reader sees exactly the messages that arrived whole,
   * then the header of the one cut in its payload with the payload bytes that arrived, then nothing.
   */
  lemma {:induction false} CutStream<H(!new)>(c: Codec<H>, ms: seq<Message<H>>, k: nat)
    requires c.Inverse() && forall i | 0 <= i < |ms| :: Sendable(c, ms[i])
    requires k <= |StreamBytes(c, ms)|
    ensures See(c, StreamBytes(c, ms)[..k]) == SeenOf(c, ms, k)
    decreases |ms|
  {
    hide Sendable, MessageBytes, Shown, ShownCut, See;
    if ms != [] {
      var m := ms[0];
      var mb, tail := MessageBytes(c, m), StreamBytes(c, ms[1..]);
      if k < |mb| {
        assert StreamBytes(c, ms)[..k] == mb[..k];
        SeeCut(c, m, k);
      } else {
        assert StreamBytes(c, ms)[..k] == mb + tail[..k - |mb|];
        SeeMessage(c, m, tail[..k - |mb|]);
        CutStream(c, ms[1..], k - |mb|);
      }
    } else {
      SeeNothing(c);
    }
  }

  lemma SeeNothing<H(!new)>(c: Codec<H>)
    ensures See(c, []) == []
  {
  }

  function AllShown<H>(ms: seq<Message<H>>): seq<Seen<H>> {
    if ms == [] then [] else Shown(ms[0]) + AllShown(ms[1..])
  }

  /** Uncut, the reader sees every header and every payload, in order and unchanged. */
  lemma {:induction false} WholeStream<H(!new)>(c: Codec<H>, ms: seq<Message<H>>)
    requires c.Inverse() && forall i | 0 <= i < |ms| :: Sendable(c, ms[i])
    ensures See(c, StreamBytes(c, ms)) == AllShown(ms)
    decreases |ms|
  {
    hide Sendable, MessageBytes, Shown, See;
    if ms == [] {
      SeeNothing(c);
    } else {
      SeeMessage(c, ms[0], StreamBytes(c, ms[1..]));
      WholeStream(c, ms[1..]);
    }
  }
}
