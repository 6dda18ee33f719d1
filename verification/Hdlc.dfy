/**
 * HDLC framing of packets to a hub: octet stuffing as in section 4.2 of RFC 1662, without a
 * frame check sequence and without aborts. The encoder builds one frame; the decoder consumes the
 * byte stream in reads of any size.
 */
module Hdlc {
  import opened Basics

  const FLAG: Byte := 0x7E
  const ESC: Byte := 0x7D

  /** b ^ 0x20. */
  function Flip(b: Byte): Byte {
    if (b / 32) % 2 == 1 then b - 32 else b + 32
  }

  lemma FlipTwice(b: Byte)
    ensures Flip(Flip(b)) == b
  {
  }

  // ----- encoder -------------------------------------------------------------------

  function Stuff(data: Bytes): Bytes {
    if data == [] then []
    else
      var b := data[|data| - 1];
      Stuff(data[..|data| - 1]) + (if b == FLAG || b == ESC then [ESC, Flip(b)] else [b])
  }

  function Frame(data: Bytes): Bytes {
    [FLAG] + Stuff(data) + [FLAG]
  }

  /** ProcessOutgoing's frame. */
  method Encode(data: Bytes) returns (frame: Bytes)
    ensures frame == Frame(data)
  {
    frame := [FLAG];
    for i := 0 to |data|
      invariant frame == [FLAG] + Stuff(data[..i])
    {
      var b := data[i];
      assert data[..i + 1][..i] == data[..i];
      if b == FLAG || b == ESC {
        frame := frame + [ESC, Flip(b)];
      } else {
        frame := frame + [b];
      }
    }
    assert data[..|data|] == data;
    frame := frame + [FLAG];
  }

  function FrameAll(packets: seq<Bytes>): Bytes {
    if packets == [] then [] else Frame(packets[0]) + FrameAll(packets[1..])
  }

  // ----- decoder -------------------------------------------------------------------

  /** The reader between two bytes: the frame so far, and the packets handed on. */
  datatype Reader = Reader(frame: Bytes, inFrame: bool, escape: bool, packets: seq<Bytes>)

  const FRESH := Reader([], false, false, [])

  function Read(max: nat, r: Reader, b: Byte): Reader {
    if b == FLAG then
      Reader([], true, false, if r.inFrame && r.frame != [] then r.packets + [r.frame] else r.packets)
    else if !r.inFrame then r
    else if b == ESC then r.(escape := true)
    else if |r.frame| >= max then Reader([], false, false, r.packets)
    else r.(frame := r.frame + [if r.escape then Flip(b) else b], escape := false)
  }

  function ReadAll(max: nat, r: Reader, bytes: Bytes): Reader {
    if bytes == [] then r else Read(max, ReadAll(max, r, bytes[..|bytes| - 1]), bytes[|bytes| - 1])
  }

  /** The reader's fields across reads of the connection, as readLoop keeps them. */
  class Decoder {
    const max: nat
    var frame: Bytes
    var inFrame: bool
    var escape: bool
    var packets: seq<Bytes>

    function State(): Reader
      reads this
    {
      Reader(frame, inFrame, escape, packets)
    }

    constructor (max: nat)
      ensures this.max == max && State() == FRESH
    {
      this.max := max;
      frame, inFrame, escape, packets := [], false, false, [];
    }

    /** One read of the connection: the bytes are handled one by one. */
    method Feed(buf: Bytes)
      modifies this
      ensures State() == ReadAll(max, old(State()), buf)
    {
      for i := 0 to |buf|
        invariant State() == ReadAll(max, old(State()), buf[..i])
      {
        var b := buf[i];
        assert buf[..i + 1][..i] == buf[..i];
        if b == FLAG {
          if inFrame && |frame| > 0 {
            packets := packets + [frame];
          }
          frame, inFrame, escape := [], true, false;
        } else if !inFrame {
        } else if b == ESC {
          escape := true;
        } else {
          if escape {
            b := Flip(b);
            escape := false;
          }
          if |frame| >= max {
            frame, inFrame := [], false;
          } else {
            frame := frame + [b];
          }
        }
      }
      assert buf[..|buf|] == buf;
    }
  }

  // ----- how the stream is cut into reads does not matter -----------------------------

  lemma {:induction false} ReadConcat(max: nat, r: Reader, a: Bytes, b: Bytes)
    ensures ReadAll(max, r, a + b) == ReadAll(max, ReadAll(max, r, a), b)
  {
    if b == [] {
      assert a + b == a;
    } else {
      ReadConcat(max, r, a, b[..|b| - 1]);
      assert (a + b)[..|a + b| - 1] == a + b[..|b| - 1];
    }
  }

  function Flatten(pieces: seq<Bytes>): Bytes {
    if pieces == [] then [] else Flatten(pieces[..|pieces| - 1]) + pieces[|pieces| - 1]
  }

  function FeedAll(max: nat, r: Reader, pieces: seq<Bytes>): Reader {
    if pieces == [] then r else ReadAll(max, FeedAll(max, r, pieces[..|pieces| - 1]), pieces[|pieces| - 1])
  }

  lemma {:induction false} SplitDoesNotMatter(max: nat, r: Reader, pieces: seq<Bytes>)
    ensures FeedAll(max, r, pieces) == ReadAll(max, r, Flatten(pieces))
  {
    if pieces != [] {
      SplitDoesNotMatter(max, r, pieces[..|pieces| - 1]);
      ReadConcat(max, r, Flatten(pieces[..|pieces| - 1]), pieces[|pieces| - 1]);
    }
  }

  // ----- the bytes on the wire -----------------------------------------------------------

  /** Flipping changes the bit of 32 and no other. */
  lemma FlipIsXor(b: Byte)
    ensures Flip(b) / 64 == b / 64 && Flip(b) % 32 == b % 32 && (Flip(b) / 32) % 2 != (b / 32) % 2
  {
  }

  /**
   * What goes out: a flag as 7D 5E, an escape as 7D 5D, every other byte as it is, one after the other; so no flag
   * but those around the frame.
   */
  lemma {:induction false} StuffedBytes(a: Bytes, b: Byte, c: Bytes)
    ensures Stuff([]) == [] && Stuff(a + c) == Stuff(a) + Stuff(c)
    ensures Stuff([b]) == if b == 0x7E then [0x7D, 0x5E] else if b == 0x7D then [0x7D, 0x5D] else [b]
    ensures 0x7E !in Stuff(a)
    decreases |a| + 2 * |c|
  {
    assert [b][..0] == [];
    if c == [] {
      assert a + c == a;
    } else {
      StuffedBytes(a, b, c[..|c| - 1]);
      assert (a + c)[..|a + c| - 1] == a + c[..|c| - 1];
    }
    if a != [] { StuffedBytes(a[..|a| - 1], b, []); }
  }

  /** What the bytes between two flags stand for: after escapes, the next byte is flipped. */
  function Unstuff(bytes: Bytes, escaped: bool): Bytes {
    if bytes == [] then []
    else if bytes[0] == 0x7D then Unstuff(bytes[1..], true)
    else [if escaped then Flip(bytes[0]) else bytes[0]] + Unstuff(bytes[1..], false)
  }

  lemma {:induction false} UnstuffedArrives(max: nat, r: Reader, bytes: Bytes)
    requires r.inFrame && FLAG !in bytes && |r.frame| <= max
    ensures var t, data := ReadAll(max, r, bytes), r.frame + Unstuff(bytes, r.escape);
            t.packets == r.packets && if |data| <= max then t.inFrame && t.frame == data else !t.inFrame
    decreases |bytes|
  {
    if bytes == [] {
      assert r.frame + [] == r.frame;
    } else {
      var b, rest := bytes[0], bytes[1..];
      assert [b] + rest == bytes && [b][..0] == [];
      ReadConcat(max, r, [b], rest);
      var m := Read(max, r, b);
      assert ReadAll(max, r, [b]) == m;
      assert forall x | x in rest :: x in bytes;
      assert b != FLAG && b in bytes;
      if m.inFrame {
        UnstuffedArrives(max, m, rest);
        assert b != ESC ==> r.frame + Unstuff(bytes, r.escape) == m.frame + Unstuff(rest, false);
      } else {
        OutsideIgnored(max, m, rest);
      }
    }
  }

  /**
   * Any bytes between two flags, well-formed or not, hand on what they stand for if that is a packet of 1 to max
   * bytes, and nothing otherwise. Bytes before the first flag hand on nothing.
   */
  lemma SegmentIsRead(max: nat, r: Reader, bytes: Bytes)
    requires FLAG !in bytes && (r.inFrame ==> AtStart(r))
    ensures var t := ReadAll(max, r, bytes + [FLAG]);
            var data := Unstuff(bytes, false);
            AtStart(t) && t.packets == r.packets + (if r.inFrame && 1 <= |data| <= max then [data] else [])
  {
    ReadConcat(max, r, bytes, [FLAG]);
    FlagArrives(max, ReadAll(max, r, bytes));
    if r.inFrame {
      UnstuffedArrives(max, r, bytes);
      assert [] + Unstuff(bytes, false) == Unstuff(bytes, false);
    } else {
      OutsideIgnored(max, r, bytes);
    }
  }

  // ----- frames in, packets out ---------------------------------------------------------

  /** The packet is one the decoder hands on. */
  predicate Deliverable(max: nat, p: Bytes) {
    1 <= |p| <= max
  }

  function Kept(max: nat, packets: seq<Bytes>): seq<Bytes> {
    if packets == [] then []
    else (if Deliverable(max, packets[0]) then [packets[0]] else []) + Kept(max, packets[1..])
  }

  /** At the start of a frame: nothing collected, no escape pending. */
  predicate AtStart(r: Reader) {
    r.inFrame && r.frame == [] && !r.escape
  }

  lemma StuffLast(data: Bytes, b: Byte)
    ensures Stuff(data + [b]) == Stuff(data) + (if b == FLAG || b == ESC then [ESC, Flip(b)] else [b])
  {
    assert (data + [b])[..|data|] == data;
  }

  /** One data byte, stuffed if need be, extends the frame by exactly that byte, or overflows it. */
  lemma ByteArrives(max: nat, r: Reader, b: Byte)
    requires r.inFrame && !r.escape
    ensures ReadAll(max, r, if b == FLAG || b == ESC then [ESC, Flip(b)] else [b])
         == if |r.frame| >= max then Reader([], false, false, r.packets) else r.(frame := r.frame + [b])
  {
    FlipTwice(b);
    if b == FLAG || b == ESC {
      assert [ESC, Flip(b)][..1] == [ESC] && [ESC][..0] == [];
      assert ReadAll(max, r, [ESC]) == r.(escape := true);
      assert Flip(b) != FLAG && Flip(b) != ESC;
    } else {
      assert [b][..0] == [];
    }
  }

  lemma {:induction false} OutsideIgnored(max: nat, r: Reader, bytes: Bytes)
    requires !r.inFrame && FLAG !in bytes
    ensures ReadAll(max, r, bytes) == r
  {
    if bytes != [] {
      assert FLAG !in bytes[..|bytes| - 1];
      OutsideIgnored(max, r, bytes[..|bytes| - 1]);
    }
  }

  /** Between the flags the decoder recovers the data, or gives the whole frame up when it is too long. */
  lemma {:induction false} StuffedArrives(max: nat, r: Reader, data: Bytes)
    requires AtStart(r)
    ensures ReadAll(max, r, Stuff(data))
         == if |data| <= max then r.(frame := data) else Reader([], false, false, r.packets)
  {
    if data != [] {
      var d, b := data[..|data| - 1], data[|data| - 1];
      StuffedArrives(max, r, d);
      assert d + [b] == data;
      StuffLast(d, b);
      var tail := if b == FLAG || b == ESC then [ESC, Flip(b)] else [b];
      ReadConcat(max, r, Stuff(d), tail);
      var m := ReadAll(max, r, Stuff(d));
      if |d| <= max {
        ByteArrives(max, m, b);
      } else {
        assert Flip(b) != FLAG || !(b == FLAG || b == ESC);
        OutsideIgnored(max, m, tail);
      }
    }
  }

  lemma FlagArrives(max: nat, r: Reader)
    ensures var r' := ReadAll(max, r, [FLAG]);
            AtStart(r') && r'.packets == if r.inFrame && r.frame != [] then r.packets + [r.frame] else r.packets
  {
    assert [FLAG][..0] == [];
  }

  /** A whole frame hands on its packet when it is deliverable, and nothing otherwise, from any state. */
  lemma FrameArrives(max: nat, r: Reader, data: Bytes)
    ensures var first := ReadAll(max, r, [FLAG]);
            var r' := ReadAll(max, r, Frame(data));
            AtStart(r') && r'.packets == first.packets + Kept(max, [data])
  {
    var a := ReadAll(max, r, [FLAG]);
    FlagArrives(max, r);
    ReadConcat(max, r, [FLAG], Stuff(data));
    ReadConcat(max, r, [FLAG] + Stuff(data), [FLAG]);
    StuffedArrives(max, a, data);
    FlagArrives(max, ReadAll(max, r, [FLAG] + Stuff(data)));
    var one := [data];
    assert one[1..] == [];
  }

  lemma KeptCons(max: nat, p: Bytes, rest: seq<Bytes>)
    ensures Kept(max, [p]) + Kept(max, rest) == Kept(max, [p] + rest)
  {
    var one := [p];
    assert one[1..] == [] && ([p] + rest)[1..] == rest;
  }

  lemma FrameAllCons(p: Bytes, rest: seq<Bytes>)
    ensures FrameAll([p] + rest) == Frame(p) + FrameAll(rest)
  {
    assert ([p] + rest)[1..] == rest;
  }

  /** A packet and the packets after it, from any state. */
  lemma {:induction false} FramesArrive(max: nat, r: Reader, p: Bytes, rest: seq<Bytes>)
    ensures var first := ReadAll(max, r, [FLAG]);
            var r' := ReadAll(max, r, FrameAll([p] + rest));
            AtStart(r') && r'.packets == first.packets + Kept(max, [p] + rest)
    decreases |rest|
  {
    hide ReadAll, Frame, Kept, FrameAll;
    FrameArrives(max, r, p);
    FrameAllCons(p, rest);
    KeptCons(max, p, rest);
    ReadConcat(max, r, Frame(p), FrameAll(rest));
    var m := ReadAll(max, r, Frame(p));
    if rest == [] {
      NothingArrives(max, m);
    } else {
      assert [rest[0]] + rest[1..] == rest;
      FramesArrive(max, m, rest[0], rest[1..]);
      FlagArrives(max, m);
    }
  }

  lemma NothingArrives(max: nat, r: Reader)
    ensures ReadAll(max, r, FrameAll([])) == r && Kept(max, []) == []
  {
  }

  /**
   * Stream correctness. After any garbage, whole frames or pieces of them, and however the stream
   * is cut into reads, the packets of 1 to max bytes framed from then on are handed on unchanged
   * and in order; before them comes only what the garbage itself spells.
   */
  lemma StreamIsRecovered(max: nat, garbage: Bytes, packets: seq<Bytes>, pieces: seq<Bytes>)
    requires packets != [] && Flatten(pieces) == garbage + FrameAll(packets)
    ensures FeedAll(max, FRESH, pieces).packets == ReadAll(max, FRESH, garbage + [FLAG]).packets + Kept(max, packets)
  {
    hide ReadAll, FrameAll, Kept;
    SplitDoesNotMatter(max, FRESH, pieces);
    ReadConcat(max, FRESH, garbage, FrameAll(packets));
    ReadConcat(max, FRESH, garbage, [FLAG]);
    assert [packets[0]] + packets[1..] == packets;
    FramesArrive(max, ReadAll(max, FRESH, garbage), packets[0], packets[1..]);
  }

  /** Without garbage the decoder inverts the encoder on everything deliverable. */
  lemma StreamRoundTrip(max: nat, packets: seq<Bytes>, pieces: seq<Bytes>)
    requires Flatten(pieces) == FrameAll(packets)
    requires forall k | 0 <= k < |packets| :: Deliverable(max, packets[k])
    ensures FeedAll(max, FRESH, pieces).packets == packets
  {
    AllKept(max, packets);
    if packets == [] {
      SplitDoesNotMatter(max, FRESH, pieces);
    } else {
      assert [] + FrameAll(packets) == FrameAll(packets);
      StreamIsRecovered(max, [], packets, pieces);
      assert [] + [FLAG] == [FLAG];
      FlagArrives(max, FRESH);
    }
  }

  lemma {:induction false} AllKept(max: nat, packets: seq<Bytes>)
    requires forall k | 0 <= k < |packets| :: Deliverable(max, packets[k])
    ensures Kept(max, packets) == packets
  {
    if packets != [] { AllKept(max, packets[1..]); }
  }

  /** Whatever bytes arrive, only packets of 1 to max bytes are handed on. */
  lemma {:induction false} OnlyDeliverable(max: nat, bytes: Bytes)
    ensures var r := ReadAll(max, FRESH, bytes);
            |r.frame| <= max && forall k | 0 <= k < |r.packets| :: Deliverable(max, r.packets[k])
  {
    if bytes != [] { OnlyDeliverable(max, bytes[..|bytes| - 1]); }
  }
}
