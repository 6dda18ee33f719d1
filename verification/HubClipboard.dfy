/**
 * A short clipboard sent through the hubs as numbered parts, and put together again on the other
 * device, over a network that may lose, repeat, reorder and mix messages.
 */
module HubClipboard {
  import opened Basics

  const HUB_CLIP_MAX := 4096
  const HUB_CLIP_PART := 138

  /** Fingerprints are printed in hex, so a slash never occurs in one. */
  type Fingerprint = s: string | '/' !in s witness ""
  type Id = string

  // ----- the sender's parts --------------------------------------------------------

  function PartCount(data: Bytes): (n: nat)
    ensures n >= 1
    ensures data != [] ==> (n - 1) * HUB_CLIP_PART < |data| <= n * HUB_CLIP_PART
  {
    if data == [] then 1 else (|data| + HUB_CLIP_PART - 1) / HUB_CLIP_PART
  }

  function Part(data: Bytes, n: nat): Bytes
    requires n < PartCount(data)
  {
    data[n * HUB_CLIP_PART..Min((n + 1) * HUB_CLIP_PART, |data|)]
  }

  /** What goes over the hubs. A part's data is None when it is not valid base64. */
  datatype Signal =
    | Clip(id: Id, n: int, of: int, data: Option<Bytes>)
    | ClipAck(id: Id)
    | Ping(id: Id)
    | Pong(id: Id)

  function PartSignal(id: Id, data: Bytes, n: nat): Signal
    requires n < PartCount(data)
  {
    Clip(id, n, PartCount(data), Some(Part(data, n)))
  }

  /** The sending loop: parts in order, up to the first one the hubs do not take. */
  method SendParts(id: Id, data: Bytes, takes: nat -> bool) returns (out: seq<Signal>, ok: bool)
    ensures |out| <= PartCount(data)
    ensures forall k | 0 <= k < |out| :: takes(k) && out[k] == PartSignal(id, data, k)
    ensures ok == (|out| == PartCount(data))
    ensures !ok ==> !takes(|out|)
  {
    out := [];
    var parts := (|data| + HUB_CLIP_PART - 1) / HUB_CLIP_PART;
    if parts == 0 {
      parts := 1;
    }
    var n := 0;
    while n < parts
      invariant 0 <= n <= parts && |out| == n
      invariant forall k | 0 <= k < n :: takes(k) && out[k] == PartSignal(id, data, k)
    {
      var end := Min((n + 1) * HUB_CLIP_PART, |data|);
      if !takes(n) {
        return out, false;
      }
      out := out + [Clip(id, n, parts, Some(data[n * HUB_CLIP_PART..end]))];
      n := n + 1;
    }
    ok := true;
  }

  // ----- the receiver's table ------------------------------------------------------

  datatype Parts = Parts(parts: seq<Option<Bytes>>, got: nat)
  type Table = map<string, Parts>

  function Key(from: Fingerprint, id: Id): string {
    from + "/" + id
  }

  /** The part is well-formed and small enough to be taken. */
  predicate Acceptable(n: int, of: int, data: Option<Bytes>) {
    && of > 0 && of * HUB_CLIP_PART <= HUB_CLIP_MAX + HUB_CLIP_PART && 0 <= n < of
    && data.Some? && |data.value| <= HUB_CLIP_PART
  }

  function Joined(parts: seq<Option<Bytes>>): Bytes {
    if parts == [] then []
    else
      var last := parts[|parts| - 1];
      Joined(parts[..|parts| - 1]) + (if last.Some? then last.value else [])
  }

  function Entry(t: Table, key: string, of: nat): Parts {
    if key in t then t[key] else Parts(seq(of, _ => None), 0)
  }

  datatype Taken = Taken(table: Table, text: Option<Bytes>)

  /** receiveClipPart up to the complete text. */
  function Take(t: Table, from: Fingerprint, id: Id, n: int, of: int, data: Option<Bytes>): Taken {
    if !Acceptable(n, of, data) then Taken(t, None)
    else
      var key := Key(from, id);
      var cp := Entry(t, key, of);
      if |cp.parts| != of || cp.parts[n].Some? then Taken(t, None)
      else
        var cp' := Parts(cp.parts[n := data], cp.got + 1);
        if cp'.got == of then Taken(t - {key}, Some(Joined(cp'.parts)))
        else Taken(t[key := cp'], None)
  }

  method JoinParts(parts: seq<Option<Bytes>>) returns (text: Bytes)
    ensures text == Joined(parts)
  {
    text := [];
    var i := 0;
    while i < |parts|
      invariant 0 <= i <= |parts| && text == Joined(parts[..i])
    {
      assert parts[..i + 1][..i] == parts[..i];
      match parts[i] {
        case Some(p) => text := text + p;
        case None =>
      }
      i := i + 1;
    }
    assert parts[..i] == parts;
  }

  class Receiver {
    var clips: Table

    constructor ()
      ensures clips == map[]
    {
      clips := map[];
    }

    method ReceiveClipPart(from: Fingerprint, id: Id, n: int, of: int, data: Option<Bytes>) returns (text: Option<Bytes>)
      modifies this
      ensures Taken(clips, text) == Take(old(clips), from, id, n, of, data)
    {
      hide Joined;
      text := None;
      if of <= 0 || of * HUB_CLIP_PART > HUB_CLIP_MAX + HUB_CLIP_PART || n < 0 || n >= of { return; }
      if data.None? || |data.value| > HUB_CLIP_PART { return; }
      var key := from + "/" + id;
      if key !in clips {
        clips := clips[key := Parts(seq(of, _ => None), 0)];
      }
      var cp := clips[key];
      if |cp.parts| != of || cp.parts[n].Some? { return; }
      cp := Parts(cp.parts[n := data], cp.got + 1);
      clips := clips[key := cp];
      if cp.got != |cp.parts| { return; }
      clips := clips - {key};
      var joined := JoinParts(cp.parts);
      text := Some(joined);
      assert clips == Take(old(clips), from, id, n, of, data).table;
    }

    method Expire(key: string)
      modifies this
      ensures clips == old(clips) - {key}
    {
      clips := clips - {key};
    }
  }

  // ----- any number of devices over the hubs -----------------------------------------

  datatype Sent = Sent(from: Fingerprint, to: Fingerprint, data: Bytes)
  datatype Msg = Msg(from: Fingerprint, to: Fingerprint, body: Signal)

  /** A clipboard set on a device, from the parts with this id. */
  datatype Shown = Shown(on: Fingerprint, id: Id, text: Bytes)

  /**
   * net holds every message ever handed to the hubs, sent every clip with its id, waiting the ids
   * whose sender waits for an acknowledgement, acked those whose channel was closed, finished those
   * whose sender has returned, and succeeded those it reported as sent.
   */
  datatype World = World(
    net: set<Msg>, tables: map<Fingerprint, Table>, sent: map<Id, Sent>, pings: set<Id>,
    waiting: set<(Fingerprint, Id)>, acked: set<Id>, finished: set<Id>, succeeded: set<Id>, shown: seq<Shown>)

  datatype Event =
    | StartClip(id: Id, from: Fingerprint, to: Fingerprint, data: Bytes)
    | SendPart(id: Id, n: nat)
    | StartPing(id: Id, from: Fingerprint, to: Fingerprint)
    | Deliver(m: Msg, sets: bool)
    | Acknowledge(shown: Shown)
    | Expire(on: Fingerprint, key: string)
    | Finish(id: Id, success: bool)

  function TableOf(w: World, d: Fingerprint): Table {
    if d in w.tables then w.tables[d] else map[]
  }

  /** Any message ever sent arrives, maybe again; sets tells whether the system clipboard took the text. */
  function DeliverStep(w: World, m: Msg, sets: bool): World {
    match m.body
    case Clip(id, n, of, data) =>
      var t := Take(TableOf(w, m.to), m.from, id, n, of, data);
      var w1 := w.(tables := w.tables[m.to := t.table]);
      if t.text.Some? && sets then w1.(shown := w.shown + [Shown(m.to, id, t.text.value)]) else w1
    case Ping(id) => w.(net := w.net + {Msg(m.to, m.from, Pong(id))})
    case ClipAck(id) => CloseStep(w, m.to, id)
    case Pong(id) => CloseStep(w, m.to, id)
  }

  function CloseStep(w: World, d: Fingerprint, id: Id): World {
    if (d, id) in w.waiting then w.(waiting := w.waiting - {(d, id)}, acked := w.acked + {id}) else w
  }

  /** An event that is not possible in w changes nothing; ids are fresh. */
  function Step(w: World, e: Event): World {
    match e
    case StartClip(id, from, to, data) =>
      if id in w.sent || id in w.pings || |data| > HUB_CLIP_MAX then w
      else w.(sent := w.sent[id := Sent(from, to, data)], waiting := w.waiting + {(from, id)})
    case SendPart(id, n) =>
      if id in w.sent && n < PartCount(w.sent[id].data)
      then w.(net := w.net + {PartMsg(w, id, n)})
      else w
    case StartPing(id, from, to) =>
      if id in w.sent || id in w.pings then w
      else w.(pings := w.pings + {id}, waiting := w.waiting + {(from, id)}, net := w.net + {Msg(from, to, Ping(id))})
    case Deliver(m, sets) => if m in w.net then DeliverStep(w, m, sets) else w
    case Acknowledge(x) =>
      if x in w.shown && x.id in w.sent
      then w.(net := w.net + {Msg(x.on, w.sent[x.id].from, ClipAck(x.id))})
      else w
    case Expire(on, key) => w.(tables := w.tables[on := TableOf(w, on) - {key}])
    case Finish(id, success) =>
      if id in w.sent && id !in w.finished && (success ==> id in w.acked) then
        w.(waiting := w.waiting - {(w.sent[id].from, id)}, finished := w.finished + {id},
           succeeded := if success then w.succeeded + {id} else w.succeeded)
      else w
  }

  function PartMsg(w: World, id: Id, n: nat): Msg
    requires id in w.sent && n < PartCount(w.sent[id].data)
  {
    Msg(w.sent[id].from, w.sent[id].to, PartSignal(id, w.sent[id].data, n))
  }

  function Run(w: World, events: seq<Event>): World {
    if events == [] then w else Step(Run(w, events[..|events| - 1]), events[|events| - 1])
  }

  const START := World({}, map[], map[], {}, {}, {}, {}, {}, [])

  // ----- keys ----------------------------------------------------------------------

  lemma KeyInjective(a: Fingerprint, x: Id, b: Fingerprint, y: Id)
    requires Key(a, x) == Key(b, y)
    ensures a == b && x == y
  {
    var k := Key(a, x);
    assert k[|a|] == '/' && k[|b|] == '/';
    assert forall i | 0 <= i < |a| :: a[i] == k[i] && k[i] != '/';
    assert forall i | 0 <= i < |b| :: b[i] == k[i] && k[i] != '/';
    assert |a| == |b|;
    assert a == k[..|a|] && b == k[..|b|];
    assert x == k[|a| + 1..] && y == k[|b| + 1..];
  }

  // ----- putting parts together ------------------------------------------------------

  function Held(parts: seq<Option<Bytes>>): nat {
    if parts == [] then 0 else Held(parts[..|parts| - 1]) + (if parts[|parts| - 1].Some? then 1 else 0)
  }

  lemma {:induction false} HeldBound(parts: seq<Option<Bytes>>)
    ensures Held(parts) <= |parts|
    ensures Held(parts) == |parts| <==> (forall i | 0 <= i < |parts| :: parts[i].Some?)
  {
    if parts != [] {
      HeldBound(parts[..|parts| - 1]);
    }
  }

  lemma {:induction false} HeldUpdate(parts: seq<Option<Bytes>>, n: nat, p: Option<Bytes>)
    requires n < |parts| && parts[n].None? && p.Some?
    ensures Held(parts[n := p]) == Held(parts) + 1
  {
    var init := parts[..|parts| - 1];
    if n < |init| {
      HeldUpdate(init, n, p);
      assert parts[n := p][..|parts| - 1] == init[n := p];
    } else {
      assert parts[n := p][..|parts| - 1] == init;
    }
  }

  lemma {:induction false} HeldNone(n: nat)
    ensures Held(seq(n, _ => None)) == 0
  {
    var s: seq<Option<Bytes>> := seq(n, _ => None);
    if n > 0 {
      HeldNone(n - 1);
      assert s[..n - 1] == seq(n - 1, _ => None);
    }
  }

  /** All parts present, each the sender's: together they are the data. */
  lemma {:induction false} JoinedParts(data: Bytes, parts: seq<Option<Bytes>>)
    requires |parts| <= PartCount(data)
    requires forall n | 0 <= n < |parts| :: parts[n] == Some(Part(data, n))
    ensures Joined(parts) == data[..Min(|parts| * HUB_CLIP_PART, |data|)]
  {
    if parts != [] {
      var k := |parts| - 1;
      JoinedParts(data, parts[..k]);
      assert parts[k] == Some(Part(data, k));
    }
  }

  // ----- the invariant ---------------------------------------------------------------

  /** A collection under way holds only the sender's parts, and is not complete. */
  ghost predicate Collecting(cp: Parts, data: Bytes) {
    && |cp.parts| == PartCount(data) && cp.got == Held(cp.parts) < |cp.parts|
    && forall n | 0 <= n < |cp.parts| && cp.parts[n].Some? :: cp.parts[n].value == Part(data, n)
  }

  ghost predicate TablesOk(w: World) {
    forall d, from: Fingerprint, id | Key(from, id) in TableOf(w, d) ::
      && id in w.sent && w.sent[id].from == from
      && Collecting(TableOf(w, d)[Key(from, id)], w.sent[id].data)
  }

  ghost predicate WasShown(w: World, id: Id) {
    id in w.sent && Shown(w.sent[id].to, id, w.sent[id].data) in w.shown
  }

  ghost predicate MsgOk(w: World, m: Msg) {
    match m.body
    case Clip(id, n, of, data) =>
      && id in w.sent && 0 <= n < PartCount(w.sent[id].data) && m == PartMsg(w, id, n)
    case ClipAck(id) => WasShown(w, id) && m.to == w.sent[id].from
    case Ping(id) => id in w.pings
    case Pong(id) => id in w.pings
  }

  ghost predicate NetOk(w: World) {
    forall m | m in w.net :: MsgOk(w, m)
  }

  ghost predicate ShownOk(w: World) {
    forall x | x in w.shown :: x.id in w.sent && w.sent[x.id].to == x.on && w.sent[x.id].data == x.text
  }

  ghost predicate AcksOk(w: World) {
    && (forall id | id in w.acked && id in w.sent :: WasShown(w, id))
    && (forall id | id in w.succeeded :: WasShown(w, id))
    && (forall p | p in w.waiting :: p.1 in w.sent || p.1 in w.pings)
    && (forall id | id in w.acked :: id in w.sent || id in w.pings)
    && (forall id | id in w.finished :: id in w.sent)
    && (forall id | id in w.sent :: id in w.acked || id in w.finished || (w.sent[id].from, id) in w.waiting)
    && (forall id | id in w.sent && id in w.finished :: (w.sent[id].from, id) !in w.waiting)
  }

  ghost predicate SentOk(w: World) {
    w.sent.Keys !! w.pings && forall id | id in w.sent :: |w.sent[id].data| <= HUB_CLIP_MAX
  }

  ghost predicate Inv(w: World) {
    TablesOk(w) && SentOk(w) && NetOk(w) && ShownOk(w) && AcksOk(w)
  }

  lemma InitInv()
    ensures Inv(START)
  {
  }

  lemma AddPart(cp: Parts, data: Bytes, n: nat)
    requires Collecting(cp, data) && n < |cp.parts| && cp.parts[n].None?
    ensures var next := Parts(cp.parts[n := Some(Part(data, n))], cp.got + 1);
            if next.got == |next.parts| then Joined(next.parts) == data else Collecting(next, data)
  {
    var next := cp.parts[n := Some(Part(data, n))];
    HeldUpdate(cp.parts, n, Some(Part(data, n)));
    HeldBound(next);
    if cp.got + 1 == |next| {
      JoinedParts(data, next);
    }
  }

  lemma PartFits(data: Bytes, n: nat)
    requires |data| <= HUB_CLIP_MAX && n < PartCount(data)
    ensures Acceptable(n, PartCount(data), Some(Part(data, n)))
  {
  }

  lemma FreshEntry(data: Bytes)
    ensures Collecting(Parts(seq(PartCount(data), _ => None), 0), data)
  {
    HeldNone(PartCount(data));
  }

  /** One of the sender's parts arrives: it is added, and the last one completes the data. */
  lemma TakePart(t: Table, from: Fingerprint, id: Id, data: Bytes, n: nat)
    requires |data| <= HUB_CLIP_MAX && n < PartCount(data)
    requires Key(from, id) in t ==> Collecting(t[Key(from, id)], data)
    ensures var key := Key(from, id);
            var r := Take(t, from, id, n, PartCount(data), Some(Part(data, n)));
            && r.table - {key} == t - {key}
            && (r.text.Some? ==> r.text.value == data && key !in r.table)
            && (r.text.None? ==>
                  && key in r.table && Collecting(r.table[key], data) && r.table[key].parts[n].Some?
                  && (key in t ==> forall i | 0 <= i < PartCount(data) && t[key].parts[i].Some? :: r.table[key].parts[i].Some?))
  {
    hide Held, Joined, Acceptable, Part, PartCount, Key;
    var key := Key(from, id);
    var cp := Entry(t, key, PartCount(data));
    FreshEntry(data);
    assert Collecting(cp, data);
    PartFits(data, n);
    if cp.parts[n].None? {
      AddPart(cp, data, n);
    }
  }

  lemma TakeKeepsTables(w: World, id: Id, n: nat)
    requires TablesOk(w) && id in w.sent && n < PartCount(w.sent[id].data) && |w.sent[id].data| <= HUB_CLIP_MAX
    ensures var x := w.sent[id];
            var r := Take(TableOf(w, x.to), x.from, id, n, PartCount(x.data), Some(Part(x.data, n)));
            TablesOk(w.(tables := w.tables[x.to := r.table]))
  {
    hide Collecting, Take;
    var x := w.sent[id];
    var t := TableOf(w, x.to);
    var r := Take(t, x.from, id, n, PartCount(x.data), Some(Part(x.data, n)));
    var w1 := w.(tables := w.tables[x.to := r.table]);
    TakePart(t, x.from, id, x.data, n);
    forall d, from: Fingerprint, i | Key(from, i) in TableOf(w1, d)
      ensures && i in w.sent && w.sent[i].from == from
              && Collecting(TableOf(w1, d)[Key(from, i)], w.sent[i].data)
    {
      if d == x.to {
        if Key(from, i) == Key(x.from, id) {
          KeyInjective(from, i, x.from, id);
        } else {
          assert Key(from, i) in r.table - {Key(x.from, id)};
        }
      } else {
        assert Key(from, i) in TableOf(w, d);
      }
    }
  }

  /** Giving out more ids, or dropping collections, keeps the tables in order. */
  lemma TablesLess(w: World, w1: World)
    requires TablesOk(w)
    requires forall id | id in w.sent :: id in w1.sent && w1.sent[id] == w.sent[id]
    requires forall d, key | key in TableOf(w1, d) :: key in TableOf(w, d) && TableOf(w1, d)[key] == TableOf(w, d)[key]
    ensures TablesOk(w1)
  {
  }

  lemma DeliverKeepsInv(w: World, m: Msg, sets: bool)
    requires Inv(w) && m in w.net
    ensures Inv(DeliverStep(w, m, sets))
  {
    hide Take, Collecting, Part, PartCount, Key;
    assert MsgOk(w, m);
    match m.body
    case Clip(id, n, of, data) =>
      TakeKeepsTables(w, id, n);
      TakePartOf(w, id, n);
      var x := w.sent[id];
      var r := Take(TableOf(w, x.to), x.from, id, n, PartCount(x.data), Some(Part(x.data, n)));
      var w1 := DeliverStep(w, m, sets);
      TablesLess(w.(tables := w.tables[x.to := r.table]), w1);
      assert forall k | k in w.net :: MsgOk(w, k) && MsgOk(w1, k);
    case _ => AnswerKeepsInv(w, m, sets);
  }

  lemma AnswerKeepsInv(w: World, m: Msg, sets: bool)
    requires Inv(w) && m in w.net && !m.body.Clip?
    ensures Inv(DeliverStep(w, m, sets))
  {
    hide Take, Collecting, Part, PartCount, Key, TableOf;
    assert MsgOk(w, m);
    var w1 := DeliverStep(w, m, sets);
    SameTables(w, w1);
    assert forall k | k in w.net :: MsgOk(w, k) && MsgOk(w1, k);
  }

  lemma SameTables(w: World, w1: World)
    requires TablesOk(w) && w1.tables == w.tables && w1.sent == w.sent
    ensures TablesOk(w1)
  {
    TablesLess(w, w1);
  }

  lemma TakePartOf(w: World, id: Id, n: nat)
    requires Inv(w) && id in w.sent && n < PartCount(w.sent[id].data)
    ensures var x := w.sent[id];
            var r := Take(TableOf(w, x.to), x.from, id, n, PartCount(x.data), Some(Part(x.data, n)));
            r.text.Some? ==> r.text.value == x.data
  {
    var x := w.sent[id];
    TakePart(TableOf(w, x.to), x.from, id, x.data, n);
  }

  lemma StepKeepsInv(w: World, e: Event)
    requires Inv(w)
    ensures Inv(Step(w, e))
  {
    hide Collecting, DeliverStep, Part, PartCount, TableOf;
    if e.Deliver? {
      if e.m in w.net {
        DeliverKeepsInv(w, e.m, e.sets);
      }
    } else {
      OtherStepTables(w, e);
      OtherStepNet(w, e);
    }
  }

  lemma OtherStepTables(w: World, e: Event)
    requires Inv(w) && !e.Deliver?
    ensures TablesOk(Step(w, e))
  {
    hide Collecting, Part, PartCount;
    TablesLess(w, Step(w, e));
  }

  lemma OtherStepNet(w: World, e: Event)
    requires Inv(w) && !e.Deliver?
    ensures NetOk(Step(w, e))
  {
    hide Collecting, Part, PartCount, TableOf;
    var w1 := Step(w, e);
    assert forall i | i in w.sent :: i in w1.sent && w1.sent[i] == w.sent[i];
    assert forall m | m in w.net :: MsgOk(w, m) && MsgOk(w1, m);
  }

  lemma {:induction false} RunKeepsInv(w: World, events: seq<Event>)
    requires Inv(w)
    ensures Inv(Run(w, events))
  {
    if events != [] {
      RunKeepsInv(w, events[..|events| - 1]);
      StepKeepsInv(Run(w, events[..|events| - 1]), events[|events| - 1]);
    }
  }

  // ----- what every run keeps -----------------------------------------------------------

  /** Whatever is lost, repeated, reordered, mixed or expired: a clipboard is only set to what was sent to it. */
  lemma OnlySetToSentData(events: seq<Event>)
    ensures var w := Run(START, events);
            forall x | x in w.shown :: x.id in w.sent && w.sent[x.id].to == x.on && w.sent[x.id].data == x.text
  {
    InitInv();
    RunKeepsInv(START, events);
  }

  /** The sender reports success only for a clip that was set, unchanged, on the device it was for. */
  lemma SuccessMeansSet(events: seq<Event>)
    ensures var w := Run(START, events);
            forall id | id in w.succeeded :: id in w.sent && Shown(w.sent[id].to, id, w.sent[id].data) in w.shown
  {
    InitInv();
    RunKeepsInv(START, events);
    assert AcksOk(Run(START, events));
  }

  // ----- exactly which clips are reported as sent ---------------------------------------------

  /** The k-th event brings the sender of id an acknowledgement. */
  ghost predicate AckArrives(events: seq<Event>, k: int, id: Id) {
    0 <= k < |events| && AckedBy(Run(START, events[..k]), events[k], id)
  }

  predicate AckedBy(w: World, e: Event, id: Id) {
    && id in w.sent && e.Deliver? && e.m in w.net && e.m.body == ClipAck(id) && e.m.to == w.sent[id].from
  }

  /** At the j-th event the sender of id returns, for the first time, having been acknowledged or not. */
  ghost predicate Returns(events: seq<Event>, j: int, id: Id, success: bool) {
    && 0 <= j < |events| && events[j] == Finish(id, success)
    && id in Run(START, events[..j]).sent && id !in Run(START, events[..j]).finished
    && (success ==> exists k :: k < j && AckArrives(events, k, id))
  }

  lemma AckArrivesEarlier(events: seq<Event>, e: Event, k: int, id: Id)
    requires k < |events|
    ensures AckArrives(events + [e], k, id) == AckArrives(events, k, id)
  {
    hide Run, AckedBy;
    if 0 <= k {
      assert (events + [e])[..k] == events[..k];
    }
  }

  /** An acknowledgement that arrives before the sender returns is taken; nothing else counts as one. */
  lemma StepAcks(w: World, e: Event, id: Id)
    requires Inv(w) && id in w.sent && id !in Step(w, e).finished
    ensures id in Step(w, e).acked <==> id in w.acked || AckedBy(w, e, id)
  {
    hide Take, TableOf, Collecting, Part, PartCount;
    if e.Deliver? && e.m in w.net { assert MsgOk(w, e.m); }
  }

  lemma NewIsNotAcked(w: World, e: Event, id: Id)
    requires Inv(w) && id !in w.sent && id in Step(w, e).sent
    ensures id !in Step(w, e).acked && id !in Step(w, e).finished && !AckedBy(w, e, id)
  {
    hide Take, TableOf, Collecting, Part, PartCount;
    DeliverSends(w, e);
  }

  /** While the sender of id has not returned, it is acknowledged exactly when an acknowledgement has arrived. */
  lemma {:induction false} AckedExactly(events: seq<Event>, id: Id)
    requires id in Run(START, events).sent && id !in Run(START, events).finished
    ensures id in Run(START, events).acked <==> exists k :: AckArrives(events, k, id)
  {
    hide Step, Inv, AckedBy;
    if events != [] {
      var before, e := events[..|events| - 1], events[|events| - 1];
      var w := Run(START, before);
      assert before + [e] == events;
      assert forall k | k < |before| :: AckArrives(events, k, id) == AckArrives(before, k, id) by {
        forall k | k < |before| ensures AckArrives(events, k, id) == AckArrives(before, k, id) { AckArrivesEarlier(before, e, k, id); }
      }
      InitInv();
      RunKeepsInv(START, before);
      if id in w.sent {
        FinishedStays(w, e, id);
        AckedExactly(before, id);
        StepAcks(w, e, id);
      } else {
        NewIsNotAcked(w, e, id);
        forall k ensures !AckArrives(before, k, id) { NotSentYet(before, k, id); }
      }
      assert AckArrives(events, |before|, id) == AckedBy(w, e, id);
    }
  }

  lemma {:induction false} NotSentYet(events: seq<Event>, k: int, id: Id)
    requires id !in Run(START, events).sent
    ensures !AckArrives(events, k, id)
  {
    hide Step, Inv;
    if 0 <= k < |events| {
      var before := events[..|events| - 1];
      InitInv();
      RunKeepsInv(START, before);
      if id in Run(START, before).sent { SentStays(Run(START, before), events[|events| - 1], id); }
      if k < |before| {
        NotSentYet(before, k, id);
        assert before[..k] == events[..k];
      }
    }
  }

  lemma FinishedStays(w: World, e: Event, id: Id)
    ensures id in w.finished ==> id in Step(w, e).finished
    ensures id in w.succeeded ==> id in Step(w, e).succeeded
  {
    hide Take, TableOf;
  }

  lemma StepReturns(w: World, e: Event, id: Id)
    ensures id in Step(w, e).finished <==>
      id in w.finished || (id in w.sent && e.Finish? && e.id == id && (e.success ==> id in w.acked))
    ensures id in Step(w, e).succeeded <==>
      id in w.succeeded || (id in w.sent && id !in w.finished && e == Finish(id, true) && id in w.acked)
  {
    hide Take, TableOf;
  }

  lemma ReturnsEarlier(events: seq<Event>, e: Event, j: int, id: Id, success: bool)
    requires j < |events|
    ensures Returns(events + [e], j, id, success) == Returns(events, j, id, success)
  {
    hide Run, AckArrives;
    if 0 <= j {
      assert (events + [e])[..j] == events[..j];
      forall k | k < j ensures AckArrives(events + [e], k, id) == AckArrives(events, k, id) { AckArrivesEarlier(events, e, k, id); }
    }
  }

  /**
   * The exact condition for a report of success. The sender of a clip has reported it as sent if and only if it
   * returned so, once, after an acknowledgement had arrived.
   */
  lemma {:induction false} ReportedExactly(events: seq<Event>, id: Id)
    ensures id in Run(START, events).succeeded <==> exists j :: Returns(events, j, id, true)
  {
    hide Step, Inv, AckArrives;
    if events != [] {
      var before, e := events[..|events| - 1], events[|events| - 1];
      var w := Run(START, before);
      assert before + [e] == events;
      ReportedExactly(before, id);
      forall j | j < |before| ensures Returns(events, j, id, true) == Returns(before, j, id, true) { ReturnsEarlier(before, e, j, id, true); }
      StepReturns(w, e, id);
      forall k | k < |before| ensures AckArrives(events, k, id) == AckArrives(before, k, id) { AckArrivesEarlier(before, e, k, id); }
      if id in w.sent && id !in w.finished { AckedExactly(before, id); }
      LastReturns(before, e, id);
      if id in w.succeeded { assert exists j :: Returns(before, j, id, true) && j < |before|; }
    }
  }

  lemma LastReturns(before: seq<Event>, e: Event, id: Id)
    ensures Returns(before + [e], |before|, id, true) <==>
      && e == Finish(id, true) && id in Run(START, before).sent && id !in Run(START, before).finished
      && exists k :: AckArrives(before, k, id)
  {
    hide Run, AckArrives;
    var events := before + [e];
    assert events[..|before|] == before && events[|before|] == e;
    forall k | k < |before| ensures AckArrives(events, k, id) == AckArrives(before, k, id) { AckArrivesEarlier(before, e, k, id); }
    forall k | AckArrives(before, k, id) ensures k < |before| { AckIsWithin(before, k, id); }
  }

  lemma AckIsWithin(events: seq<Event>, k: int, id: Id)
    requires AckArrives(events, k, id)
    ensures k < |events|
  {
    hide Run, AckedBy;
  }

  /**
   * So a clip that was set and acknowledged, where the acknowledgement arrives before the sender gives up, is
   * reported as sent.
   */
  lemma AcknowledgedIsReported(w: World, id: Id)
    requires Inv(w) && id in w.sent && id !in w.finished && Shown(w.sent[id].to, id, w.sent[id].data) in w.shown
    ensures var x := w.sent[id];
            var shown := Shown(x.to, id, x.data);
            id in Run(w, [Acknowledge(shown), Deliver(Msg(x.to, x.from, ClipAck(id)), true), Finish(id, true)]).succeeded
  {
    hide Take, TableOf, Run, Collecting, Part, PartCount;
    var x := w.sent[id];
    var a, b, c := Acknowledge(Shown(x.to, id, x.data)), Deliver(Msg(x.to, x.from, ClipAck(id)), true), Finish(id, true);
    RunOfThree(w, a, b, c);
    var w1 := Step(w, a);
    var w2 := Step(w1, b);
    assert id in w2.acked;
  }

  /** And a ping whose answer arrives is answered. */
  lemma PingIsAnswered(w: World, id: Id, from: Fingerprint, to: Fingerprint)
    requires id !in w.sent && id !in w.pings
    ensures id in Run(w, [StartPing(id, from, to), Deliver(Msg(from, to, Ping(id)), true), Deliver(Msg(to, from, Pong(id)), true)]).acked
  {
    hide Take, TableOf, Run;
    var a, b, c := StartPing(id, from, to), Deliver(Msg(from, to, Ping(id)), true), Deliver(Msg(to, from, Pong(id)), true);
    RunOfThree(w, a, b, c);
    var w1 := Step(w, a);
    var w2 := Step(w1, b);
    assert Msg(to, from, Pong(id)) in w2.net;
  }

  lemma RunOfThree(w: World, a: Event, b: Event, c: Event)
    ensures Run(w, [a, b, c]) == Step(Step(Step(w, a), b), c)
  {
    hide Step;
    assert [a, b, c][..2] == [a, b] && [a, b][..1] == [a] && [a][..0] == [];
    assert Run(w, [a]) == Step(w, a);
    assert Run(w, [a, b]) == Step(Run(w, [a]), b);
  }

  // ----- whatever arrives, from anyone ----------------------------------------------------------

  /** A part as it comes in. */
  datatype Incoming = Incoming(from: Fingerprint, id: Id, n: int, of: int, data: Option<Bytes>)

  /** The table after the parts, in order, whoever sent them. */
  function TakeAll(parts: seq<Incoming>): Table {
    if parts == [] then map[]
    else
      var x := parts[|parts| - 1];
      Take(TakeAll(parts[..|parts| - 1]), x.from, x.id, x.n, x.of, x.data).table
  }

  predicate Bounded(t: Table) {
    forall key | key in t ::
      && 1 <= |t[key].parts| <= 30 && t[key].got == Held(t[key].parts) < |t[key].parts|
      && forall n | 0 <= n < |t[key].parts| && t[key].parts[n].Some? :: |t[key].parts[n].value| <= 138
  }

  lemma {:induction false} JoinedBound(parts: seq<Option<Bytes>>)
    requires forall n | 0 <= n < |parts| && parts[n].Some? :: |parts[n].value| <= 138
    ensures |Joined(parts)| <= 138 * |parts|
  {
    if parts != [] { JoinedBound(parts[..|parts| - 1]); }
  }

  lemma TakeKeepsBounded(t: Table, x: Incoming)
    requires Bounded(t)
    ensures var r := Take(t, x.from, x.id, x.n, x.of, x.data);
            Bounded(r.table) && (r.text.Some? ==> |r.text.value| <= 138 * 30)
  {
    hide Joined, Held, Key;
    if Acceptable(x.n, x.of, x.data) {
      var cp := Entry(t, Key(x.from, x.id), x.of);
      HeldNone(x.of);
      if |cp.parts| == x.of && cp.parts[x.n].None? {
        HeldUpdate(cp.parts, x.n, x.data);
        HeldBound(cp.parts[x.n := x.data]);
        JoinedBound(cp.parts[x.n := x.data]);
      }
    }
  }

  /**
   * Whatever parts arrive, from anyone: no collection has more than 30 parts of at most 138 bytes each, none is kept
   * once it is complete, and no text set is longer than those parts.
   */
  lemma {:induction false} TableStaysBounded(parts: seq<Incoming>, x: Incoming)
    ensures Bounded(TakeAll(parts))
    ensures var r := Take(TakeAll(parts), x.from, x.id, x.n, x.of, x.data); r.text.Some? ==> |r.text.value| <= 4140
  {
    hide Take, Bounded;
    if parts == [] {
      NothingIsBounded();
    } else {
      var last := parts[|parts| - 1];
      TableStaysBounded(parts[..|parts| - 1], last);
      TakeKeepsBounded(TakeAll(parts[..|parts| - 1]), last);
    }
    TakeKeepsBounded(TakeAll(parts), x);
  }

  lemma NothingIsBounded()
    ensures Bounded(map[])
  {
  }

  // ----- every part arrived --------------------------------------------------------------

  /** The k-th event delivers m. */
  ghost predicate Arrives(w: World, events: seq<Event>, k: nat, m: Msg) {
    k < |events| && events[k].Deliver? && events[k].m == m && m in Run(w, events[..k]).net
  }

  /** The collection of id is not dropped by e, and the system clipboard takes the text. */
  ghost predicate Undisturbed(x: Sent, id: Id, e: Event) {
    && e != Expire(x.to, Key(x.from, id))
    && (e.Deliver? && e.m.body.Clip? && e.m.body.id == id ==> e.sets)
  }

  ghost predicate SetSince(before: nat, w: World, x: Sent, id: Id) {
    exists j :: before <= j < |w.shown| && w.shown[j] == Shown(x.to, id, x.data)
  }

  ghost predicate Holds(w: World, x: Sent, id: Id, n: nat) {
    && Key(x.from, id) in TableOf(w, x.to)
    && var parts := TableOf(w, x.to)[Key(x.from, id)].parts;
    && n < |parts| && parts[n].Some?
  }

  lemma SentStays(w: World, e: Event, id: Id)
    requires id in w.sent
    ensures id in Step(w, e).sent && Step(w, e).sent[id] == w.sent[id]
    ensures w.shown <= Step(w, e).shown
  {
    hide Take;
  }

  /** A part held stays held until the text is set. */
  lemma HeldStays(w: World, e: Event, id: Id, n: nat)
    requires Inv(w) && id in w.sent && Undisturbed(w.sent[id], id, e)
    requires Holds(w, w.sent[id], id, n)
    ensures Holds(Step(w, e), w.sent[id], id, n) || SetSince(|w.shown|, Step(w, e), w.sent[id], id)
  {
    hide Take, Collecting, MsgOk, Part, PartCount;
    var x := w.sent[id];
    if e.Deliver? && e.m in w.net && e.m.body.Clip? {
      ClipTaken(w, e.m, e.sets, id);
    }
  }

  /** What the delivery of a part, of id or of another clip, does to the collection of id. */
  lemma ClipTaken(w: World, m: Msg, sets: bool, id: Id)
    requires Inv(w) && id in w.sent && m in w.net && m.body.Clip? && (m.body.id == id ==> sets)
    ensures var x, w1 := w.sent[id], DeliverStep(w, m, sets);
            || SetSince(|w.shown|, w1, x, id)
            || (&& (m.body.id == id ==> m.body.n >= 0 && Holds(w1, x, id, m.body.n))
                && (forall n: nat | Holds(w, x, id, n) :: Holds(w1, x, id, n)))
  {
    hide Take, DeliverStep, Key, Collecting, Part, PartCount;
    assert MsgOk(w, m);
    if m.body.id == id {
      SameClipTaken(w, id, m.body.n);
    } else {
      OtherClipTaken(w, m, sets, id);
    }
  }

  lemma SameClipTaken(w: World, id: Id, n: nat)
    requires Inv(w) && id in w.sent && n < PartCount(w.sent[id].data)
    ensures var x, w1 := w.sent[id], DeliverStep(w, PartMsg(w, id, n), true);
            || SetSince(|w.shown|, w1, x, id)
            || (&& Holds(w1, x, id, n)
                && (forall k: nat | Holds(w, x, id, k) :: Holds(w1, x, id, k)))
  {
    hide Take, Key, Part, PartCount;
    var x, w1 := w.sent[id], DeliverStep(w, PartMsg(w, id, n), true);
    var key := Key(x.from, id);
    TakePart(TableOf(w, x.to), x.from, id, x.data, n);
    if key in w1.tables[x.to] {
      assert Collecting(w1.tables[x.to][key], x.data);
    } else {
      assert w1.shown[|w.shown|] == Shown(x.to, id, x.data);
    }
  }

  lemma OtherClipTaken(w: World, m: Msg, sets: bool, id: Id)
    requires Inv(w) && id in w.sent && m in w.net && m.body.Clip? && m.body.id != id
    ensures var x, w1 := w.sent[id], DeliverStep(w, m, sets);
            forall n: nat | Holds(w, x, id, n) :: Holds(w1, x, id, n)
    ensures var x, w1 := w.sent[id], DeliverStep(w, m, sets);
            forall n: nat | Holds(w1, x, id, n) :: Holds(w, x, id, n)
  {
    hide Take, Key, Collecting, Part, PartCount;
    assert MsgOk(w, m);
    var x, y, w1 := w.sent[id], w.sent[m.body.id], DeliverStep(w, m, sets);
    var key, other := Key(x.from, id), Key(m.from, m.body.id);
    TakePart(TableOf(w, m.to), m.from, m.body.id, y.data, m.body.n);
    OtherKey(m.from, m.body.id, x.from, id);
    assert m.to == x.to && key in TableOf(w, x.to) ==> key in TableOf(w, x.to) - {other};
    assert m.to == x.to && key in TableOf(w1, x.to) ==> key in TableOf(w1, x.to) - {other};
  }

  lemma OtherKey(a: Fingerprint, x: Id, b: Fingerprint, y: Id)
    requires x != y
    ensures Key(a, x) != Key(b, y)
  {
    if Key(a, x) == Key(b, y) {
      KeyInjective(a, x, b, y);
    }
  }

  /** The text is set since, or every part delivered so far is held. */
  lemma {:induction false} HeldOrSet(w: World, events: seq<Event>, id: Id, k: nat, n: nat)
    requires Inv(w) && id in w.sent && n < PartCount(w.sent[id].data)
    requires forall e | e in events :: Undisturbed(w.sent[id], id, e)
    requires Arrives(w, events, k, PartMsg(w, id, n))
    ensures var w1 := Run(w, events);
            Inv(w1) && (SetSince(|w.shown|, w1, w.sent[id], id) || Holds(w1, w.sent[id], id, n))
  {
    hide Step, Inv, Undisturbed, Holds;
    var init := events[..|events| - 1];
    var v, e := Run(w, init), events[|events| - 1];
    RunFacts(w, init, id);
    StepKeepsInv(v, e);
    SentStays(v, e, id);
    if k < |init| {
      assert init[..k] == events[..k];
      HeldOrSet(w, init, id, k, n);
      if Holds(v, v.sent[id], id, n) {
        HeldStays(v, e, id, n);
      }
    } else {
      PartHeld(v, e, id, n);
    }
  }

  lemma PartHeld(w: World, e: Event, id: Id, n: nat)
    requires Inv(w) && id in w.sent && n < PartCount(w.sent[id].data) && Undisturbed(w.sent[id], id, e)
    requires e.Deliver? && e.m == PartMsg(w, id, n) && e.m in w.net
    ensures Holds(Step(w, e), w.sent[id], id, n) || SetSince(|w.shown|, Step(w, e), w.sent[id], id)
  {
    hide Take, Collecting, MsgOk, Part, PartCount;
    ClipTaken(w, e.m, e.sets, id);
  }

  lemma {:induction false} RunFacts(w: World, events: seq<Event>, id: Id)
    requires Inv(w) && id in w.sent
    ensures Inv(Run(w, events)) && id in Run(w, events).sent && Run(w, events).sent[id] == w.sent[id]
    ensures w.shown <= Run(w, events).shown
  {
    hide Step, Inv;
    if events != [] {
      var init := events[..|events| - 1];
      RunFacts(w, init, id);
      StepKeepsInv(Run(w, init), events[|events| - 1]);
      SentStays(Run(w, init), events[|events| - 1], id);
    }
  }

  /** Part n has been delivered. */
  ghost predicate PartCame(w: World, events: seq<Event>, id: Id, n: nat)
    requires id in w.sent && n < PartCount(w.sent[id].data)
  {
    exists k: nat :: Arrives(w, events, k, PartMsg(w, id, n))
  }

  /**
   * From any state a run can reach: once each part has been delivered, at least once and in any
   * order, among any other messages, without the collection expiring, the clipboard has been set to the data.
   */
  lemma AllPartsMeanSet(w: World, events: seq<Event>, id: Id)
    requires Inv(w) && id in w.sent
    requires forall e | e in events :: Undisturbed(w.sent[id], id, e)
    requires forall n: nat | n < PartCount(w.sent[id].data) :: PartCame(w, events, id, n)
    ensures SetSince(|w.shown|, Run(w, events), w.sent[id], id)
  {
    hide Step, Arrives, Undisturbed, Part, PartCount;
    var x, w1 := w.sent[id], Run(w, events);
    forall n: nat | n < PartCount(x.data)
      ensures Inv(w1) && (SetSince(|w.shown|, w1, x, id) || Holds(w1, x, id, n))
    {
      assert PartCame(w, events, id, n);
      var k: nat :| Arrives(w, events, k, PartMsg(w, id, n));
      HeldOrSet(w, events, id, k, n);
    }
    RunFacts(w, events, id);
    var n := Missing(w1, id);
  }

  /** Some part is always missing from a collection under way. */
  lemma Missing(w: World, id: Id) returns (n: nat)
    requires Inv(w) && id in w.sent
    ensures n < PartCount(w.sent[id].data) && !Holds(w, w.sent[id], id, n)
  {
    var x := w.sent[id];
    n := 0;
    if Key(x.from, id) in TableOf(w, x.to) {
      var parts := TableOf(w, x.to)[Key(x.from, id)].parts;
      HeldBound(parts);
      n :| 0 <= n < |parts| && parts[n].None?;
    }
  }

  // ----- no text appears more often than its parts did -------------------------------------

  function Times(shown: seq<Shown>, id: Id): nat {
    if shown == [] then 0 else Times(shown[..|shown| - 1], id) + (if shown[|shown| - 1].id == id then 1 else 0)
  }

  function Deliveries(events: seq<Event>, m: Msg): nat {
    if events == [] then 0
    else Deliveries(events[..|events| - 1], m) + (if events[|events| - 1].Deliver? && events[|events| - 1].m == m then 1 else 0)
  }

  /** Whether part n of the clip x is held, as a number. */
  function One(w: World, x: Sent, id: Id, n: nat): nat {
    var t := TableOf(w, x.to);
    var key := Key(x.from, id);
    if key in t && n < |t[key].parts| && t[key].parts[n].Some? then 1 else 0
  }

  /** One step adds to the count of sets and held parts only by a delivery of that part. */
  lemma StepCount(w: World, e: Event, id: Id, n: nat)
    requires Inv(w) && id in w.sent && n < PartCount(w.sent[id].data)
    ensures var x, w1 := w.sent[id], Step(w, e);
            Times(w1.shown, id) + One(w1, x, id, n)
            <= Times(w.shown, id) + One(w, x, id, n) + (if e.Deliver? && e.m == PartMsg(w, id, n) then 1 else 0)
  {
    hide Take, Key, Collecting, Part, PartCount, MsgOk, One, Inv, DeliverStep, Times;
    if e.Deliver? && e.m in w.net && e.m.body.Clip? {
      DeliverCount(w, e.m, e.sets, id, n);
    } else {
      OtherCount(w, e, id, n);
    }
  }

  lemma OtherCount(w: World, e: Event, id: Id, n: nat)
    requires id in w.sent && !(e.Deliver? && e.m in w.net && e.m.body.Clip?)
    ensures var x, w1 := w.sent[id], Step(w, e);
            w1.shown == w.shown && One(w1, x, id, n) <= One(w, x, id, n)
  {
    hide Take, Key, Part, PartCount;
  }

  lemma DeliverCount(w: World, m: Msg, sets: bool, id: Id, n: nat)
    requires Inv(w) && id in w.sent && n < PartCount(w.sent[id].data)
    requires m in w.net && m.body.Clip?
    ensures var x, w1 := w.sent[id], DeliverStep(w, m, sets);
            Times(w1.shown, id) + One(w1, x, id, n)
            <= Times(w.shown, id) + One(w, x, id, n) + (if m == PartMsg(w, id, n) then 1 else 0)
  {
    hide Take, Key, Part, PartCount;
    assert MsgOk(w, m);
    var x, w1 := w.sent[id], DeliverStep(w, m, sets);
    assert w1.shown == w.shown || w1.shown[..|w1.shown| - 1] == w.shown;
    if m.body.id != id {
      OtherClipTaken(w, m, sets, id);
      assert One(w1, x, id, n) == 1 ==> Holds(w1, x, id, n);
    } else {
      LastPart(w, id, m.body.n, n);
    }
  }

  /** The text is complete only when the parts held and the one arriving are all of them. */
  lemma LastPart(w: World, id: Id, n: nat, k: nat)
    requires Inv(w) && id in w.sent && n < PartCount(w.sent[id].data) && k < PartCount(w.sent[id].data)
    ensures var x := w.sent[id];
            var r := Take(TableOf(w, x.to), x.from, id, n, PartCount(x.data), Some(Part(x.data, n)));
            var w1 := w.(tables := w.tables[x.to := r.table]);
            && (r.text.Some? ==> One(w1, x, id, k) == 0 && One(w, x, id, k) + (if k == n then 1 else 0) >= 1)
            && (r.text.None? ==> One(w1, x, id, k) <= One(w, x, id, k) + (if k == n then 1 else 0))
  {
    hide Part, PartCount, Key, Acceptable, Joined;
    var x := w.sent[id];
    PartFits(x.data, n);
    var t, key := TableOf(w, x.to), Key(x.from, id);
    var cp := Entry(t, key, PartCount(x.data));
    FreshEntry(x.data);
    assert Collecting(cp, x.data);
    if cp.parts[n].None? && cp.got + 1 == |cp.parts| {
      var next := cp.parts[n := Some(Part(x.data, n))];
      HeldUpdate(cp.parts, n, Some(Part(x.data, n)));
      HeldBound(next);
      assert next[k].Some?;
      assert k == n || cp.parts[k].Some?;
    }
  }

  /**
   * Over a whole run a clip is set at most as often as each of its parts was delivered:
   * without repeated delivery it is set at most once.
   */
  lemma {:induction false} SetAtMostAsOften(events: seq<Event>, id: Id, n: nat)
    requires var w := Run(START, events); id in w.sent && n < PartCount(w.sent[id].data)
    ensures var w := Run(START, events);
            Times(w.shown, id) + One(w, w.sent[id], id, n) <= Deliveries(events, PartMsg(w, id, n))
  {
    hide Step, Inv, One, Part, PartCount;
    var init, e := events[..|events| - 1], events[|events| - 1];
    var v, w := Run(START, init), Run(START, events);
    InitInv();
    RunKeepsInv(START, init);
    if id in v.sent {
      SentStays(v, e, id);
      SetAtMostAsOften(init, id, n);
      StepCount(v, e, id, n);
    } else {
      NewIdUnused(v, e, id, n);
    }
  }

  lemma DeliverSends(w: World, e: Event)
    ensures e.Deliver? ==> Step(w, e).sent == w.sent
  {
    hide Take;
  }

  lemma NewIdUnused(v: World, e: Event, id: Id, n: nat)
    requires Inv(v) && id !in v.sent && id in Step(v, e).sent
    ensures var w := Step(v, e);
            Times(w.shown, id) == 0 && One(w, w.sent[id], id, n) == 0
  {
    hide DeliverStep, Collecting;
    assert e.StartClip? by { DeliverSends(v, e); }
    NotShown(v.shown, id);
    assert TableOf(Step(v, e), e.to) == TableOf(v, e.to);
    assert Key(e.from, id) !in TableOf(v, e.to);
  }

  lemma {:induction false} NotShown(shown: seq<Shown>, id: Id)
    requires forall x | x in shown :: x.id != id
    ensures Times(shown, id) == 0
  {
    if shown != [] {
      NotShown(shown[..|shown| - 1], id);
    }
  }

  /** A text of up to 4096 bytes goes out in at most 30 parts, each of 138 bytes but the last. */
  lemma PartsAre(data: Bytes, n: nat)
    requires n < PartCount(data)
    ensures |Part(data, n)| <= 138 && (n < PartCount(data) - 1 ==> |Part(data, n)| == 138)
    ensures |data| <= 4096 ==> PartCount(data) <= 30
    ensures n == PartCount(data) - 1 && data != [] ==> Part(data, n) != []
  {
  }

  // ----- what is forgotten, and what is not set ---------------------------------------------

  lemma {:induction false} CountFrom(w: World, events: seq<Event>, id: Id, n: nat)
    requires Inv(w) && id in w.sent && n < PartCount(w.sent[id].data)
    ensures var t := Run(w, events);
            Times(t.shown, id) + One(t, w.sent[id], id, n) <= Times(w.shown, id) + One(w, w.sent[id], id, n) + Deliveries(events, PartMsg(w, id, n))
  {
    hide Step, Inv, One, Part, PartCount, Times;
    if events != [] {
      var init, e := events[..|events| - 1], events[|events| - 1];
      CountFrom(w, init, id, n);
      RunFacts(w, init, id);
      StepCount(Run(w, init), e, id, n);
    }
  }

  /**
   * After the minute is over the collection is forgotten: the clip is set again only when every part of it has come
   * again since.
   */
  lemma ExpiredMustComeAgain(w: World, events: seq<Event>, id: Id, n: nat)
    requires Inv(w) && id in w.sent && n < PartCount(w.sent[id].data)
    ensures var x := w.sent[id];
            Times(Run(Step(w, Expire(x.to, Key(x.from, id))), events).shown, id)
            <= Times(w.shown, id) + Deliveries(events, PartMsg(w, id, n))
  {
    hide Run, Inv, Part, PartCount, Times, Key;
    var x := w.sent[id];
    var e := Expire(x.to, Key(x.from, id));
    StepKeepsInv(w, e);
    CountFrom(Step(w, e), events, id, n);
  }

  /** A text the system clipboard does not take is not set, so it is not acknowledged. */
  lemma RefusedIsNotSet(w: World, m: Msg)
    ensures Step(w, Deliver(m, false)).shown == w.shown
  {
    hide Take, TableOf;
  }

  // ----- when nothing is lost ------------------------------------------------------------------

  function SendAll(id: Id, n: nat): seq<Event> {
    seq(n, k requires 0 <= k < n => SendPart(id, k))
  }

  function DeliverParts(w: World, id: Id, n: nat): seq<Event>
    requires id in w.sent && n <= PartCount(w.sent[id].data)
  {
    seq(n, k requires 0 <= k < n => Deliver(PartMsg(w, id, k), true))
  }

  lemma {:induction false} PartsGo(w: World, id: Id, n: nat)
    requires id in w.sent && n <= PartCount(w.sent[id].data)
    ensures var t := Run(w, SendAll(id, n));
            && t == w.(net := t.net) && w.net <= t.net && forall k: nat | k < n :: PartMsg(w, id, k) in t.net
  {
    hide PartCount, Part;
    if n > 0 {
      PartsGo(w, id, n - 1);
      assert SendAll(id, n)[..n - 1] == SendAll(id, n - 1);
    }
  }

  lemma {:induction false} RunConcat(w: World, a: seq<Event>, b: seq<Event>)
    ensures Run(w, a + b) == Run(Run(w, a), b)
  {
    hide Step;
    if b == [] {
      assert a + b == a;
    } else {
      RunConcat(w, a, b[..|b| - 1]);
      assert (a + b)[..|a + b| - 1] == a + b[..|b| - 1];
    }
  }

  lemma {:induction false} NetStays(w: World, events: seq<Event>)
    ensures w.net <= Run(w, events).net
  {
    hide Step;
    if events != [] {
      NetStays(w, events[..|events| - 1]);
      StepKeepsNet(Run(w, events[..|events| - 1]), events[|events| - 1]);
    }
  }

  lemma StepKeepsNet(w: World, e: Event)
    ensures w.net <= Step(w, e).net
  {
    hide Take, TableOf, PartMsg;
  }

  lemma {:induction false} DeliveriesFinishNothing(w: World, events: seq<Event>)
    requires forall e | e in events :: e.Deliver?
    ensures Run(w, events).finished == w.finished
  {
    hide DeliverStep;
    if events != [] {
      var init, e := events[..|events| - 1], events[|events| - 1];
      assert e in events;
      assert forall x | x in init :: x in events;
      DeliveriesFinishNothing(w, init);
      DeliverFinishesNothing(Run(w, init), e.m, e.sets);
    }
  }

  lemma DeliverFinishesNothing(w: World, m: Msg, sets: bool)
    ensures DeliverStep(w, m, sets).finished == w.finished
  {
    hide Take, TableOf;
  }

  /** Once its parts are on the way and each is delivered, the clip is set. */
  lemma DeliveredIsSet(w: World, id: Id)
    requires Inv(w) && id in w.sent && forall k: nat | k < PartCount(w.sent[id].data) :: PartMsg(w, id, k) in w.net
    ensures var t := Run(w, DeliverParts(w, id, PartCount(w.sent[id].data)));
            Inv(t) && t.sent == w.sent && t.finished == w.finished && Shown(w.sent[id].to, id, w.sent[id].data) in t.shown
  {
    hide Inv, Part, PartCount, Step, Run, Key, Arrives, PartMsg;
    var x := w.sent[id];
    var n := PartCount(x.data);
    var events := DeliverParts(w, id, n);
    forall m: nat | m < PartCount(w.sent[id].data) ensures PartCame(w, events, id, m) {
      PartArrives(w, id, m);
    }
    forall e | e in events ensures e.Deliver? && Undisturbed(x, id, e) {}
    AllPartsMeanSet(w, events, id);
    RunKeepsInv(w, events);
    DeliveriesFinishNothing(w, events);
    DeliveriesSendNothing(w, events);
  }

  lemma PartArrives(w: World, id: Id, k: nat)
    requires id in w.sent && k < PartCount(w.sent[id].data) && PartMsg(w, id, k) in w.net
    ensures Arrives(w, DeliverParts(w, id, PartCount(w.sent[id].data)), k, PartMsg(w, id, k))
  {
    hide Part, PartCount, Step, Run;
    NetStays(w, DeliverParts(w, id, PartCount(w.sent[id].data))[..k]);
  }

  lemma {:induction false} DeliveriesSendNothing(w: World, events: seq<Event>)
    requires forall e | e in events :: e.Deliver?
    ensures Run(w, events).sent == w.sent
  {
    hide Step;
    if events != [] {
      var init, e := events[..|events| - 1], events[|events| - 1];
      assert e in events;
      assert forall x | x in init :: x in events;
      DeliveriesSendNothing(w, init);
      DeliverSends(Run(w, init), e);
    }
  }

  /**
   * When nothing is lost, any text of up to 4096 bytes goes through: it is set on the device it is for, and its sender
   * reports it as sent.
   */
  lemma ClipGoesThrough(id: Id, from: Fingerprint, to: Fingerprint, data: Bytes) returns (events: seq<Event>)
    requires |data| <= 4096
    ensures var w := Run(START, events); Shown(to, id, data) in w.shown && id in w.succeeded
  {
    hide Inv, Part, PartCount, Step, Run, TableOf, DeliverParts;
    var w1 := Step(START, StartClip(id, from, to, data));
    Starts(id, from, to, data);
    var n := PartCount(data);
    PartsGo(w1, id, n);
    var w2 := Run(w1, SendAll(id, n));
    RunKeepsInv(w1, SendAll(id, n));
    assert forall k: nat | k < n :: PartMsg(w2, id, k) == PartMsg(w1, id, k);
    DeliveredIsSet(w2, id);
    var deliveries := DeliverParts(w2, id, n);
    var w3 := Run(w2, deliveries);
    AcknowledgedIsReported(w3, id);
    var last := [Acknowledge(Shown(to, id, data)), Deliver(Msg(to, from, ClipAck(id)), true), Finish(id, true)];
    var w4 := Run(w3, last);
    RunFacts(w3, last, id);
    events := [StartClip(id, from, to, data)] + (SendAll(id, n) + (deliveries + last));
    RunConcat(START, [StartClip(id, from, to, data)], SendAll(id, n) + (deliveries + last));
    RunConcat(w1, SendAll(id, n), deliveries + last);
    RunConcat(w2, deliveries, last);
    RunOfOne(START, StartClip(id, from, to, data));
  }

  lemma RunOfOne(w: World, e: Event)
    ensures Run(w, [e]) == Step(w, e)
  {
    hide Step;
    assert [e][..0] == [];
  }

  lemma Starts(id: Id, from: Fingerprint, to: Fingerprint, data: Bytes)
    requires |data| <= 4096
    ensures var w := Step(START, StartClip(id, from, to, data));
            Inv(w) && id in w.sent && w.sent[id] == Sent(from, to, data) && w.finished == {}
  {
    hide Inv;
    InitInv();
    StepKeepsInv(START, StartClip(id, from, to, data));
  }
}
