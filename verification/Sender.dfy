/** The sending side in its own form: the loop over the manifest, and the loop over one file. */
module Sender {
  import opened Basics
  import opened Receiver
  import opened ReceiverSafety
  import opened Attempts
  import opened Transfer
  import opened Overwrites
  import opened FileTree
  import opened Removals
  import opened Arrival

  /** The chunk f.Read gave, of a size the file system chose, with the progress frame after it. */
  function ChunkItems(x: Bytes, pos: nat, n: nat): seq<Item>
    requires pos + n <= |x|
  {
    [Hdr(Chunk(n)), Payload(x[pos..pos + n]), Hdr(Progress)]
  }

  /** Items that lead from position start of x to position pos. */
  ghost predicate Leads(items: seq<Item>, i: nat, x: Bytes, start: nat, pos: nat) {
    forall r | FileTail(r, i, x, pos) :: FileTail(items + r, i, x, start)
  }

  lemma LeadsNowhere(i: nat, x: Bytes, pos: nat)
    ensures Leads([], i, x, pos, pos)
  {
    hide FileTail;
    forall r | FileTail(r, i, x, pos) ensures FileTail([] + r, i, x, pos) {
      assert [] + r == r;
    }
  }

  lemma ChunkLeadsOn(items: seq<Item>, i: nat, x: Bytes, start: nat, pos: nat, n: nat)
    requires pos + n <= |x| && 0 < n <= CHUNK_SIZE && Leads(items, i, x, start, pos)
    ensures Leads(items + ChunkItems(x, pos, n), i, x, start, pos + n)
  {
    forall rest | FileTail(rest, i, x, pos + n) ensures FileTail(items + ChunkItems(x, pos, n) + rest, i, x, start) {
      var c := ChunkItems(x, pos, n) + rest;
      assert c[2..] == [Hdr(Progress)] + rest && ([Hdr(Progress)] + rest)[1..] == rest;
      assert FileTail(c[2..], i, x, pos + n);
      assert FileTail(c, i, x, pos);
      assert items + ChunkItems(x, pos, n) + rest == items + c;
    }
  }

  /** Some point at which the sender can be stopped, from a to b, stops it. */
  predicate StopsIn(stops: nat -> bool, a: nat, b: nat) {
    exists k :: a <= k < b && stops(k)
  }

  /**
   * sendOneFile. sizes says how many bytes each read gives; reads give at least one byte, at most a buffer, until
   * the end of the file. stops says which of the points where the context is cancelled, a file cannot be read or
   * a write fails is reached that way, counted from first. What is written is a script for the entry
   * from the offset offered, or the beginning of one.
   */
  method SendOneFile(c: Plan, i: nat, offered: int, sizes: nat -> nat, stops: nat -> bool, first: nat)
    returns (done: bool, items: seq<Item>, next: nat, ghost full: seq<Item>)
    requires i < |c.manifest| == |c.sources| && (!c.manifest[i].isDir ==> c.manifest[i].size == |c.sources[i]|)
    ensures full != [] && full[0] == Hdr(FileHeader(i)) && EntryScript(c, i, offered, full[1..])
    ensures items <= full && (done ==> items == full)
    ensures first <= next && done == !StopsIn(stops, first, next)
  {
    hide FileTail, Leads;
    next := first;
    items := [];
    if c.manifest[i].isDir {
      full := [Hdr(FileHeader(i)), Hdr(FileEnd(i, 0))];
      next := next + 1;
      if stops(first) { return false, items, next, full; }
      items := [Hdr(FileHeader(i))];
      next := next + 1;
      if stops(first + 1) { return false, items, next, full; }
      items := items + [Hdr(FileEnd(i, 0))];
      return true, items, next, full;
    }
    var x := c.sources[i];
    var pos := 0;
    if 0 < offered < c.manifest[i].size {
      pos := offered;
    }
    var start := pos;
    LeadsNowhere(i, x, pos);
    full := Completed(c, i, offered, [], start, start);
    next := next + 1;
    if stops(first) { return false, items, next, full; }
    items := [Hdr(FileHeader(i))];
    var body: seq<Item> := [];
    while pos < |x|
      invariant start <= pos <= |x| && Leads(body, i, x, start, pos) && items == [Hdr(FileHeader(i))] + body
      invariant first < next && !StopsIn(stops, first, next)
    {
      full := Completed(c, i, offered, body, start, pos);
      next := next + 1;
      if stops(next - 1) { return false, items, next, full; }
      var n := Min(Min(if sizes(pos) == 0 then 1 else sizes(pos), CHUNK_SIZE), |x| - pos);
      ChunkLeadsOn(body, i, x, start, pos, n);
      body := body + ChunkItems(x, pos, n);
      items := items + ChunkItems(x, pos, n);
      pos := pos + n;
    }
    full := Completed(c, i, offered, body, start, pos);
    next := next + 1;
    if stops(next - 1) { return false, items, next, full; }
    items := items + [Hdr(FileEnd(i, 0))];
    done := true;
  }

  /** What was written so far can be continued to a script. */
  lemma Completed(c: Plan, i: nat, offered: int, body: seq<Item>, start: nat, pos: nat) returns (full: seq<Item>)
    requires i < |c.manifest| == |c.sources| && !c.manifest[i].isDir && c.manifest[i].size == |c.sources[i]|
    requires start == SeekOffset(offered, c.manifest[i].size) && start <= pos <= |c.sources[i]|
    requires Leads(body, i, c.sources[i], start, pos)
    ensures [Hdr(FileHeader(i))] + body <= full && full[0] == Hdr(FileHeader(i)) && EntryScript(c, i, offered, full[1..])
    ensures pos == |c.sources[i]| ==> full == [Hdr(FileHeader(i))] + body + [Hdr(FileEnd(i, 0))]
  {
    hide FileTail;
    var rest := Script(i, c.sources[i], pos);
    ScriptIsTail(i, c.sources[i], pos);
    full := [Hdr(FileHeader(i))] + body + rest;
    assert full[1..] == body + rest;
  }

  /** The sender's own steps, one after another, with what it streams at each. */
  function Sends(c: Plan, j: Joint, scripts: seq<seq<Item>>): Joint
    requires |c.manifest| == |c.sources|
  {
    if scripts == [] then j
    else SendStep(c, Sends(c, j, scripts[..|scripts| - 1]), scripts[|scripts| - 1])
  }

  lemma SendsNext(c: Plan, j: Joint, scripts: seq<seq<Item>>, items: seq<Item>)
    requires |c.manifest| == |c.sources|
    ensures Sends(c, j, scripts + [items]) == SendStep(c, Sends(c, j, scripts), items)
  {
    assert (scripts + [items])[..|scripts|] == scripts;
  }

  /** The sender can only wait: it needs an answer that does not come. */
  predicate Stuck(j: Joint) {
    j.toS == [] && (j.pc.AwaitOffer? || j.pc.AwaitAck? || j.pc.AwaitFinal?)
  }

  predicate Accepted(r: Reply) {
    r.Ack? && r.ok
  }

  /** The answers a transfer of n entries needs: an offer and an acceptance for each, and one at the end. */
  predicate Agreed(answers: seq<Reply>, n: nat) {
    && |answers| > 2 * n && Accepted(answers[2 * n])
    && forall k: nat | k < n :: answers[2 * k].Offer? && Accepted(answers[2 * k + 1])
  }

  /** How far an entry got. */
  datatype Turn = Onward | TurnedDown | Stopped

  /** One turn of the loop of SendFiles: the query, the entry, and the answers to both. */
  method SendEntry(c: Plan, i: nat, answers: seq<Reply>, sizes: nat -> nat, stops: nat -> bool, first: nat, written: seq<Item>,
                   ghost start: Joint, ghost scripts: seq<seq<Item>>)
    returns (r: Turn, out: seq<Item>, at: nat, ghost scripts': seq<seq<Item>>)
    requires i < |c.manifest| == |c.sources| && (!c.manifest[i].isDir ==> c.manifest[i].size == |c.sources[i]|)
    requires 2 * i <= |answers| && Sends(c, start, scripts) == Joint(start.recv, AtQuery(i), written, answers[2 * i..])
    ensures var j := Sends(c, start, scripts');
            && j.recv == start.recv && out <= j.toR
            && match r
               case Onward =>
                 && 2 * i + 2 <= |answers| && answers[2 * i].Offer? && Accepted(answers[2 * i + 1])
                 && j == Joint(start.recv, AtQuery(i + 1), out, answers[2 * (i + 1)..])
               case TurnedDown => out == j.toR && (j.pc == Failed || Stuck(j)) && !Agreed(answers, |c.manifest|)
               case Stopped => !j.pc.Done? && exists k :: stops(k)
  {
    hide Sends, SendStep, EntryScript, Agreed;
    var k, n := 2 * i, |c.manifest|;
    out, at, scripts' := written, first, scripts;
    // the context, then the write of the query
    if stops(at) || stops(at + 1) { return Stopped, out, at, scripts'; }
    at := at + 2;
    Asks(c, start, scripts');
    scripts', out := scripts' + [[]], out + [Hdr(ResumeQuery(i))];
    if k == |answers| {
      NotAgreed(answers, n, k);
      return TurnedDown, out, at, scripts';
    }
    var offer := answers[k];
    assert answers[k..][0] == offer && answers[k..][1..] == answers[k + 1..];
    if !offer.Offer? {
      TakesNoOffer(c, start, scripts');
      scripts' := scripts' + [[]];
      NotAgreed(answers, n, k);
      return TurnedDown, out, at, scripts';
    }
    var done, items;
    ghost var full;
    done, items, at, full := SendOneFile(c, i, offer.bytes, sizes, stops, at);
    StreamsEntry(c, start, scripts', full[1..]);
    assert out + full == out + [Hdr(FileHeader(i))] + full[1..];
    scripts', out := scripts' + [full[1..]], out + items;
    if !done { return Stopped, out, at, scripts'; }
    if k + 1 == |answers| {
      NotAgreed(answers, n, k + 1);
      return TurnedDown, out, at, scripts';
    }
    var ack := answers[k + 1];
    assert answers[k + 1..][0] == ack && answers[k + 1..][1..] == answers[k + 2..];
    TakesAck(c, start, scripts');
    scripts' := scripts' + [[]];
    if !(ack.Ack? && ack.ok) {
      NotAgreed(answers, n, k + 1);
      return TurnedDown, out, at, scripts';
    }
    r := Onward;
  }

  /**
   * SendFiles after the connection is made, given the answers that arrive before it is lost. It takes the sender's
   * steps until all is acknowledged, an answer is a refusal, there are no more answers, or it is stopped. Unless it
   * was stopped it succeeds exactly when the answers are those a transfer needs.
   */
  method SendFiles(c: Plan, answers: seq<Reply>, sizes: nat -> nat, stops: nat -> bool, ghost peer: State)
    returns (ok: bool, stopped: bool, out: seq<Item>, ghost scripts: seq<seq<Item>>)
    requires |c.manifest| == |c.sources|
    requires forall k | 0 <= k < |c.manifest| && !c.manifest[k].isDir :: c.manifest[k].size == |c.sources[k]|
    ensures if stopped then !ok && exists k :: stops(k) else ok == Agreed(answers, |c.manifest|)
    ensures var j := Sends(c, Joint(peer, AtQuery(0), [], answers), scripts);
            && j.recv == peer && out <= j.toR
            && if stopped then !j.pc.Done?
               else out == j.toR && if ok then j.pc == Done else j.pc == Failed || Stuck(j)
  {
    hide Sends, SendStep, EntryScript, Agreed;
    out, scripts := [], [];
    ghost var start := Joint(peer, AtQuery(0), [], answers);
    SendsNone(c, start);
    var i, at, n := 0, 0, |c.manifest|;
    assert answers[0..] == answers;
    while i < n
      invariant i <= n && 2 * i <= |answers|
      invariant forall m: nat | m < i :: answers[2 * m].Offer? && Accepted(answers[2 * m + 1])
      invariant Sends(c, start, scripts) == Joint(peer, AtQuery(i), out, answers[2 * i..])
    {
      var r;
      r, out, at, scripts := SendEntry(c, i, answers, sizes, stops, at, out, start, scripts);
      if !r.Onward? { return false, r.Stopped?, out, scripts; }
      i := i + 1;
    }
    if stops(at) { return false, true, out, scripts; }
    Asks(c, start, scripts);
    scripts, out := scripts + [[]], out + [Hdr(SessionEnd)];
    if 2 * n == |answers| {
      NotAgreed(answers, n, 2 * n);
      return false, false, out, scripts;
    }
    var ack := answers[2 * n];
    assert answers[2 * n..][0] == ack;
    TakesAck(c, start, scripts);
    scripts := scripts + [[]];
    AgreedWhen(answers, n);
    ok, stopped := ack.Ack? && ack.ok, false;
  }

  // ----- the sender's steps one by one ------------------------------------------------------

  lemma Asks(c: Plan, start: Joint, scripts: seq<seq<Item>>)
    requires |c.manifest| == |c.sources| && Sends(c, start, scripts).pc.AtQuery?
    ensures var j := Sends(c, start, scripts);
            var i := j.pc.index;
            Sends(c, start, scripts + [[]])
            == if i < |c.manifest| then j.(pc := AwaitOffer(i), toR := j.toR + [Hdr(ResumeQuery(i))])
               else j.(pc := AwaitFinal, toR := j.toR + [Hdr(SessionEnd)])
  {
    hide Sends;
    SendsNext(c, start, scripts, []);
  }

  lemma TakesNoOffer(c: Plan, start: Joint, scripts: seq<seq<Item>>)
    requires |c.manifest| == |c.sources|
    requires var j := Sends(c, start, scripts); j.pc.AwaitOffer? && j.pc.index < |c.manifest| && j.toS != [] && !j.toS[0].Offer?
    ensures var j := Sends(c, start, scripts);
            Sends(c, start, scripts + [[]]) == j.(pc := Failed, toS := j.toS[1..])
  {
    hide Sends;
    SendsNext(c, start, scripts, []);
  }

  lemma StreamsEntry(c: Plan, start: Joint, scripts: seq<seq<Item>>, items: seq<Item>)
    requires |c.manifest| == |c.sources|
    requires var j := Sends(c, start, scripts);
             && j.pc.AwaitOffer? && j.pc.index < |c.manifest| && j.toS != [] && j.toS[0].Offer?
             && EntryScript(c, j.pc.index, j.toS[0].bytes, items)
    ensures var j := Sends(c, start, scripts);
            Sends(c, start, scripts + [items])
            == j.(pc := AwaitAck(j.pc.index), toR := j.toR + [Hdr(FileHeader(j.pc.index))] + items, toS := j.toS[1..])
  {
    hide Sends, EntryScript;
    SendsNext(c, start, scripts, items);
  }

  lemma TakesAck(c: Plan, start: Joint, scripts: seq<seq<Item>>)
    requires |c.manifest| == |c.sources|
    requires var j := Sends(c, start, scripts); (j.pc.AwaitAck? || j.pc.AwaitFinal?) && j.toS != []
    ensures var j := Sends(c, start, scripts);
            var next := if !Accepted(j.toS[0]) then Failed else if j.pc.AwaitFinal? then Done else AtQuery(j.pc.index + 1);
            Sends(c, start, scripts + [[]]) == j.(pc := next, toS := j.toS[1..])
  {
    hide Sends;
    SendsNext(c, start, scripts, []);
  }

  /** One answer missing or wrong is enough. */
  lemma NotAgreed(answers: seq<Reply>, n: nat, k: nat)
    requires k <= 2 * n
    requires k < |answers| ==> if k % 2 == 0 && k < 2 * n then !answers[k].Offer? else !Accepted(answers[k])
    ensures !Agreed(answers, n)
  {
    if k < |answers| && k < 2 * n {
      assert k == 2 * (k / 2) + k % 2;
      assert answers[2 * (k / 2)] == answers[k] || answers[2 * (k / 2) + 1] == answers[k];
    }
  }

  lemma AgreedWhen(answers: seq<Reply>, n: nat)
    requires |answers| > 2 * n && forall m: nat | m < n :: answers[2 * m].Offer? && Accepted(answers[2 * m + 1])
    ensures Agreed(answers, n) == Accepted(answers[2 * n])
  {
  }

  lemma SendsNone(c: Plan, j: Joint)
    requires |c.manifest| == |c.sources|
    ensures Sends(c, j, []) == j
  {
  }

  // ----- the sender of a joint run -----------------------------------------------------------

  /** The answers that have reached the sender's connection in a joint run. */
  function Heard(h: Hash, c: Plan, j: Joint, events: seq<JointEvent>): seq<Reply>
    requires |c.manifest| == |c.sources|
  {
    if events == [] then j.toS
    else
      var before, e := events[..|events| - 1], events[|events| - 1];
      Heard(h, c, j, before) + Answers(h, c, JointRun(h, c, j, before), e)
  }

  /** What one joint step adds to them. */
  function Answers(h: Hash, c: Plan, j: Joint, e: JointEvent): seq<Reply>
    requires |c.manifest| == |c.sources|
  {
    if e.Send? then [] else
      var after := JointStep(h, c, j, e).toS;
      if |j.toS| <= |after| then after[|j.toS|..] else []
  }

  lemma AnswersAdd(h: Hash, c: Plan, j: Joint, e: JointEvent)
    requires |c.manifest| == |c.sources| && !e.Send?
    ensures JointStep(h, c, j, e).toS == j.toS + Answers(h, c, j, e)
    ensures !e.Fail? ==> JointStep(h, c, j, e).pc == j.pc
  {
    hide Step;
    var after := JointStep(h, c, j, e).toS;
    assert j.toS <= after by { AnswersStay(h, c, j, e); }
  }

  lemma AnswersStay(h: Hash, c: Plan, j: Joint, e: JointEvent)
    requires |c.manifest| == |c.sources| && !e.Send?
    ensures j.toS <= JointStep(h, c, j, e).toS
  {
    hide Step;
  }

  /** No step of the list waits for an answer that is not there. */
  predicate NeverStuck(c: Plan, start: Joint, scripts: seq<seq<Item>>)
    requires |c.manifest| == |c.sources|
  {
    forall k | 0 <= k < |scripts| :: !Stuck(Sends(c, start, scripts[..k]))
  }

  /** Answers that come later do not change what the sender did without them. */
  lemma {:induction false} LaterAnswers(c: Plan, start: Joint, scripts: seq<seq<Item>>, more: seq<Reply>)
    requires |c.manifest| == |c.sources| && NeverStuck(c, start, scripts)
    ensures var j := Sends(c, start, scripts);
            Sends(c, start.(toS := start.toS + more), scripts) == j.(toS := j.toS + more)
    ensures NeverStuck(c, start.(toS := start.toS + more), scripts)
  {
    hide SendStep, Stuck;
    if scripts != [] {
      var before, items := scripts[..|scripts| - 1], scripts[|scripts| - 1];
      forall k | 0 <= k < |before| ensures !Stuck(Sends(c, start, before[..k])) {
        assert before[..k] == scripts[..k];
      }
      LaterAnswers(c, start, before, more);
      LaterAnswer(c, Sends(c, start, before), items, more);
      var more' := start.(toS := start.toS + more);
      forall k | 0 <= k < |scripts| ensures !Stuck(Sends(c, more', scripts[..k])) {
        if k < |before| {
          assert before[..k] == scripts[..k];
        } else {
          assert scripts[..k] == before;
          NotStuckLater(Sends(c, start, before), more);
        }
      }
    }
  }

  lemma LaterAnswer(c: Plan, j: Joint, items: seq<Item>, more: seq<Reply>)
    requires |c.manifest| == |c.sources| && !Stuck(j)
    ensures var j' := SendStep(c, j, items);
            SendStep(c, j.(toS := j.toS + more), items) == j'.(toS := j'.toS + more)
  {
    hide EntryScript;
    if j.toS != [] {
      assert (j.toS + more)[0] == j.toS[0] && (j.toS + more)[1..] == j.toS[1..] + more;
    }
  }

  lemma NotStuckLater(j: Joint, more: seq<Reply>)
    requires !Stuck(j)
    ensures !Stuck(j.(toS := j.toS + more))
  {
  }

  /** The steps the sender took in a joint run. */
  function Steps(h: Hash, c: Plan, j: Joint, events: seq<JointEvent>): seq<seq<Item>>
    requires |c.manifest| == |c.sources|
  {
    if events == [] then []
    else
      var before, e := events[..|events| - 1], events[|events| - 1];
      if e.Send? && !Stuck(JointRun(h, c, j, before)) then Steps(h, c, j, before) + [e.items] else Steps(h, c, j, before)
  }

  /**
   * The sender's part of a joint run in which it is not stopped is a run of its own steps on the answers that
   * reached it, and these steps are those of SendFiles.
   */
  lemma {:induction false} SenderView(h: Hash, c: Plan, j: Joint, events: seq<JointEvent>)
    requires |c.manifest| == |c.sources| && forall e | e in events :: !e.Fail?
    ensures var start := j.(toS := Heard(h, c, j, events));
            var mine, end := Sends(c, start, Steps(h, c, j, events)), JointRun(h, c, j, events);
            NeverStuck(c, start, Steps(h, c, j, events)) && mine.pc == end.pc && mine.toS == end.toS
  {
    hide JointStep, SendStep, Stuck, Answers;
    if events == [] {
      JointRunNone(h, c, j);
      SendsNone(c, j);
    } else {
      var before, e := events[..|events| - 1], events[|events| - 1];
      assert e in events;
      assert forall x | x in before :: x in events;
      SenderView(h, c, j, before);
      SenderViewStep(h, c, j, before, e);
    }
  }

  lemma SenderViewStep(h: Hash, c: Plan, j: Joint, before: seq<JointEvent>, e: JointEvent)
    requires |c.manifest| == |c.sources| && !e.Fail?
    requires var start := j.(toS := Heard(h, c, j, before));
             var mine, end := Sends(c, start, Steps(h, c, j, before)), JointRun(h, c, j, before);
             NeverStuck(c, start, Steps(h, c, j, before)) && mine.pc == end.pc && mine.toS == end.toS
    ensures var events := before + [e];
            var start := j.(toS := Heard(h, c, j, events));
            var mine, end := Sends(c, start, Steps(h, c, j, events)), JointRun(h, c, j, events);
            NeverStuck(c, start, Steps(h, c, j, events)) && mine.pc == end.pc && mine.toS == end.toS
  {
    hide JointStep, SendStep, Sends, Answers, NeverStuck;
    var events := before + [e];
    assert events[..|before|] == before;
    var start, scripts, end := j.(toS := Heard(h, c, j, before)), Steps(h, c, j, before), JointRun(h, c, j, before);
    if e.Send? {
      NoAnswers(h, c, end, e);
      assert Heard(h, c, j, before) + [] == Heard(h, c, j, before);
      if !Stuck(end) {
        SendsNext(c, start, scripts, e.items);
        OneMore(c, start, scripts, e.items);
        SameSenderStep(c, Sends(c, start, scripts), end, e.items);
      } else {
        StuckStays(c, end, e.items);
      }
      SendIsSendStep(h, c, end, e);
    } else {
      AnswersAdd(h, c, end, e);
      LaterAnswers(c, start, scripts, Answers(h, c, end, e));
    }
  }

  lemma NoAnswers(h: Hash, c: Plan, j: Joint, e: JointEvent)
    requires |c.manifest| == |c.sources| && e.Send?
    ensures Answers(h, c, j, e) == []
  {
  }

  lemma SendIsSendStep(h: Hash, c: Plan, j: Joint, e: JointEvent)
    requires |c.manifest| == |c.sources| && e.Send?
    ensures JointStep(h, c, j, e) == SendStep(c, j, e.items)
  {
  }

  lemma OneMore(c: Plan, start: Joint, scripts: seq<seq<Item>>, items: seq<Item>)
    requires |c.manifest| == |c.sources| && NeverStuck(c, start, scripts) && !Stuck(Sends(c, start, scripts))
    ensures NeverStuck(c, start, scripts + [items])
  {
    hide Sends;
    forall k | 0 <= k < |scripts| + 1 ensures !Stuck(Sends(c, start, (scripts + [items])[..k])) {
      if k < |scripts| {
        assert (scripts + [items])[..k] == scripts[..k];
      } else {
        assert (scripts + [items])[..k] == scripts;
      }
    }
  }

  /** What the sender does next depends on where it is and on the answers it has. */
  lemma SameSenderStep(c: Plan, a: Joint, b: Joint, items: seq<Item>)
    requires |c.manifest| == |c.sources| && a.pc == b.pc && a.toS == b.toS
    ensures SendStep(c, a, items).pc == SendStep(c, b, items).pc && SendStep(c, a, items).toS == SendStep(c, b, items).toS
  {
    hide EntryScript;
  }

  lemma StuckStays(c: Plan, j: Joint, items: seq<Item>)
    requires |c.manifest| == |c.sources| && Stuck(j)
    ensures SendStep(c, j, items) == j
  {
    hide EntryScript;
  }

  /** Where the sender is tells how many answers it has used, and that they were the right ones. */
  ghost predicate Used(c: Plan, answers: seq<Reply>, j: Joint) {
    var n := |c.manifest|;
    match j.pc
    case AtQuery(i) => i <= n && 2 * i <= |answers| && j.toS == answers[2 * i..] && GoodSoFar(answers, i)
    case AwaitOffer(i) => i < n && 2 * i <= |answers| && j.toS == answers[2 * i..] && GoodSoFar(answers, i)
    case AwaitAck(i) =>
      i < n && 2 * i + 1 <= |answers| && j.toS == answers[2 * i + 1..] && GoodSoFar(answers, i) && answers[2 * i].Offer?
    case AwaitFinal => 2 * n <= |answers| && j.toS == answers[2 * n..] && GoodSoFar(answers, n)
    case Done => true
    case Failed => !Agreed(answers, n)
  }

  predicate GoodSoFar(answers: seq<Reply>, i: nat)
    requires 2 * i <= |answers|
  {
    forall m: nat | m < i :: answers[2 * m].Offer? && Accepted(answers[2 * m + 1])
  }

  lemma StepUses(c: Plan, answers: seq<Reply>, j: Joint, items: seq<Item>)
    requires |c.manifest| == |c.sources| && Used(c, answers, j)
    ensures Used(c, answers, SendStep(c, j, items))
  {
    hide EntryScript, Agreed, GoodSoFar;
    match j.pc
    case AwaitOffer(i) => if j.toS != [] { OfferUses(c, answers, i); }
    case AwaitAck(i) => if j.toS != [] { AckUses(c, answers, i); }
    case AwaitFinal => if j.toS != [] && !Accepted(j.toS[0]) { NotAgreed(answers, |c.manifest|, 2 * |c.manifest|); }
    case _ =>
  }

  lemma OfferUses(c: Plan, answers: seq<Reply>, i: nat)
    requires i < |c.manifest| && 2 * i < |answers|
    ensures answers[2 * i..][0] == answers[2 * i] && answers[2 * i..][1..] == answers[2 * i + 1..]
    ensures !answers[2 * i].Offer? ==> !Agreed(answers, |c.manifest|)
  {
    hide Agreed;
    if !answers[2 * i].Offer? { NotAgreed(answers, |c.manifest|, 2 * i); }
  }

  lemma AckUses(c: Plan, answers: seq<Reply>, i: nat)
    requires i < |c.manifest| && 2 * i + 1 < |answers| && GoodSoFar(answers, i) && answers[2 * i].Offer?
    ensures var k := 2 * i + 1;
            && answers[k..][0] == answers[k] && answers[k..][1..] == answers[2 * (i + 1)..]
            && (if Accepted(answers[k]) then GoodSoFar(answers, i + 1) else !Agreed(answers, |c.manifest|))
  {
    hide Agreed;
    if !Accepted(answers[2 * i + 1]) { NotAgreed(answers, |c.manifest|, 2 * i + 1); }
  }

  lemma {:induction false} SendsUse(c: Plan, start: Joint, scripts: seq<seq<Item>>)
    requires |c.manifest| == |c.sources| && start.pc == AtQuery(0)
    ensures Used(c, start.toS, Sends(c, start, scripts))
  {
    hide SendStep, Agreed;
    if scripts == [] {
      assert start.toS[0..] == start.toS;
    } else {
      SendsUse(c, start, scripts[..|scripts| - 1]);
      StepUses(c, start.toS, Sends(c, start, scripts[..|scripts| - 1]), scripts[|scripts| - 1]);
    }
  }

  /**
   * SendFiles and the receiver together. Take any joint run in which the sender is not stopped and goes as far as it
   * can. SendFiles, given the answers that reached it, returns without an error exactly when they are Agreed; and
   * then the manifest has arrived: every file at a place of its own, with exactly the bytes of its source, and every
   * directory but those that are bare, removable, and have nothing firm below them.
   */
  lemma SendFilesMeansArrived(h: Hash, c: Plan, s: State, events: seq<JointEvent>)
    requires CollisionFree(h) && Inv(h, s) && WellNamed(s) && Tree(s.files, s.dirs)
    requires WellPlanned(h, c) && c.manifest != [] && c.sid !in s.sessions
    requires |c.manifest| == |c.sources| && AllAllowed(events) && forall e | e in events :: !e.Fail?
    requires var j := JointRun(h, c, Begin(h, c, s), events);
             j.pc.Done? || j.pc.Failed? || Stuck(j)
    ensures var j := JointRun(h, c, Begin(h, c, s), events);
            Agreed(Heard(h, c, Begin(h, c, s), events), |c.manifest|) ==> Complete(c, j.recv)
  {
    hide Inv, JointRun, WellPlanned, AllAllowed, Agreed, Heard, Steps, Sends, WellNamed, Tree, Complete;
    var j0 := Begin(h, c, s);
    var answers := Heard(h, c, j0, events);
    if Agreed(answers, |c.manifest|) {
      SenderView(h, c, j0, events);
      var start := j0.(toS := answers);
      SendsUse(c, start, Steps(h, c, j0, events));
      AgreedIsDone(c, answers, Sends(c, start, Steps(h, c, j0, events)));
      SentMeansArrived(h, c, s, events);
    }
  }

  lemma AgreedIsDone(c: Plan, answers: seq<Reply>, j: Joint)
    requires Used(c, answers, j) && Agreed(answers, |c.manifest|) && (j.pc.Done? || j.pc.Failed? || Stuck(j))
    ensures j.pc.Done?
  {
  }
}
