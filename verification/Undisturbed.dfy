/** A transfer that nothing disturbs succeeds: every entry in turn is taken, and SendFiles ends without an error. */
module Undisturbed {
  import opened Basics
  import opened Names
  import opened Receiver
  import opened ReceiverSafety
  import opened ReceiverRuns
  import opened Attempts
  import opened Transfer
  import Folders

  // ----- when an entry can be taken --------------------------------------------------------

  /**
   * An idle session can take entry i with source x: the directory can be made; or the file is granted a slot with no
   * directory in its way, and what is kept of an earlier attempt is a prefix of the source.
   */
  predicate CanTake(h: Hash, s: State, sid: Sid, i: nat, x: Bytes) {
    && sid in s.sessions
    && var sess := s.sessions[sid];
       && sess.phase == Idle && sess.resume && i < |sess.manifest| && i !in sess.completed
       && var meta := sess.manifest[i];
          if meta.isDir then meta.size == 0 && meta.sha == [] && CreateDirectory(s.files, s.dirs, meta.relPath).ok
          else
            && i !in sess.slots && ClearOfDirs(s, meta) && |x| == meta.size && meta.sha == h(x)
            && Seed(s.files, Reserve(s, meta).dest, meta) <= x
  }

  /** What taking it leaves. */
  function Taken(h: Hash, s: State, sid: Sid, i: nat, x: Bytes): State
    requires CanTake(h, s, sid, i, x)
  {
    var sess := s.sessions[sid];
    if sess.manifest[i].isDir then
      With(s.(dirs := CreateDirectory(s.files, s.dirs, sess.manifest[i].relPath).dirs), sid,
           sess.(completed := sess.completed + {i}))
    else AttemptResult(h, s, sid, i, x)
  }

  /** Every entry from i on can be taken, one after the other. */
  ghost predicate Grantable(h: Hash, s: State, c: Plan, i: nat)
    requires i <= |c.manifest| == |c.sources|
    decreases |c.manifest| - i
  {
    i == |c.manifest|
    || (CanTake(h, s, c.sid, i, c.sources[i]) && Grantable(h, Taken(h, s, c.sid, i, c.sources[i]), c, i + 1))
  }

  /** What is left when every entry from i on has been taken. */
  ghost function AllTaken(h: Hash, s: State, c: Plan, i: nat): State
    requires i <= |c.manifest| == |c.sources| && Grantable(h, s, c, i)
    decreases |c.manifest| - i
  {
    if i == |c.manifest| then s else AllTaken(h, Taken(h, s, c.sid, i, c.sources[i]), c, i + 1)
  }

  /** A taken file is in place, with exactly the source's bytes. */
  lemma TakenFile(h: Hash, s: State, sid: Sid, i: nat, x: Bytes)
    requires CanTake(h, s, sid, i, x) && !s.sessions[sid].manifest[i].isDir
    ensures var t, sess := Taken(h, s, sid, i, x), s.sessions[sid];
            var d := Reserve(s, sess.manifest[i]).dest;
            && sid in t.sessions && d in t.files && t.files[d] == x
            && t.sessions[sid].phase == Idle && t.sessions[sid].manifest == sess.manifest
            && t.sessions[sid].completed == sess.completed + {i}
  {
    hide Reserve, PartialLen;
    var seed := Seed(s.files, Reserve(s, s.sessions[sid].manifest[i]).dest, s.sessions[sid].manifest[i]);
    assert seed + x[|seed|..] == x;
  }

  // ----- runs without disturbance ---------------------------------------------------------------

  /** Only the sender's steps, deliveries, and the receiver's work. */
  predicate Smooth(events: seq<JointEvent>) {
    forall e | e in events :: e.Send? || e.Deliver? || e.Work?
  }

  lemma SmoothIsAllowed(events: seq<JointEvent>)
    requires Smooth(events)
    ensures AllAllowed(events)
  {
    forall k | 0 <= k < |events| ensures Allowed(events[k]) {
      assert events[k] in events;
    }
  }

  /** The receiver works twice. */
  lemma WorkTwice(h: Hash, c: Plan, j: Joint)
    requires |c.manifest| == |c.sources|
    ensures var j' := JointRun(h, c, j, [Work, Work]);
            && j'.recv == Run(h, j.recv, [Advance(c.sid), Advance(c.sid)])
            && j'.pc == j.pc && j'.toR == j.toR
  {
    hide Step, Run, JointRun;
    assert [Work, Work] == [Work] + [Work];
    JointCons(h, c, j, Work, [Work]);
    JointOne(h, c, JointStep(h, c, j, Work), Work);
    RunTwo(h, j.recv, Advance(c.sid), Advance(c.sid));
  }

  // ----- the query ------------------------------------------------------------------------------------

  /** Sender and receiver are both between two entries. */
  predicate Between(c: Plan, j: Joint, i: nat) {
    j.pc == AtQuery(i) && j.toR == [] && j.toS == [] && c.sid in j.recv.sessions && j.recv.sessions[c.sid].phase == Idle
  }

  lemma QueryGoes(h: Hash, c: Plan, j: Joint, i: nat)
    requires JointInv(h, c, j) && Between(c, j, i) && i < |c.manifest| == |c.sources|
    requires CanTake(h, j.recv, c.sid, i, c.sources[i]) && !c.manifest[i].isDir
    ensures var meta := c.manifest[i];
            var r := Reserve(j.recv, meta);
            Asked(j.recv, c.sid, i) && j.recv.sessions[c.sid].manifest == c.manifest && r.Granted?
            && JointRun(h, c, j, [Send([]), Deliver(0), Work, Work])
               == Joint(Queried(j.recv, c.sid, i, r.dest, r.dirs), AwaitOffer(i), [], [Offer(i, PartialLen(j.recv.files, r.dest, meta))])
  {
    hide Inv, Step, Run, JointRun, Reserve, PartialLen, Queried, WellPlanned, OneEach;
    var s, meta := j.recv, c.manifest[i];
    var r := Reserve(s, meta);
    assert [Send([]), Deliver(0), Work, Work] == [Send([])] + ([Deliver(0)] + ([Work] + [Work]));
    JointCons(h, c, j, Send([]), [Deliver(0)] + ([Work] + [Work]));
    var j1 := Joint(s, AwaitOffer(i), [Hdr(ResumeQuery(i))], []);
    assert j.toR + [Hdr(ResumeQuery(i))] == [Hdr(ResumeQuery(i))];
    assert JointStep(h, c, j, Send([])) == j1;
    JointCons(h, c, j1, Deliver(0), [Work] + [Work]);
    QueryFrameStep(h, s, c.sid, i);
    QueryFrameSilent(h, s, c.sid, i);
    var s2 := With(s, c.sid, s.sessions[c.sid].(phase := QueryReserve(i)));
    var j2 := Joint(s2, AwaitOffer(i), [], []);
    assert [Hdr(ResumeQuery(i))][1..] == [];
    assert JointStep(h, c, j1, Deliver(0)) == j2;
    JointCons(h, c, j2, Work, [Work]);
    QueryReserveStep(h, s, c.sid, i);
    GrantIsSilent(h, s, c.sid, i);
    var j3 := Joint(Granted1(s, c.sid, i, r.dest, r.dirs), AwaitOffer(i), [], []);
    assert JointStep(h, c, j2, Work) == j3;
    JointOne(h, c, j3, Work);
    QueryProbeStep(h, s, c.sid, i, r.dest, r.dirs);
  }

  lemma QueryFrameSilent(h: Hash, s: State, sid: Sid, i: nat)
    requires Asked(s, sid, i)
    ensures Step(h, s, Recv(sid, ResumeQuery(i))).replies == []
  {
    assert Ready(s, sid);
  }

  lemma GrantIsSilent(h: Hash, s: State, sid: Sid, i: nat)
    requires Asked(s, sid, i) && Reserve(s, s.sessions[sid].manifest[i]).Granted?
    ensures Step(h, With(s, sid, s.sessions[sid].(phase := QueryReserve(i))), Advance(sid)).replies == []
  {
    hide Reserve;
    var s1 := With(s, sid, s.sessions[sid].(phase := QueryReserve(i)));
    ReserveIgnoresSessions(s, s1, s.sessions[sid].manifest[i]);
    assert Ready(s1, sid);
  }

  // ----- the header and the body --------------------------------------------------------------------

  lemma HeaderGoes(h: Hash, c: Plan, q: State, i: nat, d: Path, items: seq<Item>)
    requires |c.manifest| == |c.sources| && i < |c.manifest| && !c.manifest[i].isDir
    requires Held(q, c.sid, i, d) && q.sessions[c.sid].manifest == c.manifest
    requires Tmp(d) !in q.dirs && HasParent(q.dirs, d)
    requires var n := PartialLen(q.files, d, c.manifest[i]); n <= |c.sources[i]| && FileTail(items, i, c.sources[i], n)
    ensures var n := PartialLen(q.files, d, c.manifest[i]);
            var j' := JointRun(h, c, Joint(q, AwaitOffer(i), [], [Offer(i, n)]), [Send(items), Deliver(0), Work, Work, Work]);
            j'.recv == PartOpened(q, c.sid, i, d) && j'.pc == AwaitAck(i) && j'.toR == items
  {
    hide Step, Run, JointRun, FileTail, PartialLen, PartOpened, HasParent;
    var n := PartialLen(q.files, d, c.manifest[i]);
    var j0 := Joint(q, AwaitOffer(i), [], [Offer(i, n)]);
    var toR := [Hdr(FileHeader(i))] + items;
    assert [Send(items), Deliver(0), Work, Work, Work] == [Send(items)] + ([Deliver(0)] + ([Work] + [Work, Work]));
    JointCons(h, c, j0, Send(items), [Deliver(0)] + ([Work] + [Work, Work]));
    var j1 := Joint(q, AwaitAck(i), toR, []);
    PartialIsShort(q.files, d, c.manifest[i]);
    assert [] + [Hdr(FileHeader(i))] + items == toR && [Offer(i, n)][1..] == [];
    assert JointStep(h, c, j0, Send(items)) == j1;
    JointCons(h, c, j1, Deliver(0), [Work] + [Work, Work]);
    HeaderSteps(h, q, c.sid, i, d);
    var j2 := JointStep(h, c, j1, Deliver(0));
    assert toR[0] == Hdr(FileHeader(i)) && toR[1..] == items;
    assert j2.recv == Step(h, q, Recv(c.sid, FileHeader(i))).state && j2.toR == items && j2.pc == AwaitAck(i);
    JointCons(h, c, j2, Work, [Work, Work]);
    var j3 := JointStep(h, c, j2, Work);
    WorkTwice(h, c, j3);
    OpenRuns(h, q, c.sid, i, d);
    assert OpenEvents(c.sid, i) == [Recv(c.sid, FileHeader(i))] + ([Advance(c.sid)] + [Advance(c.sid), Advance(c.sid)]);
    RunCons(h, q, Recv(c.sid, FileHeader(i)), [Advance(c.sid)] + [Advance(c.sid), Advance(c.sid)]);
    RunCons(h, j2.recv, Advance(c.sid), [Advance(c.sid), Advance(c.sid)]);
  }

  lemma PartialIsShort(files: Files, d: Path, meta: FileMeta)
    ensures SeekOffset(PartialLen(files, d, meta), meta.size) == PartialLen(files, d, meta)
  {
  }

  /** One delivery for every item. */
  function Deliveries(items: seq<Item>): seq<JointEvent> {
    seq(|items|, k requires 0 <= k < |items| =>
      match items[k] case Hdr(_) => Deliver(0) case Payload(b) => Deliver(|b|))
  }

  lemma DeliveriesFirst(items: seq<Item>)
    requires items != []
    ensures items[0].Hdr? ==> Deliveries(items) == [Deliver(0)] + Deliveries(items[1..])
    ensures items[0].Payload? ==> Deliveries(items) == [Deliver(|items[0].bytes|)] + Deliveries(items[1..])
  {
  }

  /** The items arrive one by one, as in an undisturbed attempt. */
  lemma {:induction false} ItemsGo(h: Hash, c: Plan, j: Joint, i: nat, x: Bytes, pos: nat, onDisk: Bytes)
    requires |c.manifest| == |c.sources| && Receiving(j.recv, c.sid, i, onDisk) && FileTail(j.toR, i, x, pos)
    requires |onDisk| == pos && |x| == j.recv.sessions[c.sid].manifest[i].size
    ensures var j' := JointRun(h, c, j, Deliveries(j.toR));
            j'.recv == Run(h, j.recv, Arrivals(c.sid, j.toR)) && j'.pc == j.pc && j'.toR == []
    decreases |j.toR|
  {
    hide Step, Run, JointRun, Extended, Arrivals, Deliveries;
    var items := j.toR;
    DeliveriesFirst(items);
    ArrivalsFirst(c.sid, items);
    if items[0] == Hdr(Progress) {
      JointCons(h, c, j, Deliver(0), Deliveries(items[1..]));
      RunCons(h, j.recv, Recv(c.sid, Progress), Arrivals(c.sid, items[1..]));
      ProgressIsIgnored(h, j.recv, c.sid, i, onDisk);
      FrameGoes(h, c, j, i, onDisk);
      ItemsGo(h, c, JointStep(h, c, j, Deliver(0)), i, x, pos, onDisk);
    } else if items[0] == Hdr(FileEnd(i, 0)) {
      assert items[1..] == [];
      FrameGoes(h, c, j, i, onDisk);
      var j1 := JointStep(h, c, j, Deliver(0));
      JointCons(h, c, j, Deliver(0), Deliveries(items[1..]));
      NoDeliveries();
      JointRunNone(h, c, j1);
      RunCons(h, j.recv, Recv(c.sid, FileEnd(i, 0)), Arrivals(c.sid, items[1..]));
      RunNone(h, j1.recv, c.sid);
    } else {
      BodyChunk(h, j.recv, c.sid, i, x, pos, items, onDisk);
      var b := items[1].bytes;
      var s1 := Extended(j.recv, c.sid, i, onDisk + b);
      ChunkGoes(h, c, j, i, onDisk);
      var j2 := JointStep(h, c, JointStep(h, c, j, Deliver(0)), Deliver(|b|));
      DeliveriesFirst(items[1..]);
      assert items[1..][1..] == items[2..];
      JointCons(h, c, j, Deliver(0), [Deliver(|b|)] + Deliveries(items[2..]));
      JointCons(h, c, JointStep(h, c, j, Deliver(0)), Deliver(|b|), Deliveries(items[2..]));
      ItemsGo(h, c, j2, i, x, pos + |b|, onDisk + b);
    }
  }

  lemma NoDeliveries()
    ensures Deliveries([]) == []
  {
  }

  lemma FrameGoes(h: Hash, c: Plan, j: Joint, i: nat, onDisk: Bytes)
    requires |c.manifest| == |c.sources| && Receiving(j.recv, c.sid, i, onDisk) && j.toR != [] && j.toR[0].Hdr?
    ensures var j' := JointStep(h, c, j, Deliver(0));
            j'.recv == Step(h, j.recv, Recv(c.sid, j.toR[0].frame)).state && j'.pc == j.pc && j'.toR == j.toR[1..]
  {
    hide Step;
  }

  lemma ChunkGoes(h: Hash, c: Plan, j: Joint, i: nat, onDisk: Bytes)
    requires |c.manifest| == |c.sources| && Receiving(j.recv, c.sid, i, onDisk) && |j.toR| >= 2
    requires j.toR[1].Payload? && 0 < |j.toR[1].bytes| && j.toR[0] == Hdr(Chunk(|j.toR[1].bytes|))
    requires |onDisk| + |j.toR[1].bytes| <= j.recv.sessions[c.sid].manifest[i].size
    ensures var b := j.toR[1].bytes;
            var j' := JointStep(h, c, JointStep(h, c, j, Deliver(0)), Deliver(|b|));
            j'.recv == Extended(j.recv, c.sid, i, onDisk + b) && j'.pc == j.pc && j'.toR == j.toR[2..]
  {
    hide Step, Extended;
    var b := j.toR[1].bytes;
    FrameGoes(h, c, j, i, onDisk);
    ChunkHeaderStep(h, j.recv, c.sid, i, onDisk, |b|);
    ChunkDataStep(h, j.recv, c.sid, i, onDisk, b);
    var j1 := JointStep(h, c, j, Deliver(0));
    assert j1.toR[0] == Payload(b) && j1.toR[1..] == j.toR[2..] && b[..|b|] == b;
  }

  // ----- one entry ----------------------------------------------------------------------------------

  function FileEvents(items: seq<Item>): seq<JointEvent> {
    [Send([]), Deliver(0), Work, Work]
    + ([Send(items), Deliver(0), Work, Work, Work] + (Deliveries(items) + [Work, Work]))
  }

  /** All of a file but the sender's look at the acknowledgement. */
  lemma FileArrives(h: Hash, c: Plan, j: Joint, i: nat, items: seq<Item>)
    requires JointInv(h, c, j) && Between(c, j, i) && i < |c.manifest| == |c.sources|
    requires CanTake(h, j.recv, c.sid, i, c.sources[i]) && !c.manifest[i].isDir
    requires var n := PartialLen(j.recv.files, Reserve(j.recv, c.manifest[i]).dest, c.manifest[i]);
             FileTail(items, i, c.sources[i], n)
    ensures var j' := JointRun(h, c, j, FileEvents(items));
            j'.recv == Taken(h, j.recv, c.sid, i, c.sources[i]) && j'.pc == AwaitAck(i) && j'.toR == []
  {
    hide Inv, Step, Run, JointRun, FileTail, Reserve, PartialLen, Queried, PartOpened, Seed, Receiving, AttemptResult, HasParent, ProbeDirs;
    hide Arrivals, WellPlanned, OneEach;
    var s, x, meta := j.recv, c.sources[i], c.manifest[i];
    var r := Reserve(s, meta);
    QueryGoes(h, c, j, i);
    var q := Queried(s, c.sid, i, r.dest, r.dirs);
    QueriedHolds(s, c.sid, i, r.dest, r.dirs);
    GrantedHasParent(s, meta);
    ProbeKeepsParent(s.files, r.dirs, r.dest, meta);
    var n := PartialLen(s.files, r.dest, meta);
    var j1 := Joint(q, AwaitOffer(i), [], [Offer(i, n)]);
    var second, third := [Send(items), Deliver(0), Work, Work, Work], Deliveries(items) + [Work, Work];
    JointConcat(h, c, j, [Send([]), Deliver(0), Work, Work], second + third);
    JointConcat(h, c, j1, second, third);
    TailBound(items, i, x, n);
    HeaderGoes(h, c, q, i, r.dest, items);
    var j2 := JointRun(h, c, j1, second);
    OpenRuns(h, q, c.sid, i, r.dest);
    SeedLength(s.files, r.dest, meta);
    OpenKeepsManifest(q, c.sid, i, r.dest);
    JointConcat(h, c, j2, Deliveries(items), [Work, Work]);
    ItemsGo(h, c, j2, i, x, n, Seed(s.files, r.dest, meta));
    var j3 := JointRun(h, c, j2, Deliveries(items));
    WorkTwice(h, c, j3);
    QueryRuns(h, s, c.sid, i);
    var tail := [Advance(c.sid), Advance(c.sid)];
    AttemptRuns(h, s, c.sid, i, x, items);
    RunConcat(h, s, QueryEvents(c.sid, i), OpenEvents(c.sid, i) + (Arrivals(c.sid, items) + tail));
    RunConcat(h, q, OpenEvents(c.sid, i), Arrivals(c.sid, items) + tail);
    RunConcat(h, j2.recv, Arrivals(c.sid, items), tail);
  }

  lemma OpenKeepsManifest(q: State, sid: Sid, i: nat, d: Path)
    requires Held(q, sid, i, d)
    ensures var o := PartOpened(q, sid, i, d);
            sid in o.sessions && o.sessions[sid].manifest == q.sessions[sid].manifest
  {
    OpenedFacts(q, sid, i, d);
  }

  function DirEvents(i: nat): seq<JointEvent> {
    [Send([]), Deliver(0), Send([Hdr(FileEnd(i, 0))]), Deliver(0), Deliver(0)]
  }

  lemma DirArrives(h: Hash, c: Plan, j: Joint, i: nat)
    requires JointInv(h, c, j) && Between(c, j, i) && i < |c.manifest| == |c.sources|
    requires CanTake(h, j.recv, c.sid, i, c.sources[i]) && c.manifest[i].isDir
    ensures var j' := JointRun(h, c, j, DirEvents(i));
            j'.recv == Taken(h, j.recv, c.sid, i, c.sources[i]) && j'.pc == AwaitAck(i) && j'.toR == []
  {
    hide Inv, Run, JointRun, WellPlanned, OneEach, CreateDirectory, Step;
    var s, end := j.recv, Hdr(FileEnd(i, 0));
    assert DirEvents(i) == [Send([])] + ([Deliver(0)] + ([Send([end])] + ([Deliver(0)] + [Deliver(0)])));
    JointCons(h, c, j, Send([]), [Deliver(0)] + ([Send([end])] + ([Deliver(0)] + [Deliver(0)])));
    var j1 := Joint(s, AwaitOffer(i), [Hdr(ResumeQuery(i))], []);
    assert j.toR + [Hdr(ResumeQuery(i))] == [Hdr(ResumeQuery(i))];
    assert JointStep(h, c, j, Send([])) == j1;
    JointCons(h, c, j1, Deliver(0), [Send([end])] + ([Deliver(0)] + [Deliver(0)]));
    Folders.DirHeader(h, s, c.sid, i);
    var j2 := Joint(s, AwaitOffer(i), [], [Offer(i, 0)]);
    assert [Hdr(ResumeQuery(i))][1..] == [] && [] + [Offer(i, 0)] == [Offer(i, 0)];
    assert JointStep(h, c, j1, Deliver(0)) == j2;
    JointCons(h, c, j2, Send([end]), [Deliver(0)] + [Deliver(0)]);
    var toR := [Hdr(FileHeader(i)), end];
    assert [] + [Hdr(FileHeader(i))] + [end] == toR && [Offer(i, 0)][1..] == [];
    var j3 := Joint(s, AwaitAck(i), toR, []);
    assert JointStep(h, c, j2, Send([end])) == j3;
    JointCons(h, c, j3, Deliver(0), [Deliver(0)]);
    var j4 := JointStep(h, c, j3, Deliver(0));
    assert toR[1..] == [end] && [end][1..] == [];
    JointOne(h, c, j4, Deliver(0));
    Folders.DirRuns(h, s, c.sid, i);
    RunThree(h, s, Recv(c.sid, ResumeQuery(i)), Recv(c.sid, FileHeader(i)), Recv(c.sid, FileEnd(i, 0)));
  }

  /** One entry, from one query to the next. */
  lemma EntryGoes(h: Hash, c: Plan, j: Joint, i: nat) returns (events: seq<JointEvent>)
    requires JointInv(h, c, j) && Between(c, j, i) && i < |c.manifest| == |c.sources|
    requires CanTake(h, j.recv, c.sid, i, c.sources[i])
    ensures Smooth(events)
    ensures var j' := JointRun(h, c, j, events);
            JointInv(h, c, j') && Between(c, j', i + 1) && j'.recv == Taken(h, j.recv, c.sid, i, c.sources[i])
  {
    hide Inv, Step, JointRun, FileTail, Reserve, PartialLen, CanTake, Taken, JointInv, WellPlanned, SendStep, FileEvents, DirEvents;
    SyncOf(h, c, j);
    if c.manifest[i].isDir {
      events := DirEvents(i);
      DirArrives(h, c, j, i);
    } else {
      var items := ScriptFor(h, c, j, i);
      events := FileEvents(items);
      FileArrives(h, c, j, i, items);
    }
    EventsAreSmooth(events, i);
    SmoothIsAllowed(events);
    JointRunKeepsInv(h, c, j, events);
    var j1 := JointRun(h, c, j, events);
    Acknowledged(h, c, j, j1, i);
    JointConcat(h, c, j, events, [Send([])]);
    JointOne(h, c, j1, Send([]));
    JointStepKeepsInv(h, c, j1, Send([]));
    events := events + [Send([])];
  }

  lemma SyncOf(h: Hash, c: Plan, j: Joint)
    requires JointInv(h, c, j) && !j.pc.Failed? && |c.manifest| == |c.sources|
    ensures c.sid in j.recv.sessions && j.recv.sessions[c.sid].manifest == c.manifest
  {
    hide Inv;
  }

  lemma ScriptFor(h: Hash, c: Plan, j: Joint, i: nat) returns (items: seq<Item>)
    requires c.sid in j.recv.sessions && j.recv.sessions[c.sid].manifest == c.manifest && i < |c.manifest| == |c.sources|
    requires CanTake(h, j.recv, c.sid, i, c.sources[i]) && !c.manifest[i].isDir
    ensures FileTail(items, i, c.sources[i], PartialLen(j.recv.files, Reserve(j.recv, c.manifest[i]).dest, c.manifest[i]))
  {
    hide FileTail, Reserve;
    var d := Reserve(j.recv, c.manifest[i]).dest;
    SeedLength(j.recv.files, d, c.manifest[i]);
    var n := PartialLen(j.recv.files, d, c.manifest[i]);
    items := Script(i, c.sources[i], n);
    ScriptIsTail(i, c.sources[i], n);
  }

  lemma EventsAreSmooth(events: seq<JointEvent>, i: nat)
    requires events == DirEvents(i) || exists items :: events == FileEvents(items)
    ensures Smooth(events) && Smooth(events + [Send([])])
  {
  }

  /** The receiver is done with the entry, so its acceptance is on its way. */
  lemma Acknowledged(h: Hash, c: Plan, j: Joint, j1: Joint, i: nat)
    requires i < |c.manifest| == |c.sources| && c.sid in j.recv.sessions && j.recv.sessions[c.sid].manifest == c.manifest
    requires CanTake(h, j.recv, c.sid, i, c.sources[i]) && j1.recv == Taken(h, j.recv, c.sid, i, c.sources[i])
    requires JointInv(h, c, j1) && j1.pc == AwaitAck(i) && j1.toR == []
    ensures j1.toS == [Ack(i, true)] && Between(c, SendStep(c, j1, []), i + 1) && SendStep(c, j1, []).recv == j1.recv
  {
    hide Inv, FileTail, WellPlanned, OneEach, AttemptResult, CreateDirectory, Reserve, Seed, ClearOfDirs;
    if !c.manifest[i].isDir { TakenFile(h, j.recv, c.sid, i, c.sources[i]); }
  }

  // ----- the whole transfer -------------------------------------------------------------------------

  lemma {:induction false} EntriesGo(h: Hash, c: Plan, j: Joint, i: nat) returns (events: seq<JointEvent>)
    requires JointInv(h, c, j) && Between(c, j, i) && i <= |c.manifest| == |c.sources| && Grantable(h, j.recv, c, i)
    ensures Smooth(events)
    ensures var j' := JointRun(h, c, j, events);
            JointInv(h, c, j') && Between(c, j', |c.manifest|) && j'.recv == AllTaken(h, j.recv, c, i)
    decreases |c.manifest| - i
  {
    hide JointInv, JointRun, CanTake, Taken, Between;
    if i == |c.manifest| {
      events := [];
      JointRunNone(h, c, j);
    } else {
      var first := EntryGoes(h, c, j, i);
      var j1 := JointRun(h, c, j, first);
      var rest := EntriesGo(h, c, j1, i + 1);
      JointConcat(h, c, j, first, rest);
      events := first + rest;
    }
  }

  lemma EndGoes(h: Hash, c: Plan, j: Joint)
    requires JointInv(h, c, j) && Between(c, j, |c.manifest|) && |c.manifest| == |c.sources|
    ensures var j' := JointRun(h, c, j, [Send([]), Deliver(0), Send([])]);
            j'.pc == Done && j'.recv == With(j.recv, c.sid, j.recv.sessions[c.sid].(phase := Ended(true)))
  {
    hide Inv, JointRun, WellPlanned, OneEach;
    assert [Send([]), Deliver(0), Send([])] == [Send([])] + ([Deliver(0)] + [Send([])]);
    JointCons(h, c, j, Send([]), [Deliver(0)] + [Send([])]);
    var j1 := JointStep(h, c, j, Send([]));
    assert [] + [Hdr(SessionEnd)] == [Hdr(SessionEnd)];
    JointCons(h, c, j1, Deliver(0), [Send([])]);
    var j2 := JointStep(h, c, j1, Deliver(0));
    IsReady(h, j.recv, c.sid);
    JointOne(h, c, j2, Send([]));
  }

  /** The receiver once it has taken every entry of a session that just started, and session_end. */
  ghost function Finish(h: Hash, c: Plan, s: State): State
    requires |c.manifest| == |c.sources| && Grantable(h, Begin(h, c, s).recv, c, 0)
  {
    var t := AllTaken(h, Begin(h, c, s).recv, c, 0);
    if c.sid in t.sessions then With(t, c.sid, t.sessions[c.sid].(phase := Ended(true))) else t
  }

  /**
   * Any manifest that describes its sources, whose entries can be taken one after the other, is transferred by a run
   * that nothing disturbs: SendFiles returns without an error, and the receiver is left as if each had been taken.
   */
  lemma UndisturbedSucceeds(h: Hash, c: Plan, s: State) returns (events: seq<JointEvent>)
    requires Inv(h, s) && WellPlanned(h, c) && c.manifest != [] && c.sid !in s.sessions && |c.manifest| == |c.sources|
    requires Grantable(h, Begin(h, c, s).recv, c, 0)
    ensures Smooth(events) && AllAllowed(events)
    ensures var j := JointRun(h, c, Begin(h, c, s), events); j.pc == Done && j.recv == Finish(h, c, s)
  {
    hide Inv, JointInv, JointRun, WellPlanned, Grantable, AllTaken, AllAllowed;
    var j := Begin(h, c, s);
    BeginInv(h, c, s);
    var first := EntriesGo(h, c, j, 0);
    var last := [Send([]), Deliver(0), Send([])];
    JointConcat(h, c, j, first, last);
    EndGoes(h, c, JointRun(h, c, j, first));
    events := first + last;
    SmoothIsAllowed(events);
  }
}
