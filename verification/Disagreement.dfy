/**
 * Exactly when the two sides can disagree on the offset. The run: a stale part file sits where a directory of the
 * entry's path should go, so the query is refused and answered with zero; another session removes the stale part,
 * a third one makes the directories, writes a byte and drops; now the file_header is granted, with an offset of one.
 */
module Disagreement {
  import opened Basics
  import opened Names
  import opened Receiver
  import opened ReceiverSafety
  import opened ReceiverRuns
  import opened Confinement
  import opened Resume
  import opened Overwrites
  import opened FileTree
  import opened Removals
  import opened Attempts
  import opened Transfer
  import opened Agreement
  import opened AgreedOffsets

  // ----- the stale part in the way ----------------------------------------------

  lemma RefusedMakesLeading(s: State, meta: FileMeta)
    requires ValidRelPath(meta.relPath) && Reserve(s, meta).Refused?
    ensures s.dirs <= Reserve(s, meta).dirs <= s.dirs + Leading(Front(meta.relPath))
  {
    hide Occupied, FreeName, MakeDirs, Split, Join, Legal;
    var p := meta.relPath;
    RelIsLegal(p);
    if |Split(p)| > 1 {
      ParentFacts(p);
      ParentIsValid(p);
      MakeDirsExactly(s.files, s.dirs, Front(p));
      assert CreateDirectory(s.files, s.dirs, Join(Front(p))) == MakeDirs(s.files, s.dirs, Front(p));
    }
  }

  /** The destination whose part file or sidecar is in the way. */
  lemma InTheWay(meta: FileMeta) returns (k: nat, d: Path)
    requires ShakyParent(meta)
    ensures 1 <= k < Depth(meta.relPath) && Depth(d) == k && Front(d) == Split(meta.relPath)[..k - 1]
    ensures PlainDest(d) && ValidRelPath(d) && d !in Leading(Front(meta.relPath))
    ensures Tmp(d) in Leading(Front(meta.relPath)) || Sidecar(d) in Leading(Front(meta.relPath))
  {
    hide Split, Join, Removable, Legal, Reserved;
    var parts := Split(meta.relPath);
    k :| 1 <= k < |parts| && Removable(Join(parts[..k]));
    var t := Join(parts[..k]);
    RemovableIs(t);
    d :| PlainDest(d) && (t == Tmp(d) || t == Sidecar(d));
    JoinSplit(meta.relPath);
    SplitJoin(parts[..k]);
    TempDepth(d);
    assert Front(d) == parts[..k - 1];
    assert Front(meta.relPath)[..k] == parts[..k];
    assert t in Leading(Front(meta.relPath));
    if d in Leading(Front(meta.relPath)) {
      LeadingParts(meta.relPath, |parts| - 1, d);
      SameParts(d, t);
    }
    PrefixIsValid(meta.relPath, k, d);
  }

  // ----- the session that removes the stale part --------------------------------------------

  /** An entry for d that no partial on disk belongs to. */
  function Other(d: Path): FileMeta {
    FileMeta(false, "", 2, [], d)
  }

  /** Nothing but a stale part and sidecar of d, with directories that leave d free. */
  ghost predicate Stale(s: State, d: Path) {
    && ValidRelPath(d) && s.files == map[Tmp(d) := [0], Sidecar(d) := [0]]
    && s.claims == {} && d !in s.dirs && s.files.Keys !! s.dirs && 1 !in s.sessions
  }

  function AskEvents(sid: Sid, meta: FileMeta): seq<Event> {
    [Start(sid, [meta], true)] + QueryEvents(sid, 0)
  }

  lemma StaleIsRemoved(h: Hash, s: State, d: Path)
    requires Stale(s, d)
    ensures var t := Run(h, s, AskEvents(1, Other(d)));
            && t.files == map[] && t.dirs == s.dirs + Leading(Front(d)) && t.claims == {Tmp(d)}
            && t.sessions.Keys == s.sessions.Keys + {1} && forall a | a in s.sessions :: t.sessions[a] == s.sessions[a]
  {
    hide Run, Reserve, ValidRelPath, Split, Leading;
    var meta := Other(d);
    var s1 := Started(s, 1, meta);
    RunCons(h, s, Start(1, [meta], true), QueryEvents(1, 0));
    assert Step(h, s, Start(1, [meta], true)).state == s1;
    StaleGrants(s, d);
    ReserveIgnoresSessions(s, s1, meta);
    QueryRuns(h, s1, 1, 0);
    assert TrimSpace([0]) == [0];
    assert !EqualFold([0], []);
    assert Probe(s1.files, d, meta) == map[];
    NotLeading(d);
    NothingSwept(s.files, s.dirs + Leading(Front(d)), {Tmp(d), Sidecar(d)});
  }

  lemma StaleGrants(s: State, d: Path)
    requires Stale(s, d)
    ensures Reserve(s, Other(d)) == Granted(d, s.dirs + Leading(Front(d)))
  {
    hide Reserve, ValidRelPath, Split, Leading;
    assert d !in ClaimedNames(s.claims);
    assert d !in Occupied(s);
    NotLeading(d);
    FreePathIsGranted(s, Other(d));
  }

  // ----- the session that leaves a partial ------------------------------------------------------

  function DropEvents(b: Byte): seq<Event> {
    [Recv(2, Chunk(1)), Data(2, [b])] + [Drop(2), Release(2, 0)]
  }

  /** Nothing on disk, and the entry's path is free. */
  ghost predicate Cleared(s: State, meta: FileMeta) {
    && ValidRelPath(meta.relPath) && !meta.isDir && meta.size >= 1
    && s.files == map[] && meta.relPath !in s.dirs && Tmp(meta.relPath) !in s.dirs && Tmp(meta.relPath) !in s.claims
    && Sidecar(meta.relPath) !in s.dirs
    && 2 !in s.sessions
  }

  lemma ClearedGrants(s: State, meta: FileMeta)
    requires Cleared(s, meta)
    ensures Reserve(s, meta) == Granted(meta.relPath, s.dirs + Leading(Front(meta.relPath)))
    ensures {Tmp(meta.relPath), Sidecar(meta.relPath)} !! s.dirs + Leading(Front(meta.relPath))
  {
    hide Reserve, ValidRelPath, Split, Leading;
    var p := meta.relPath;
    assert p !in ClaimedNames(s.claims);
    assert p !in Occupied(s);
    FreePathIsGranted(s, meta);
    NotLeading(p);
  }

  lemma PartialIsLeft(h: Hash, s: State, meta: FileMeta, b: Byte)
    requires Cleared(s, meta)
    ensures var t := Run(h, s, AskEvents(2, meta) + (OpenEvents(2, 0) + DropEvents(b)));
            var p := meta.relPath;
            && t.files == map[Tmp(p) := [b], Sidecar(p) := Lower(meta.sha)]
            && t.dirs == s.dirs + Leading(Front(p)) && t.claims == s.claims
            && t.sessions.Keys == s.sessions.Keys + {2} && forall a | a in s.sessions :: t.sessions[a] == s.sessions[a]
  {
    hide Run, Reserve, Cleared, Leading, Lower, Queried, PartOpened, Extended, Receiving, HasParent;
    var p := meta.relPath;
    var s1 := Started(s, 2, meta);
    ClearedGrants(s, meta);
    ClearedStarts(h, s, meta);
    RunConcat(h, s, AskEvents(2, meta), OpenEvents(2, 0) + DropEvents(b));
    RunCons(h, s, Start(2, [meta], true), QueryEvents(2, 0));
    ReserveIgnoresSessions(s, s1, meta);
    QueryRuns(h, s1, 2, 0);
    GrantedHasParent(s, meta);
    var dirs := s.dirs + Leading(Front(p));
    var q := Queried(s1, 2, 0, p, dirs);
    QueriedHolds(s1, 2, 0, p, dirs);
    ProbeKeepsParent(s1.files, dirs, p, meta);
    RunConcat(h, q, OpenEvents(2, 0), DropEvents(b));
    OpenRuns(h, q, 2, 0, p);
    var o := PartOpened(q, 2, 0, p);
    RunConcat(h, o, [Recv(2, Chunk(1)), Data(2, [b])], [Drop(2), Release(2, 0)]);
    ClearedOpens(s, s1, q, o, meta);
    ChunkArrives(h, o, 2, 0, [], [b]);
    assert [] + [b] == [b];
    ClearedDrops(h, s, o, meta, b);
  }

  lemma ClearedStarts(h: Hash, s: State, meta: FileMeta)
    requires Cleared(s, meta)
    ensures Step(h, s, Start(2, [meta], true)).state == Started(s, 2, meta) && Asked(Started(s, 2, meta), 2, 0) && meta.size >= 1
  {
  }

  /** With nothing on disk the part is opened empty. */
  lemma ClearedOpens(s: State, s1: State, q: State, o: State, meta: FileMeta)
    requires Cleared(s, meta) && s1 == Started(s, 2, meta) && Asked(s1, 2, 0)
    requires q == Queried(s1, 2, 0, meta.relPath, s.dirs + Leading(Front(meta.relPath)))
    requires Held(q, 2, 0, meta.relPath) && o == PartOpened(q, 2, 0, meta.relPath)
    requires {Tmp(meta.relPath), Sidecar(meta.relPath)} !! s.dirs + Leading(Front(meta.relPath))
    ensures Seed(q.files, meta.relPath, meta) == []
    ensures o.files == map[Tmp(meta.relPath) := [], Sidecar(meta.relPath) := Lower(meta.sha)]
    ensures o.dirs == s.dirs + Leading(Front(meta.relPath)) && o.claims == s.claims + {Tmp(meta.relPath)}
    ensures o.sessions == s.sessions[2 := Session([meta], true, map[0 := meta.relPath], {}, {}, map[0 := 0], Body(0, 0, 0, 0, []))]
  {
    hide Leading, Lower;
    var none: Files := map[];
    assert Probe(none, meta.relPath, meta) == none;
    assert q.files == none;
  }

  lemma ClearedDrops(h: Hash, s: State, o: State, meta: FileMeta, b: Byte)
    requires Cleared(s, meta) && Receiving(o, 2, 0, [])
    requires o.sessions == s.sessions[2 := Session([meta], true, map[0 := meta.relPath], {}, {}, map[0 := 0], Body(0, 0, 0, 0, []))]
    requires o.files == map[Tmp(meta.relPath) := [], Sidecar(meta.relPath) := Lower(meta.sha)]
    requires o.claims == s.claims + {Tmp(meta.relPath)}
    ensures var t := Run(h, Extended(o, 2, 0, [b]), [Drop(2), Release(2, 0)]);
            && t.files == map[Tmp(meta.relPath) := [b], Sidecar(meta.relPath) := Lower(meta.sha)]
            && t.dirs == o.dirs && t.claims == s.claims
            && t.sessions.Keys == s.sessions.Keys + {2} && forall a | a in s.sessions :: t.sessions[a] == s.sessions[a]
  {
    hide Run, Lower;
    var e := Extended(o, 2, 0, [b]);
    RunTwo(h, e, Drop(2), Release(2, 0));
    assert Ready(e, 2);
    TempPathsDiffer(meta.relPath, meta.relPath);
    var s1 := Step(h, e, Drop(2)).state;
    assert s1.files == e.files && s1.sessions[2].phase == Ended(false);
    assert e.files == map[Tmp(meta.relPath) := [b], Sidecar(meta.relPath) := Lower(meta.sha)];
  }

  // ----- the whole run ------------------------------------------------------------------------------

  /** Everything the other two sessions do, before the sender's file_header arrives. */
  function Meanwhile(meta: FileMeta, d: Path, b: Byte): seq<Event> {
    AskEvents(1, Other(d)) + (AskEvents(2, meta) + (OpenEvents(2, 0) + DropEvents(b)))
  }

  /** The disk at the start: a stale part and its sidecar, in their directory. */
  ghost function StaleDisk(d: Path): State {
    State(map[Tmp(d) := [0], Sidecar(d) := [0]], Leading(Front(d)), {}, map[], map[])
  }

  /** The session of the sender, idle, with nothing reserved. */
  function Waiting(meta: FileMeta): Session {
    Session([meta], true, map[], {}, {}, map[], Idle)
  }

  lemma MeanwhileRuns(h: Hash, s: State, meta: FileMeta, d: Path, b: Byte)
    requires Stale(s, d) && s.sessions == map[0 := Waiting(meta)] && d != meta.relPath
    requires var p := meta.relPath;
             && ValidRelPath(p) && !meta.isDir && meta.size >= 1
             && s.dirs <= Leading(Front(p)) && Leading(Front(d)) <= Leading(Front(p))
    ensures var t, p := Run(h, s, Meanwhile(meta, d, b)), meta.relPath;
            && t.files == map[Tmp(p) := [b], Sidecar(p) := Lower(meta.sha)]
            && t.dirs == Leading(Front(p)) && t.claims == {Tmp(d)}
            && 0 in t.sessions && t.sessions[0] == Waiting(meta)
  {
    hide Run, Reserve, ValidRelPath, Split, Leading, Lower;
    var p := meta.relPath;
    StaleIsRemoved(h, s, d);
    var t := Run(h, s, AskEvents(1, Other(d)));
    TempPathsDiffer(d, p);
    NotLeading(p);
    assert Cleared(t, meta);
    PartialIsLeft(h, t, meta, b);
    RunConcat(h, s, AskEvents(1, Other(d)), AskEvents(2, meta) + (OpenEvents(2, 0) + DropEvents(b)));
  }

  /** The disk the others leave: a partial of one byte, recorded as the entry's. */
  ghost predicate Left(s: State, meta: FileMeta, d: Path, b: Byte) {
    && ValidRelPath(meta.relPath) && !meta.isDir && meta.size >= 2 && d != meta.relPath
    && s.files == map[Tmp(meta.relPath) := [b], Sidecar(meta.relPath) := Lower(meta.sha)]
    && s.dirs == Leading(Front(meta.relPath)) && s.claims == {Tmp(d)}
    && 0 in s.sessions && s.sessions[0] == Waiting(meta)
  }

  lemma LeftGrants(s: State, meta: FileMeta, d: Path, b: Byte)
    requires Left(s, meta, d, b)
    ensures Reserve(s, meta) == Granted(meta.relPath, s.dirs)
  {
    hide Reserve, ValidRelPath, Split, Leading, Lower;
    var p := meta.relPath;
    TempPathsDiffer(d, p);
    NotLeading(p);
    assert p !in ClaimedNames(s.claims);
    assert p !in Occupied(s);
    FreePathIsGranted(s, meta);
  }

  /** The file_header is granted now, and the file is opened at one. */
  lemma OpensAtOne(h: Hash, s: State, meta: FileMeta, d: Path, b: Byte)
    requires Left(s, meta, d, b) && PlainDigest(meta)
    ensures var s1 := With(s, 0, Waiting(meta).(phase := Reserving(0)));
            var s2 := Step(h, s1, Advance(0)).state;
            var s3 := Step(h, s2, Advance(0)).state;
            && Step(h, s1, Advance(0)).replies == [] && Step(h, s2, Advance(0)).replies == []
            && 0 in s3.sessions && s3.sessions[0].phase == Opening(0, 1) && s3.sessions[0].manifest == [meta] && Opens(s3, 0)
  {
    hide Reserve, ValidRelPath, Leading, Lower, EqualFold, TrimSpace;
    var p := meta.relPath;
    LeftGrants(s, meta, d, b);
    NotLeading(p);
    TempPathsDiffer(p, p);
    var s1 := With(s, 0, Waiting(meta).(phase := Reserving(0)));
    ReserveIgnoresSessions(s, s1, meta);
    assert Ready(s1, 0);
    var s2 := Step(h, s1, Advance(0)).state;
    assert s2.sessions[0].phase == Probing(0) && s2.sessions[0].slots == map[0 := p] && s2.files == s.files;
    assert PartialLen(s2.files, p, meta) == 1;
  }

  // ----- the sender's side -----------------------------------------------------------------------

  function PayloadSize(items: seq<Item>): nat {
    if items == [] then 0 else (if items[0].Payload? then |items[0].bytes| else 0) + PayloadSize(items[1..])
  }

  /** The items say how far from the end they start. */
  lemma {:induction false} TailSize(items: seq<Item>, i: nat, x: Bytes, pos: nat)
    requires FileTail(items, i, x, pos)
    ensures PayloadSize(items) == |x| - pos
    decreases |items|
  {
    if items[0] == Hdr(Progress) {
      TailSize(items[1..], i, x, pos);
    } else if items[0] != Hdr(FileEnd(i, 0)) {
      TailSize(items[2..], i, x, pos + items[0].frame.length);
      assert items[1..][1..] == items[2..];
    } else {
      assert items[1..] == [];
    }
  }

  // ----- joint runs of other sessions' steps ------------------------------------------------------

  function Foreigns(events: seq<Event>): seq<JointEvent> {
    seq(|events|, k requires 0 <= k < |events| => Foreign(events[k]))
  }

  /** Steps of other sessions only move the receiver. */
  lemma {:induction false} ForeignsRun(h: Hash, c: Plan, j: Joint, events: seq<Event>)
    requires |c.manifest| == |c.sources| && forall e | e in events :: e.sid != c.sid
    ensures JointRun(h, c, j, Foreigns(events)) == j.(recv := Run(h, j.recv, events))
  {
    hide Step;
    if events == [] {
      JointRunNone(h, c, j);
      assert Foreigns(events) == [];
    } else {
      var before, e := events[..|events| - 1], events[|events| - 1];
      assert e in events;
      assert forall x | x in before :: x in events;
      ForeignsRun(h, c, j, before);
      assert Foreigns(events)[..|events| - 1] == Foreigns(before);
    }
  }

  // ----- the two ends of the run ---------------------------------------------------------------------

  lemma QueryIsRefused(h: Hash, c: Plan, meta: FileMeta, d: Path)
    requires c.sid == 0 && c.manifest == [meta] && |c.sources| == 1 && ShakyParent(meta) && !meta.isDir
    requires Tmp(d) in Leading(Front(meta.relPath)) || Sidecar(d) in Leading(Front(meta.relPath))
    requires Leading(Front(d)) <= Leading(Front(meta.relPath))
    ensures var j := JointRun(h, c, Begin(h, c, StaleDisk(d)), [Send([]), Deliver(0), Work]);
            && j == Joint(j.recv, AwaitOffer(0), [], [Offer(0, 0)])
            && j.recv.files == StaleDisk(d).files && j.recv.dirs <= Leading(Front(meta.relPath)) && j.recv.files.Keys !! j.recv.dirs
            && j.recv.claims == {} && j.recv.sessions == map[0 := Waiting(meta)]
  {
    hide Reserve, Leading, Removable, Split, JointRun;
    var s := StaleDisk(d);
    var j0 := Begin(h, c, s);
    var s1 := With(s, 0, Waiting(meta));
    assert j0 == Joint(s1, AtQuery(0), [], []);
    RefusedIs(s1, meta);
    RefusedMakesLeading(s1, meta);
    ReserveGrows(s1, meta);
    NotLeading(d);
    NewDirsAreNotFiles(s1, Reserve(s1, meta).dirs);
    assert [Send([]), Deliver(0), Work] == [Send([])] + ([Deliver(0)] + [Work]);
    JointCons(h, c, j0, Send([]), [Deliver(0)] + [Work]);
    var j1 := JointStep(h, c, j0, Send([]));
    assert j1 == Joint(s1, AwaitOffer(0), [Hdr(ResumeQuery(0))], []) by { assert [] + [Hdr(ResumeQuery(0))] == [Hdr(ResumeQuery(0))]; }
    JointCons(h, c, j1, Deliver(0), [Work]);
    var j2 := JointStep(h, c, j1, Deliver(0));
    QueryArrives(h, c, s1, meta);
    var s2 := With(s1, 0, Waiting(meta).(phase := QueryReserve(0)));
    assert j2 == Joint(s2, AwaitOffer(0), [], []);
    JointOne(h, c, j2, Work);
    ReserveIgnoresSessions(s1, s2, meta);
    WorkRefuses(h, s1, meta);
  }

  lemma NewDirsAreNotFiles(s: State, dirs: set<Path>)
    requires DirsGrow(s, s.(dirs := dirs)) && s.files.Keys !! s.dirs
    ensures s.files.Keys !! dirs
  {
    forall p | p in dirs ensures p !in s.files {
      assert DirAt(s.files, s.dirs, dirs, p);
    }
  }

  lemma QueryArrives(h: Hash, c: Plan, s1: State, meta: FileMeta)
    requires c.sid == 0 && c.manifest == [meta] && |c.sources| == 1 && !meta.isDir && 0 in s1.sessions && s1.sessions[0] == Waiting(meta)
    ensures JointStep(h, c, Joint(s1, AwaitOffer(0), [Hdr(ResumeQuery(0))], []), Deliver(0))
         == Joint(With(s1, 0, Waiting(meta).(phase := QueryReserve(0))), AwaitOffer(0), [], [])
  {
    assert Ready(s1, 0);
  }

  lemma WorkRefuses(h: Hash, s1: State, meta: FileMeta)
    requires s1.sessions == map[0 := Waiting(meta)] && Reserve(s1, meta).Refused?
    ensures var s2 := With(s1, 0, Waiting(meta).(phase := QueryReserve(0)));
            Step(h, s2, Advance(0)) == Outcome(s1.(dirs := Reserve(s1, meta).dirs), [Offer(0, 0)])
  {
    hide Reserve;
    var s2 := With(s1, 0, Waiting(meta).(phase := QueryReserve(0)));
    ReserveIgnoresSessions(s1, s2, meta);
    assert Ready(s2, 0);
    assert s2.sessions[0 := Waiting(meta)] == s1.sessions;
  }

  lemma HeaderIsGranted(h: Hash, c: Plan, s: State, meta: FileMeta, d: Path, b: Byte, items: seq<Item>)
    requires c.sid == 0 && c.manifest == [meta] && |c.sources| == 1 && meta.size == |c.sources[0]| && FileTail(items, 0, c.sources[0], 0)
    requires Left(s, meta, d, b) && PlainDigest(meta)
    ensures var j := JointRun(h, c, Joint(s, AwaitOffer(0), [], [Offer(0, 0)]), [Send(items), Deliver(0), Work, Work]);
            && j.pc == AwaitAck(0) && j.toR == items && 0 in j.recv.sessions && j.recv.sessions[0].phase == Opening(0, 1)
            && Opens(j.recv, 0)
  {
    hide JointRun, FileTail, ValidRelPath, Leading, PlainDigest, Lower, AdvanceStep;
    var j0 := Joint(s, AwaitOffer(0), [], [Offer(0, 0)]);
    assert [Send(items), Deliver(0), Work, Work] == [Send(items)] + ([Deliver(0)] + ([Work] + [Work]));
    JointCons(h, c, j0, Send(items), [Deliver(0)] + ([Work] + [Work]));
    var j1 := JointStep(h, c, j0, Send(items));
    var toR := [Hdr(FileHeader(0))] + items;
    assert [] + [Hdr(FileHeader(0))] + items == toR && [Offer(0, 0)][1..] == [];
    assert j1 == Joint(s, AwaitAck(0), toR, []);
    JointCons(h, c, j1, Deliver(0), [Work] + [Work]);
    var j2 := JointStep(h, c, j1, Deliver(0));
    HeaderArrives(h, c, s, meta, items);
    JointCons(h, c, j2, Work, [Work]);
    JointOne(h, c, JointStep(h, c, j2, Work), Work);
    OpensAtOne(h, s, meta, d, b);
  }

  lemma HeaderArrives(h: Hash, c: Plan, s: State, meta: FileMeta, items: seq<Item>)
    requires c.sid == 0 && c.manifest == [meta] && |c.sources| == 1 && !meta.isDir && 0 in s.sessions && s.sessions[0] == Waiting(meta)
    ensures JointStep(h, c, Joint(s, AwaitAck(0), [Hdr(FileHeader(0))] + items, []), Deliver(0))
         == Joint(With(s, 0, Waiting(meta).(phase := Reserving(0))), AwaitAck(0), items, [])
  {
    assert Ready(s, 0);
  }

  // ----- the exact condition ---------------------------------------------------------------------------

  /** The receiver opens entry i at another position than the one the sender streams from. */
  ghost predicate Disagrees(h: Hash, c: Plan, s: State, events: seq<JointEvent>, i: nat) {
    && Initial(s) && WellPlanned(h, c) && c.manifest != [] && AllAllowed(events) && i < |c.manifest| == |c.sources|
    && var j := JointRun(h, c, Begin(h, c, s), events);
       && c.sid in j.recv.sessions && Opens(j.recv, c.sid) && j.recv.sessions[c.sid].phase.index == i
       && !FileTail(j.toR, i, c.sources[i], j.recv.sessions[c.sid].phase.offset)
  }

  /** Some transfer that includes this entry, with this source, comes to that. */
  ghost predicate CanDisagree(h: Hash, meta: FileMeta, x: Bytes) {
    exists c: Plan, s: State, events: seq<JointEvent>, i: nat ::
      Disagrees(h, c, s, events, i) && c.manifest[i] == meta && c.sources[i] == x
  }

  function RunOf(meta: FileMeta, d: Path, b: Byte, items: seq<Item>): seq<JointEvent> {
    [Send([]), Deliver(0), Work] + (Foreigns(Meanwhile(meta, d, b)) + [Send(items), Deliver(0), Work, Work])
  }

  lemma RunReaches(h: Hash, c: Plan, meta: FileMeta, x: Bytes, k: nat, d: Path, items: seq<Item>)
    requires c == Plan(0, [meta], [x]) && Declares(h, meta, x) && ShakyParent(meta) && |x| >= 2 && PlainDigest(meta)
    requires 1 <= k < Depth(meta.relPath) && Depth(d) == k && Front(d) == Split(meta.relPath)[..k - 1]
    requires ValidRelPath(d) && (Tmp(d) in Leading(Front(meta.relPath)) || Sidecar(d) in Leading(Front(meta.relPath)))
    requires d !in Leading(Front(meta.relPath)) && FileTail(items, 0, x, 0)
    ensures var j := JointRun(h, c, Begin(h, c, StaleDisk(d)), RunOf(meta, d, x[0], items));
            && j.pc == AwaitAck(0) && j.toR == items && 0 in j.recv.sessions && j.recv.sessions[0].phase == Opening(0, 1)
            && Opens(j.recv, 0)
  {
    hide JointRun, Run, FileTail, ValidRelPath, Leading, PlainDigest, Lower, Split, ShakyParent, Begin, Foreigns, Meanwhile, Stale;
    var others := Meanwhile(meta, d, x[0]);
    var first, last := [Send([]), Deliver(0), Work], [Send(items), Deliver(0), Work, Work];
    ShakyIsValid(meta);
    var j0 := Begin(h, c, StaleDisk(d));
    JointConcat(h, c, j0, first, Foreigns(others) + last);
    var j1 := JointRun(h, c, j0, first);
    LeadingOfParent(meta, k, d);
    QueryIsRefused(h, c, meta, d);
    JointConcat(h, c, j1, Foreigns(others), last);
    OthersAreOthers(meta, d, x[0]);
    ForeignsRun(h, c, j1, others);
    StaleStill(j1.recv, meta, d);
    MeanwhileRuns(h, j1.recv, meta, d, x[0]);
    HeaderIsGranted(h, c, Run(h, j1.recv, others), meta, d, x[0], items);
  }

  lemma StaleStill(s: State, meta: FileMeta, d: Path)
    requires ValidRelPath(d) && d !in Leading(Front(meta.relPath)) && s.dirs <= Leading(Front(meta.relPath))
    requires s.files == StaleDisk(d).files && s.claims == {} && s.sessions.Keys == {0} && s.files.Keys !! s.dirs
    ensures Stale(s, d)
  {
    hide ValidRelPath, Leading, Split;
  }

  lemma DisagreementRuns(h: Hash, meta: FileMeta, x: Bytes)
    requires Declares(h, meta, x) && CleanManifest([meta]) && ShakyParent(meta) && |x| >= 2 && PlainDigest(meta)
    ensures CanDisagree(h, meta, x)
  {
    hide JointRun, FileTail, ValidRelPath, Leading, PlainDigest, Reserved, Split, ShakyParent, Begin, RunOf;
    var k, d := InTheWay(meta);
    var c, items := Plan(0, [meta], [x]), Script(0, x, 0);
    ScriptIsTail(0, x, 0);
    RunReaches(h, c, meta, x, k, d, items);
    NotFromOne(items, x);
    RunIsAllowed(meta, d, x[0], items);
    assert Disagrees(h, c, StaleDisk(d), RunOf(meta, d, x[0], items), 0);
  }

  lemma ShakyIsValid(meta: FileMeta)
    requires ShakyParent(meta)
    ensures ValidRelPath(meta.relPath)
  {
  }

  lemma OthersAreOthers(meta: FileMeta, d: Path, b: Byte)
    ensures forall e | e in Meanwhile(meta, d, b) :: e.sid != 0
  {
  }

  lemma RunIsAllowed(meta: FileMeta, d: Path, b: Byte, items: seq<Item>)
    requires CleanManifest([meta]) && ValidRelPath(d) && !Reserved(d)
    ensures AllAllowed(RunOf(meta, d, b, items))
  {
    hide ValidRelPath, Reserved;
    OtherIsClean(d);
    assert forall e | e in Meanwhile(meta, d, b) :: Admissible(e);
    assert forall k | 0 <= k < |Meanwhile(meta, d, b)| :: Meanwhile(meta, d, b)[k] in Meanwhile(meta, d, b);
  }

  lemma OtherIsClean(d: Path)
    requires ValidRelPath(d) && !Reserved(d)
    ensures CleanManifest([Other(d)])
  {
    hide Reserved, Legal;
  }

  /** The directories on the way to d are on the way to the entry. */
  lemma LeadingOfParent(meta: FileMeta, k: nat, d: Path)
    requires 1 <= k < Depth(meta.relPath) && Depth(d) == k && Front(d) == Split(meta.relPath)[..k - 1]
    ensures Leading(Front(d)) <= Leading(Front(meta.relPath)) && d != meta.relPath
  {
    hide Split, Join;
    forall q | q in Leading(Front(d)) ensures q in Leading(Front(meta.relPath)) {
      var m :| 1 <= m <= |Front(d)| && q == Join(Front(d)[..m]);
      assert Front(d)[..m] == Front(meta.relPath)[..m];
    }
  }

  lemma NotFromOne(items: seq<Item>, x: Bytes)
    requires FileTail(items, 0, x, 0)
    ensures !FileTail(items, 0, x, 1)
  {
    hide FileTail;
    TailSize(items, 0, x, 0);
    if FileTail(items, 0, x, 1) {
      TailSize(items, 0, x, 1);
      assert false;
    }
  }

  /** Without a recorded offer the sender streams from zero; a positive offset needs a partial of this original. */
  lemma DisagreementNeeds(h: Hash, c: Plan, s: State, events: seq<JointEvent>, i: nat)
    requires Disagrees(h, c, s, events, i)
    ensures ShakyParent(c.manifest[i]) && |c.sources[i]| >= 2 && PlainDigest(c.manifest[i])
  {
    hide Inv, WellNamed, JointRun, Begin, FileTail, ShakyParent, TrimSpace, Lower, EqualFold;
    InitialIsFine(h, s);
    var j0 := Begin(h, c, s);
    var j := JointRun(h, c, j0, Unfailing(h, c, j0, events));
    BeginInv(h, c, s);
    BeginIsNotFailed(h, c, s);
    UnfailingRuns(h, c, j0, events);
    JointRunKeepsInv(h, c, j0, Unfailing(h, c, j0, events));
    if !ShakyParent(c.manifest[i]) { SidesAgree(h, c, s, events); }
    Facts(h, j.recv, c.sid);
    var sess := j.recv.sessions[c.sid];
    MatchedIsPlain(j.recv.files[Sidecar(sess.slots[i])], c.manifest[i]);
  }

  lemma MatchedIsPlain(recorded: Bytes, meta: FileMeta)
    requires EqualFold(TrimSpace(recorded), meta.sha)
    ensures PlainDigest(meta)
  {
    hide TrimSpace;
    MatchedDigestIsPlain(recorded, meta.sha);
    LowerIdempotent(meta.sha);
  }

  /**
   * The exact condition on an entry. A transfer of it can come to a disagreement if and only if some proper leading
   * directory of its path is named like the part file or sidecar of an unreserved destination, and its source has
   * at least two bytes, and its digest compares equal to what a sidecar records. SHA-256 in hex always does.
   */
  lemma DisagreeExactly(h: Hash, meta: FileMeta, x: Bytes)
    requires Declares(h, meta, x) && CleanManifest([meta])
    ensures CanDisagree(h, meta, x) <==> ShakyParent(meta) && |x| >= 2 && PlainDigest(meta)
  {
    hide JointRun, Begin, FileTail, WellPlanned, AllAllowed, ShakyParent, PlainDigest, CleanManifest;
    if CanDisagree(h, meta, x) {
      var c: Plan, s: State, events: seq<JointEvent>, i: nat :|
        Disagrees(h, c, s, events, i) && c.manifest[i] == meta && c.sources[i] == x;
      DisagreementNeeds(h, c, s, events, i);
    }
    if ShakyParent(meta) && |x| >= 2 && PlainDigest(meta) { DisagreementRuns(h, meta, x); }
  }
}
