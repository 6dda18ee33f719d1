/**
 * Which acknowledged directories can be missing when SendFiles has returned without an error: exactly those at a
 * path where a part file or a sidecar of an unreserved destination goes. The sender needs no help: it sends the
 * directory, and then the file whose part file or sidecar that would be.
 */
module Vanishing {
  import opened Basics
  import opened Names
  import opened Receiver
  import opened ReceiverSafety
  import opened ReceiverRuns
  import opened Confinement
  import opened Overwrites
  import opened FileTree
  import opened Removals
  import opened Attempts
  import opened Transfer
  import opened Arrival
  import opened Undisturbed
  import Agreement
  import Folders

  // ----- the plan and its states -----------------------------------------------------------------

  /** A directory p, and then a file d with content x. */
  function TwoEntries(h: Hash, p: Path, d: Path, x: Bytes): Plan {
    Plan(0, [FileMeta(true, "", 0, [], p), FileMeta(false, "", |x|, h(x), d)], [[], x])
  }

  /** p is the part file or sidecar of d. */
  predicate TemporaryOf(p: Path, d: Path) {
    PlainDest(d) && ValidRelPath(p) && (p == Tmp(d) || p == Sidecar(d))
  }

  const EMPTY := State(map[], {}, {}, map[], map[])

  /** The session between its two entries, on a disk with these directories. */
  function Midway(h: Hash, p: Path, d: Path, x: Bytes, dirs: set<Path>): State {
    State(map[], dirs, {}, map[0 := Session(TwoEntries(h, p, d, x).manifest, true, map[], {}, {0}, map[], Idle)], map[])
  }

  lemma PathFacts(p: Path, d: Path)
    requires TemporaryOf(p, d)
    ensures ValidRelPath(d) && Leading(Split(p)) == Leading(Front(d)) + {p}
    ensures {d, Tmp(d), Sidecar(d)} !! Leading(Front(d)) && d != p
    ensures forall q | q in Leading(Split(p)) :: !(p + "/" <= q)
  {
    hide Split, Join, Legal, Reserved, Leading;
    JoinSplit(p);
    assert Split(p)[..|Split(p)|] == Split(p);
    PrefixIsValid(p, |Split(p)|, d);
    TempDepth(d);
    LeadingSnoc(Split(p));
    NotLeading(d);
    forall q | q in Leading(Front(d)) ensures |q| <= |d| { LeadingIsShort(d, q); }
  }

  lemma LeadingIsShort(d: Path, q: Path)
    requires q in Leading(Front(d))
    ensures |q| <= |d|
  {
    hide Split, Join;
    JoinSplit(d);
    var k :| 1 <= k <= |Front(d)| && q == Join(Front(d)[..k]);
    assert Front(d)[..k] == Split(d)[..k];
    JoinPrefix(Split(d), k);
  }

  lemma TwoArePlanned(h: Hash, p: Path, d: Path, x: Bytes)
    requires TemporaryOf(p, d)
    ensures WellPlanned(h, TwoEntries(h, p, d, x)) && Initial(EMPTY) && Inv(h, EMPTY) && Tree(EMPTY.files, EMPTY.dirs)
  {
    hide Legal, Reserved;
    PathFacts(p, d);
  }

  /** The directory is made. */
  lemma DirTaken(h: Hash, p: Path, d: Path, x: Bytes)
    requires TemporaryOf(p, d)
    ensures var b := Begin(h, TwoEntries(h, p, d, x), EMPTY).recv;
            CanTake(h, b, 0, 0, []) && Taken(h, b, 0, 0, []) == Midway(h, p, d, x, Leading(Split(p)))
  {
    hide MakeDirs, Split, Join, Leading, Legal, Reserved;
    var none: Files := map[];
    MakeDirsExactly(none, {}, Split(p));
    assert CreateDirectory(none, {}, p) == DirResult(true, Leading(Split(p)));
    var b := Begin(h, TwoEntries(h, p, d, x), EMPTY).recv;
    var t := Taken(h, b, 0, 0, []);
    var none0: set<nat> := {};
    assert none0 + {0} == {0};
    assert t.sessions == Midway(h, p, d, x, Leading(Split(p))).sessions;
  }

  lemma FileIsGranted(h: Hash, p: Path, d: Path, x: Bytes, dirs: set<Path>)
    requires TemporaryOf(p, d) && Leading(Front(d)) <= dirs <= Leading(Front(d)) + {p}
    ensures var m := Midway(h, p, d, x, dirs); Reserve(m, m.sessions[0].manifest[1]) == Granted(d, dirs)
  {
    hide Reserve, Leading, Front, Legal, Reserved;
    var m := Midway(h, p, d, x, dirs);
    PathFacts(p, d);
    assert ClaimedNames({}) == {};
    assert d !in Occupied(m);
    FreePathIsGranted(m, m.sessions[0].manifest[1]);
    assert dirs + Leading(Front(d)) == dirs;
  }

  /** The file is taken, on a disk where d and its part file are free; an empty directory at its sidecar goes. */
  lemma FileTaken(h: Hash, p: Path, d: Path, x: Bytes, dirs: set<Path>)
    requires TemporaryOf(p, d) && Leading(Front(d)) <= dirs <= Leading(Front(d)) + {Sidecar(d)}
    requires Sidecar(d) in dirs ==> p == Sidecar(d)
    ensures var m := Midway(h, p, d, x, dirs);
            CanTake(h, m, 0, 1, x) && Taken(h, m, 0, 1, x).dirs == Leading(Front(d)) && 0 in Taken(h, m, 0, 1, x).sessions
  {
    hide Reserve, EqualFold, Swept, Leading, Front, TemporaryOf;
    var m := Midway(h, p, d, x, dirs);
    var meta := m.sessions[0].manifest[1];
    PathFacts(p, d);
    TempPathsDiffer(d, d);
    assert Leading(Front(d)) <= dirs <= Leading(Front(d)) + {p};
    FileIsGranted(h, p, d, x, dirs);
    assert |Sidecar(d)| > |d|;
    assert Seed(m.files, d, meta) == [];
    assert [] + x[0..] == x;
    Folders.SameDigest(h, x);
    SidecarGoes(p, d, dirs);
    Emptied(h, m, meta, d, x);
  }

  lemma Emptied(h: Hash, m: State, meta: FileMeta, d: Path, x: Bytes)
    requires m.files == map[] && Asked(m, 0, 1) && m.sessions[0].manifest[1] == meta && Reserve(m, meta) == Granted(d, m.dirs)
    requires meta.size == |x| && meta.sha == h(x)
    ensures AttemptResult(h, m, 0, 1, x).dirs == Swept(map[], m.dirs, {Sidecar(d)}) && 0 in AttemptResult(h, m, 0, 1, x).sessions
  {
    hide Reserve, EqualFold, Swept;
    assert Seed(m.files, d, meta) == [];
    assert [] + x[0..] == x;
    Folders.SameDigest(h, x);
  }

  lemma SidecarGoes(p: Path, d: Path, dirs: set<Path>)
    requires TemporaryOf(p, d) && Leading(Front(d)) <= dirs <= Leading(Front(d)) + {Sidecar(d)}
    requires Sidecar(d) in dirs ==> p == Sidecar(d)
    ensures Swept(map[], dirs, {Sidecar(d)}) == Leading(Front(d))
  {
    hide Leading, Front, Legal, Reserved;
    PathFacts(p, d);
    var none: Files := map[];
    assert Sidecar(d) in dirs ==> EmptyDir(none, dirs, Sidecar(d));
  }

  // ----- a directory in place of a sidecar ------------------------------------------------------------

  /** The directory p is acknowledged, SendFiles returns without an error, and p is not there. */
  ghost predicate Vanishes(h: Hash, c: Plan, s: State, events: seq<JointEvent>, k: nat) {
    && Initial(s) && Tree(s.files, s.dirs) && WellPlanned(h, c) && |c.manifest| == |c.sources| && AllAllowed(events)
    && k < |c.manifest| && c.manifest[k].isDir
    && var j := JointRun(h, c, Begin(h, c, s), events);
       j.pc.Done? && c.manifest[k].relPath !in j.recv.dirs
  }

  /** No other session takes a step, and nothing fails. */
  predicate Alone(events: seq<JointEvent>) {
    forall e | e in events :: e.Send? || e.Deliver? || e.Work? || e.WorkDir?
  }

  lemma SidecarVanishes(h: Hash, p: Path, d: Path) returns (events: seq<JointEvent>)
    requires TemporaryOf(p, d) && p == Sidecar(d)
    ensures Vanishes(h, TwoEntries(h, p, d, []), EMPTY, events, 0) && Alone(events)
  {
    hide Inv, JointRun, Begin, Taken, CanTake, WellPlanned, Leading, TemporaryOf, AllAllowed, Tree;
    var c := TwoEntries(h, p, d, []);
    var b := Begin(h, c, EMPTY).recv;
    TwoArePlanned(h, p, d, []);
    PathFacts(p, d);
    DirTaken(h, p, d, []);
    FileTaken(h, p, d, [], Leading(Split(p)));
    var t := Taken(h, Midway(h, p, d, [], Leading(Split(p))), 0, 1, []);
    assert Grantable(h, t, c, 2) && AllTaken(h, t, c, 2) == t;
    assert Grantable(h, Midway(h, p, d, [], Leading(Split(p))), c, 1);
    assert Grantable(h, b, c, 0) && AllTaken(h, b, c, 0) == t;
    events := UndisturbedSucceeds(h, c, EMPTY);
  }

  // ----- a directory in place of a part file ------------------------------------------------------------

  /** The session on a disk with these directories, between its two entries. */
  function Halfway(h: Hash, p: Path, d: Path, x: Bytes, dirs: set<Path>): Joint {
    Joint(Midway(h, p, d, x, dirs), AtQuery(1), [], [])
  }

  lemma HalfwayIsInv(h: Hash, p: Path, d: Path, x: Bytes, dirs: set<Path>)
    requires TemporaryOf(p, d)
    ensures JointInv(h, TwoEntries(h, p, d, x), Halfway(h, p, d, x, dirs))
  {
    hide WellPlanned, TemporaryOf, CleanManifest;
    TwoArePlanned(h, p, d, x);
    MidwayIsInv(h, p, d, x, dirs);
    var c, sess := TwoEntries(h, p, d, x), Midway(h, p, d, x, dirs).sessions[0];
    assert DoneUpTo(sess, 1);
    assert Sync(c, sess, AtQuery(1), [], []);
  }

  lemma MidwayIsInv(h: Hash, p: Path, d: Path, x: Bytes, dirs: set<Path>)
    requires TemporaryOf(p, d)
    ensures Inv(h, Midway(h, p, d, x, dirs))
  {
    hide CleanManifest, TemporaryOf;
    TwoArePlanned(h, p, d, x);
  }

  lemma ProbeRemoves(h: Hash, p: Path, d: Path, x: Bytes)
    requires TemporaryOf(p, d) && p == Tmp(d) && |x| >= 2
    requires Asked(Midway(h, p, d, x, Leading(Split(p))), 0, 1) && Asked(Midway(h, p, d, x, Leading(Front(d))), 0, 1)
    ensures Step(h, Granted1(Midway(h, p, d, x, Leading(Split(p))), 0, 1, d, Leading(Split(p))), ProbeDir(0, 1))
         == Outcome(Queried(Midway(h, p, d, x, Leading(Front(d))), 0, 1, d, Leading(Front(d))), [Offer(1, 0)])
  {
    hide Leading, Split, Front, TemporaryOf, Swept;
    PathFacts(p, d);
    PartGoes(p, d);
    var g := Granted1(Midway(h, p, d, x, Leading(Split(p))), 0, 1, d, Leading(Split(p)));
    var q := Queried(Midway(h, p, d, x, Leading(Front(d))), 0, 1, d, Leading(Front(d)));
    var o := ProbeDirStep(g, 0, g.sessions[0], 1).state;
    assert o.sessions == q.sessions;
    assert o.files == q.files;
  }

  lemma PartGoes(p: Path, d: Path)
    requires TemporaryOf(p, d) && p == Tmp(d)
    ensures Swept(map[], Leading(Split(p)), {Tmp(d), Sidecar(d)}) == Leading(Front(d))
  {
    hide Leading, Split, Front, TemporaryOf;
    PathFacts(p, d);
    TempPathsDiffer(d, d);
    var none: Files := map[];
    assert EmptyDir(none, Leading(Split(p)), p);
    assert !EmptyDir(none, Leading(Split(p)), Sidecar(d));
  }

  /** The query finds the directory, which is no partial of the file: it is removed, and the answer is zero. */
  lemma DirIsProbed(h: Hash, p: Path, d: Path, x: Bytes)
    requires TemporaryOf(p, d) && p == Tmp(d) && |x| >= 2
    ensures var c := TwoEntries(h, p, d, x);
            JointRun(h, c, Halfway(h, p, d, x, Leading(Split(p))), [Send([]), Deliver(0), Work, WorkDir(1)])
            == JointRun(h, c, Halfway(h, p, d, x, Leading(Front(d))), [Send([]), Deliver(0), Work, Work])
  {
    hide JointRun, Leading, Split, Front, TemporaryOf, Step, Reserve, JointInv, Inv, CanTake, Queried, Granted1, WellPlanned;
    var c, full, less := TwoEntries(h, p, d, x), Leading(Split(p)), Leading(Front(d));
    var j, j', m := Halfway(h, p, d, x, full), Halfway(h, p, d, x, less), Midway(h, p, d, x, full);
    PathFacts(p, d);
    HalfwayIsInv(h, p, d, x, less);
    FileTaken(h, p, d, x, less);
    FileIsGranted(h, p, d, x, less);
    QueryGoes(h, c, j', 1);
    FileIsGranted(h, p, d, x, full);
    assert [Send([]), Deliver(0), Work, WorkDir(1)] == [Send([])] + ([Deliver(0)] + ([Work] + [WorkDir(1)]));
    JointCons(h, c, j, Send([]), [Deliver(0)] + ([Work] + [WorkDir(1)]));
    var j1 := Joint(m, AwaitOffer(1), [Hdr(ResumeQuery(1))], []);
    assert [] + [Hdr(ResumeQuery(1))] == [Hdr(ResumeQuery(1))];
    assert JointStep(h, c, j, Send([])) == j1;
    JointCons(h, c, j1, Deliver(0), [Work] + [WorkDir(1)]);
    QueryFrameStep(h, m, 0, 1);
    QueryFrameSilent(h, m, 0, 1);
    var j2 := Joint(With(m, 0, m.sessions[0].(phase := QueryReserve(1))), AwaitOffer(1), [], []);
    assert [Hdr(ResumeQuery(1))][1..] == [];
    assert JointStep(h, c, j1, Deliver(0)) == j2;
    JointCons(h, c, j2, Work, [WorkDir(1)]);
    QueryReserveStep(h, m, 0, 1);
    GrantIsSilent(h, m, 0, 1);
    var j3 := Joint(Granted1(m, 0, 1, d, full), AwaitOffer(1), [], []);
    assert JointStep(h, c, j2, Work) == j3;
    JointOne(h, c, j3, WorkDir(1));
    ProbeRemoves(h, p, d, x);
  }

  /** A file's events when its query finds a directory of size one in place of the partial. */
  function ProbedEvents(items: seq<Item>): seq<JointEvent> {
    [Send([]), Deliver(0), Work, WorkDir(1)] + ([Send(items), Deliver(0), Work, Work, Work] + (Deliveries(items) + [Work, Work]))
  }

  lemma ProbedIsSame(h: Hash, p: Path, d: Path, x: Bytes, items: seq<Item>)
    requires TemporaryOf(p, d) && p == Tmp(d) && |x| >= 2
    ensures var c := TwoEntries(h, p, d, x);
            JointRun(h, c, Halfway(h, p, d, x, Leading(Split(p))), ProbedEvents(items))
            == JointRun(h, c, Halfway(h, p, d, x, Leading(Front(d))), FileEvents(items))
  {
    hide JointRun, Leading, Split, Front, TemporaryOf, Halfway;
    var c := TwoEntries(h, p, d, x);
    var rest := [Send(items), Deliver(0), Work, Work, Work] + (Deliveries(items) + [Work, Work]);
    DirIsProbed(h, p, d, x);
    JointConcat(h, c, Halfway(h, p, d, x, Leading(Front(d))), [Send([]), Deliver(0), Work, Work], rest);
    JointConcat(h, c, Halfway(h, p, d, x, Leading(Split(p))), [Send([]), Deliver(0), Work, WorkDir(1)], rest);
  }

  /** The file arrives all the same, and the transfer ends. */
  lemma LessGoes(h: Hash, p: Path, d: Path, x: Bytes, items: seq<Item>)
    requires TemporaryOf(p, d) && FileTail(items, 1, x, 0)
    ensures var c := TwoEntries(h, p, d, x);
            var j := JointRun(h, c, JointRun(h, c, Halfway(h, p, d, x, Leading(Front(d))), FileEvents(items)), LastEvents());
            j.pc == Done && j.recv.dirs == Leading(Front(d))
  {
    hide Inv, JointInv, JointRun, Taken, CanTake, WellPlanned, Leading, Split, Front, TemporaryOf, FileTail, Halfway, FileEvents, SendStep;
    var c, less := TwoEntries(h, p, d, x), Leading(Front(d));
    var j1 := Halfway(h, p, d, x, less);
    PathFacts(p, d);
    HalfwayIsInv(h, p, d, x, less);
    FileTaken(h, p, d, x, less);
    FileIsGranted(h, p, d, x, less);
    HalfwayBetween(h, p, d, x, less);
    FileArrives(h, c, j1, 1, items);
    EventsAreSmooth(FileEvents(items), 1);
    SmoothIsAllowed(FileEvents(items));
    JointRunKeepsInv(h, c, j1, FileEvents(items));
    var j2 := JointRun(h, c, j1, FileEvents(items));
    Acknowledged(h, c, j1, j2, 1);
    JointCons(h, c, j2, Send([]), [Send([]), Deliver(0), Send([])]);
    JointStepKeepsInv(h, c, j2, Send([]));
    EndGoes(h, c, SendStep(c, j2, []));
  }

  function LastEvents(): seq<JointEvent> {
    [Send([])] + [Send([]), Deliver(0), Send([])]
  }

  /** So after the file has arrived, the directory is gone. */
  lemma PartVanishes(h: Hash, p: Path, d: Path) returns (events: seq<JointEvent>)
    requires TemporaryOf(p, d) && p == Tmp(d)
    ensures Vanishes(h, TwoEntries(h, p, d, [0, 0]), EMPTY, events, 0) && Alone(events)
  {
    hide Inv, JointInv, JointRun, Begin, Taken, CanTake, WellPlanned, Leading, Split, Front, TemporaryOf, Tree, FileTail, Halfway;
    hide ProbedEvents, FileEvents, LastEvents;
    var x := [0, 0];
    var c := TwoEntries(h, p, d, x);
    var j0, j1 := Begin(h, c, EMPTY), Halfway(h, p, d, x, Leading(Split(p)));
    TwoArePlanned(h, p, d, x);
    PathFacts(p, d);
    DirTaken(h, p, d, x);
    BeginInv(h, c, EMPTY);
    BeginsBetween(h, c);
    var first := EntryGoes(h, c, j0, 0);
    HalfwayIs(h, p, d, x, JointRun(h, c, j0, first));
    var items := Script(1, x, 0);
    ScriptIsTail(1, x, 0);
    ProbedIsSame(h, p, d, x, items);
    LessGoes(h, p, d, x, items);
    events := first + (ProbedEvents(items) + LastEvents());
    JointConcat(h, c, j0, first, ProbedEvents(items) + LastEvents());
    JointConcat(h, c, j1, ProbedEvents(items), LastEvents());
    AloneTogether(first, items);
  }

  lemma BeginsBetween(h: Hash, c: Plan)
    requires c.sid == 0 && c.manifest != []
    ensures Between(c, Begin(h, c, EMPTY), 0)
  {
  }

  lemma HalfwayIs(h: Hash, p: Path, d: Path, x: Bytes, j: Joint)
    requires Between(TwoEntries(h, p, d, x), j, 1) && j.recv == Midway(h, p, d, x, Leading(Split(p)))
    ensures j == Halfway(h, p, d, x, Leading(Split(p)))
  {
  }

  lemma HalfwayBetween(h: Hash, p: Path, d: Path, x: Bytes, dirs: set<Path>)
    ensures Between(TwoEntries(h, p, d, x), Halfway(h, p, d, x, dirs), 1)
    ensures Halfway(h, p, d, x, dirs).recv == Midway(h, p, d, x, dirs)
    ensures forall e: Path, meta :: PartialLen(Midway(h, p, d, x, dirs).files, e, meta) == 0
  {
  }

  lemma AloneTogether(first: seq<JointEvent>, items: seq<Item>)
    requires Smooth(first)
    ensures var events := first + (ProbedEvents(items) + LastEvents()); Alone(events) && AllAllowed(events)
  {
    var events := first + (ProbedEvents(items) + LastEvents());
    assert Alone(events);
    forall k | 0 <= k < |events| ensures Allowed(events[k]) {
      assert events[k] in events;
    }
  }

  // ----- exactly which ---------------------------------------------------------------------------------

  ghost predicate CanVanish(h: Hash, p: Path) {
    exists c: Plan, s: State, events: seq<JointEvent>, k: nat :: Vanishes(h, c, s, events, k) && c.manifest[k].relPath == p
  }

  lemma VanishedIsRemovable(h: Hash, c: Plan, s: State, events: seq<JointEvent>, k: nat)
    requires Vanishes(h, c, s, events, k)
    ensures ValidRelPath(c.manifest[k].relPath) && Removable(c.manifest[k].relPath)
  {
    hide Inv, JointRun, Begin, Tree, WellPlanned, WellNamed, ValidRelPath, Removable, JointInv;
    Agreement.InitialIsFine(h, s);
    BeginInv(h, c, s);
    BeginDirs(h, c, s);
    JointRunKeepsDirs(h, c, Begin(h, c, s), events);
    var j := JointRun(h, c, Begin(h, c, s), events);
    DoneIsComplete(h, c, j);
  }

  lemma DoneIsComplete(h: Hash, c: Plan, j: Joint)
    requires JointInv(h, c, j) && j.pc.Done? && |c.manifest| == |c.sources|
    ensures c.sid in j.recv.sessions && j.recv.sessions[c.sid].manifest == c.manifest
    ensures forall k: nat | k < |c.manifest| :: k in j.recv.sessions[c.sid].completed
  {
    hide Inv;
    FullCount(j.recv.sessions[c.sid].completed, |c.manifest|);
  }

  /**
   * The exact condition on a directory entry. One with this path can be acknowledged, and be missing when SendFiles
   * has returned without an error, if and only if the path is valid and is where the part file or the sidecar of an
   * unreserved destination goes. (What is missing then is bare: see Complete.)
   */
  lemma VanishesExactly(h: Hash, p: Path)
    ensures CanVanish(h, p) <==> ValidRelPath(p) && Removable(p)
  {
    hide JointRun, Begin, Tree, WellPlanned, AllAllowed, Alone, PlainDest, ValidRelPath;
    if CanVanish(h, p) {
      var c: Plan, s: State, events: seq<JointEvent>, k: nat :| Vanishes(h, c, s, events, k) && c.manifest[k].relPath == p;
      VanishedIsRemovable(h, c, s, events, k);
    }
    if ValidRelPath(p) && Removable(p) {
      RemovableIs(p);
      var d :| PlainDest(d) && (p == Tmp(d) || p == Sidecar(d));
      if p == Sidecar(d) {
        var events := SidecarVanishes(h, p, d);
        assert TwoEntries(h, p, d, []).manifest[0].relPath == p;
      } else {
        var events := PartVanishes(h, p, d);
        assert TwoEntries(h, p, d, [0, 0]).manifest[0].relPath == p;
      }
    }
  }
}
