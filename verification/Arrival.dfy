/**
 * End to end: what has arrived when SendFiles returns without an error. Files always have. A directory has, unless it
 * is empty and sits where the part file or the sidecar of another destination goes: then a transfer of that
 * destination, of the same session or another, removes it.
 */
module Arrival {
  import opened Basics
  import opened Names
  import opened Receiver
  import opened ReceiverSafety
  import opened ReceiverRuns
  import opened Confinement
  import opened Overwrites
  import opened FileTree
  import opened Removals
  import opened Attempts
  import opened Transfer

  // ----- directories over a run of the receiver ----------------------------------------------

  /** p is no directory, and nothing on disk lies below it. */
  ghost predicate Bare(s: State, p: Path) {
    p !in s.dirs && forall q | q in s.files.Keys + s.dirs :: p !in Leading(Front(q))
  }

  lemma MissingIsBare(s: State, p: Path)
    requires Tree(s.files, s.dirs) && p !in s.dirs
    ensures Bare(s, p)
  {
    hide Tree, Leading, Front;
    forall q | q in s.files.Keys + s.dirs ensures p !in Leading(Front(q)) {
      TreeLeads(s.files, s.dirs, q);
    }
  }

  /**
   * Over any run, a directory, made in it or there before, stays, unless its path is removable: then it can be gone,
   * and with it everything below. So one with a file below it that is no temporary stays in any case.
   */
  lemma {:induction false} DirectoriesStay(h: Hash, s: State, events: seq<Event>, p: Path)
    requires Inv(h, s) && WellNamed(s) && Tree(s.files, s.dirs) && AllAdmissible(events) && p in s.dirs
    ensures var s' := Run(h, s, events); p in s'.dirs || (Removable(p) && Bare(s', p))
  {
    hide Inv, WellNamed, Tree, Step, Removable;
    RunIsTree(h, s, events);
    if !Removable(p) { UnremovableStays(h, s, events, p); }
    if p !in Run(h, s, events).dirs { MissingIsBare(Run(h, s, events), p); }
  }

  lemma {:induction false} UnremovableStays(h: Hash, s: State, events: seq<Event>, p: Path)
    requires Inv(h, s) && WellNamed(s) && AllAdmissible(events) && p in s.dirs && !Removable(p)
    ensures p in Run(h, s, events).dirs
  {
    hide Inv, WellNamed, Step, Removable;
    if events != [] {
      var before := events[..|events| - 1];
      UnremovableStays(h, s, before, p);
      RunKeepsInv(h, s, before);
      RunStaysNamed(h, s, before);
      DirStays(h, Run(h, s, before), events[|events| - 1], p);
    }
  }

  lemma KeptByFile(h: Hash, s: State, events: seq<Event>, p: Path, q: Path)
    requires Inv(h, s) && Tree(s.files, s.dirs) && AllAdmissible(events)
    requires q in s.files && !TempName(q) && p in Leading(Front(q))
    ensures p in Run(h, s, events).dirs
  {
    hide Inv, Tree, Run, TempName, Leading, Front;
    RunIsTree(h, s, events);
    RunKeepsInv(h, s, events);
    TreeLeads(Run(h, s, events).files, Run(h, s, events).dirs, q);
  }

  // ----- directories of completed entries -----------------------------------------------------

  /** Directories of completed entries have valid paths, and exist, unless their path is removable. */
  predicate DirsDone(s: State, sess: Session) {
    forall k | k in sess.completed && k < |sess.manifest| && sess.manifest[k].isDir ::
      var p := sess.manifest[k].relPath; ValidRelPath(p) && (p in s.dirs || Removable(p))
  }

  predicate NewAreDone(s: State, s': State, sid: Sid)
    requires sid in s.sessions && sid in s'.sessions
  {
    var sess, sess' := s.sessions[sid], s'.sessions[sid];
    forall k | k in sess'.completed && k !in sess.completed && k < |sess.manifest| && sess.manifest[k].isDir ::
      sess.manifest[k].relPath in s'.dirs && ValidRelPath(sess.manifest[k].relPath)
  }

  lemma WorkCompletes(h: Hash, s: State, sid: Sid)
    requires Inv(h, s) && Ready(s, sid)
    ensures var s' := AdvanceStep(s, sid, s.sessions[sid]).state; sid in s'.sessions && NewAreDone(s, s', sid)
  {
    hide Inv, Reserve, PartialLen, Probe, Lower, RemovePart, Legal, TempName, Swept;
    var sess := s.sessions[sid];
    if sess.phase.Cleaning? { SlotFacts(h, s, sid, sess.phase.index); }
  }

  lemma MadeIsValid(files: Files, dirs: set<Path>, rel: string)
    requires CreateDirectory(files, dirs, rel).ok
    ensures ValidRelPath(rel)
  {
    hide ValidRelPath;
  }

  lemma FrameCompletes(h: Hash, s: State, sid: Sid, frame: Frame)
    requires Ready(s, sid)
    ensures var s' := FrameStep(h, s, sid, s.sessions[sid], frame).state; sid in s'.sessions && NewAreDone(s, s', sid)
  {
    hide CreateDirectory, EqualFold, Removed, IdleFrame, ValidRelPath;
    var sess := s.sessions[sid];
    if sess.phase.DirEntry? {
      var rel := sess.manifest[sess.phase.index].relPath;
      if CreateDirectory(s.files, s.dirs, rel).ok { DirectoryIsMade(s.files, s.dirs, rel); MadeIsValid(s.files, s.dirs, rel); }
    }
    if sess.phase.Body? { RemovedKeepsSessions(s); }
    if sess.phase.Idle? { IdleCompletes(s, sid, frame); }
  }

  lemma IdleCompletes(s: State, sid: Sid, frame: Frame)
    requires Ready(s, sid)
    ensures var s' := IdleFrame(s, sid, s.sessions[sid], frame).state; sid in s'.sessions && NewAreDone(s, s', sid)
  {
  }

  lemma StepCompletes(h: Hash, s: State, e: Event)
    requires Inv(h, s) && e.sid in s.sessions
    ensures var s' := Step(h, s, e).state; e.sid in s'.sessions && NewAreDone(s, s', e.sid)
  {
    hide Inv, AdvanceStep, FrameStep, SidecarMatches, Removed;
    RemovedKeepsSessions(s);
    match e
    case Recv(sid, frame) => if Ready(s, sid) { FrameCompletes(h, s, sid, frame); }
    case Advance(sid) => if Ready(s, sid) { WorkCompletes(h, s, sid); }
    case _ =>
  }

  ghost predicate DirsInv(c: Plan, s: State) {
    WellNamed(s) && Tree(s.files, s.dirs) && c.sid in s.sessions && DirsDone(s, s.sessions[c.sid])
  }

  lemma StepKeepsDirs(h: Hash, c: Plan, s: State, e: Event)
    requires Inv(h, s) && DirsInv(c, s)
    ensures DirsInv(c, Step(h, s, e).state)
  {
    hide Inv, WellNamed, Tree, Step, Removable, ValidRelPath;
    var s' := Step(h, s, e).state;
    StepIsTree(h, s, e);
    StepStaysNamed(h, s, e);
    StepTouches(h, s, e);
    StepAdvances(h, s, e);
    if e.sid == c.sid { StepCompletes(h, s, e); }
    var sess := s'.sessions[c.sid];
    forall k | k in sess.completed && k < |sess.manifest| && sess.manifest[k].isDir
      ensures var p := sess.manifest[k].relPath; ValidRelPath(p) && (p in s'.dirs || Removable(p))
    {
      var p := sess.manifest[k].relPath;
      if k in s.sessions[c.sid].completed && p in s.dirs { DirStays(h, s, e, p); }
    }
  }

  lemma {:induction false} JointRunKeepsDirs(h: Hash, c: Plan, j: Joint, events: seq<JointEvent>)
    requires JointInv(h, c, j) && DirsInv(c, j.recv) && AllAllowed(events) && |c.manifest| == |c.sources|
    ensures JointInv(h, c, JointRun(h, c, j, events)) && DirsInv(c, JointRun(h, c, j, events).recv)
  {
    hide JointInv, JointStep, DirsInv, RecvEvent;
    JointRunKeepsInv(h, c, j, events);
    if events != [] {
      var before, e := events[..|events| - 1], events[|events| - 1];
      JointRunKeepsDirs(h, c, j, before);
      var m := JointRun(h, c, j, before);
      JointRecv(h, c, m, e);
      JointIsInv(h, c, m);
      if RecvEvent(c, m, e).Some? { StepKeepsDirs(h, c, m.recv, RecvEvent(c, m, e).value); }
    }
  }

  lemma JointIsInv(h: Hash, c: Plan, j: Joint)
    requires JointInv(h, c, j)
    ensures Inv(h, j.recv)
  {
    hide Inv, Sync;
  }

  lemma BeginDirs(h: Hash, c: Plan, s: State)
    requires WellNamed(s) && Tree(s.files, s.dirs) && c.sid !in s.sessions
    ensures DirsInv(c, Begin(h, c, s).recv)
  {
    hide WellNamed, Tree;
    StepStaysNamed(h, s, Start(c.sid, c.manifest, true));
  }

  // ----- the theorem ------------------------------------------------------------------------------

  /** Entry k of the plan is on the receiver's disk: the directory exists, or the file holds the source bytes. */
  predicate Arrived(c: Plan, s: State, k: nat)
    requires k < |c.manifest| == |c.sources| && c.sid in s.sessions
  {
    var sess := s.sessions[c.sid];
    if c.manifest[k].isDir then c.manifest[k].relPath in s.dirs
    else k in sess.slots && sess.slots[k] in s.files && s.files[sess.slots[k]] == c.sources[k]
  }

  /** The entry is a file, or a directory whose path is not removable. */
  predicate Firm(meta: FileMeta) {
    !meta.isDir || !Removable(meta.relPath)
  }

  /** The entry is firm, or a firm one lies below it. */
  ghost predicate Anchored(c: Plan, k: nat)
    requires k < |c.manifest|
  {
    Firm(c.manifest[k])
    || exists l: nat :: l < |c.manifest| && Firm(c.manifest[l]) && c.manifest[k].relPath in Leading(Front(c.manifest[l].relPath))
  }

  /** Whatever earlier sessions did, on a disk that was a file tree, leaves a state that the theorem is about. */
  lemma EarlierRunsAreFine(h: Hash, s: State, events: seq<Event>)
    requires Initial(s) && Tree(s.files, s.dirs) && AllAdmissible(events)
    ensures var s' := Run(h, s, events); Inv(h, s') && WellNamed(s') && Tree(s'.files, s'.dirs)
  {
    hide Run, Tree, Safe;
    InitialIsSafe(s);
    RunKeepsInv(h, s, events);
    RunStaysNamed(h, s, events);
    RunIsTree(h, s, events);
  }

  /** Everything has arrived, but perhaps directories that are bare, removable, and have nothing firm below them. */
  ghost predicate Complete(c: Plan, s: State)
    requires |c.manifest| == |c.sources|
  {
    && c.sid in s.sessions && OneEach(s.sessions[c.sid])
    && (forall k: nat | k < |c.manifest| && Anchored(c, k) :: Arrived(c, s, k))
    && (forall k: nat | k < |c.manifest| && !Arrived(c, s, k) ::
          c.manifest[k].isDir && Removable(c.manifest[k].relPath) && Bare(s, c.manifest[k].relPath))
  }

  /**
   * End to end. From any state that earlier attempts, cut anywhere, may have left, if SendFiles returns without an
   * error then every file of its manifest has arrived, each at a place of its own, with exactly the bytes of its
   * source; so has every directory whose path is not removable or has a firm entry below it; and a directory that
   * has not is bare and removable. It is still so however the run goes on.
   */
  lemma SentMeansArrived(h: Hash, c: Plan, s: State, events: seq<JointEvent>)
    requires CollisionFree(h) && Inv(h, s) && WellNamed(s) && Tree(s.files, s.dirs)
    requires WellPlanned(h, c) && c.manifest != [] && c.sid !in s.sessions && |c.manifest| == |c.sources|
    requires AllAllowed(events) && JointRun(h, c, Begin(h, c, s), events).pc.Done?
    ensures Complete(c, JointRun(h, c, Begin(h, c, s), events).recv)
  {
    hide Inv, WellNamed, Tree, JointRun, Begin, Removable, Anchored, Arrived, Firm, Bare;
    var j0 := Begin(h, c, s);
    var j := JointRun(h, c, j0, events);
    BeginInv(h, c, s);
    BeginDirs(h, c, s);
    JointRunKeepsDirs(h, c, j0, events);
    var sess := j.recv.sessions[c.sid];
    FullCount(sess.completed, |c.manifest|);
    forall k: nat | k < |c.manifest|
      ensures Anchored(c, k) ==> Arrived(c, j.recv, k)
      ensures !Arrived(c, j.recv, k) ==>
                c.manifest[k].isDir && Removable(c.manifest[k].relPath) && Bare(j.recv, c.manifest[k].relPath)
    {
      EntryArrived(h, c, j, k);
      if Anchored(c, k) { AnchoredArrived(h, c, j, k); }
    }
  }

  lemma EntryArrived(h: Hash, c: Plan, j: Joint, k: nat)
    requires CollisionFree(h) && JointInv(h, c, j) && DirsInv(c, j.recv) && !j.pc.Failed?
    requires k < |c.manifest| == |c.sources| && k in j.recv.sessions[c.sid].completed
    ensures Firm(c.manifest[k]) ==> Arrived(c, j.recv, k)
    ensures !Arrived(c, j.recv, k) ==>
              c.manifest[k].isDir && Removable(c.manifest[k].relPath) && Bare(j.recv, c.manifest[k].relPath)
  {
    hide Inv, Legal, TempName, WellNamed, Tree, Removable, Bare;
    var sess := j.recv.sessions[c.sid];
    Facts(h, j.recv, c.sid);
    if !c.manifest[k].isDir {
      SlotFacts(h, j.recv, c.sid, k);
      DeliveredFits(h, j.recv, sess.slots[k]);
    } else if c.manifest[k].relPath !in j.recv.dirs {
      MissingIsBare(j.recv, c.manifest[k].relPath);
    }
  }

  lemma DeliveredFits(h: Hash, s: State, p: Path)
    requires Inv(h, s) && p in s.delivered
    ensures p in s.files && FitsEntry(h, s.files[p], s.delivered[p])
  {
    hide SessOk;
  }

  /** A file asked for under a relative path is in the directory of that path. */
  lemma SlotBelow(s: State, sid: Sid, l: nat)
    requires WellNamed(s) && sid in s.sessions && l in s.sessions[sid].slots && l < |s.sessions[sid].manifest|
    requires var rel := s.sessions[sid].manifest[l].relPath; ValidRelPath(rel)
    ensures Front(s.sessions[sid].slots[l]) == Front(s.sessions[sid].manifest[l].relPath)
  {
    hide Candidate, Split, Legal;
    var d, meta := s.sessions[sid].slots[l], s.sessions[sid].manifest[l];
    assert NamedFor(d, meta);
    var n: nat :| d == Candidate(WantedName(meta).value, n);
    ValidIsNotEmpty(meta.relPath);
    CandidateIsLegal(meta.relPath, n);
  }

  lemma AnchoredArrived(h: Hash, c: Plan, j: Joint, k: nat)
    requires CollisionFree(h) && JointInv(h, c, j) && DirsInv(c, j.recv) && !j.pc.Failed?
    requires k < |c.manifest| == |c.sources| && Anchored(c, k)
    requires forall l: nat | l < |c.manifest| :: l in j.recv.sessions[c.sid].completed
    ensures Arrived(c, j.recv, k)
  {
    hide Inv, WellNamed, Tree, Removable, Firm, Leading, Front, Arrived, Sync, DirsInv;
    EntryArrived(h, c, j, k);
    if !Firm(c.manifest[k]) {
      var l: nat :| l < |c.manifest| && Firm(c.manifest[l]) && c.manifest[k].relPath in Leading(Front(c.manifest[l].relPath));
      EntryArrived(h, c, j, l);
      ArrivedLeads(h, c, j, l);
      NotFirmIsDir(c, j.recv, k);
    }
  }

  lemma NotFirmIsDir(c: Plan, s: State, k: nat)
    requires k < |c.manifest| == |c.sources| && !Firm(c.manifest[k]) && c.sid in s.sessions
    ensures Arrived(c, s, k) <==> c.manifest[k].relPath in s.dirs
  {
  }

  /** The directories on the way to an entry that has arrived are there. */
  lemma ArrivedLeads(h: Hash, c: Plan, j: Joint, l: nat)
    requires JointInv(h, c, j) && DirsInv(c, j.recv) && !j.pc.Failed? && l < |c.manifest| == |c.sources| && Arrived(c, j.recv, l)
    ensures Leading(Front(c.manifest[l].relPath)) <= j.recv.dirs
  {
    hide Inv, WellNamed, Tree, Leading, Front, ValidRelPath;
    var s, meta := j.recv, c.manifest[l];
    if meta.isDir {
      TreeLeads(s.files, s.dirs, meta.relPath);
    } else {
      var d := s.sessions[c.sid].slots[l];
      TreeLeads(s.files, s.dirs, d);
      if ValidRelPath(meta.relPath) { SlotBelow(s, c.sid, l); } else { NoLeading(s, c.sid, l); }
    }
  }

  lemma NoLeading(s: State, sid: Sid, l: nat)
    requires WellNamed(s) && sid in s.sessions && l in s.sessions[sid].slots && l < |s.sessions[sid].manifest|
    requires !ValidRelPath(s.sessions[sid].manifest[l].relPath)
    ensures Leading(Front(s.sessions[sid].manifest[l].relPath)) == {}
  {
    hide Candidate, ValidRelPath, SanitizeName;
    assert NamedFor(s.sessions[sid].slots[l], s.sessions[sid].manifest[l]);
    assert Front("") == [];
    NothingLeads();
  }
}
