/**
 * The only directories a step removes are empty ones that sit where the part file or the sidecar of an unreserved
 * destination goes; and it removes no other files than such part files and sidecars.
 */
module Removals {
  import opened Basics
  import opened Names
  import opened Receiver
  import opened ReceiverSafety
  import opened ReceiverRuns
  import opened Confinement
  import opened FileTree
  import opened Resume
  import opened Overwrites

  // ----- paths that can go away --------------------------------------------------------

  /** A destination that a transfer of an unreserved name can have. */
  predicate PlainDest(d: Path) {
    Legal(d) && !Reserved(d)
  }

  /** p is the part file or the sidecar of such a destination. */
  predicate Removable(p: Path) {
    || (EndsWith(p, PART) && PlainDest(p[..|p| - |PART|]))
    || (EndsWith(p, PART + META) && PlainDest(p[..|p| - |PART + META|]))
  }

  lemma RemovableIs(p: Path)
    ensures Removable(p) <==> exists d :: PlainDest(d) && (p == Tmp(d) || p == Sidecar(d))
  {
    hide PlainDest;
    forall d | PlainDest(d) && (p == Tmp(d) || p == Sidecar(d)) ensures Removable(p) {
      assert Sidecar(d) == d + (PART + META);
      assert p == Tmp(d) ==> p[..|p| - |PART|] == d && EndsWith(p, PART);
      assert p == Sidecar(d) ==> p[..|p| - |PART + META|] == d && EndsWith(p, PART + META);
    }
    if EndsWith(p, PART) && PlainDest(p[..|p| - |PART|]) {
      assert p == Tmp(p[..|p| - |PART|]);
    }
    if EndsWith(p, PART + META) && PlainDest(p[..|p| - |PART + META|]) {
      var d := p[..|p| - |PART + META|];
      assert p == d + (PART + META);
      ConcatAssoc(d, PART, META);
      assert p == Sidecar(d);
    }
  }

  lemma WorkingIsPlain(h: Hash, s: State, sid: Sid)
    requires Inv(h, s) && WellNamed(s) && WorkingOn(s, sid).Some?
    ensures var d := WorkingOn(s, sid).value;
            PlainDest(d) && (s.sessions[sid].phase.Renaming? ==> d !in s.files)
  {
    hide Inv, Legal, TempName, Reserved, Candidate;
    var sess := s.sessions[sid];
    var i := sess.phase.index;
    WorkingIsLive(h, s, sid, i);
    Facts(h, s, sid);
    CleanFacts(h, s, sid);
    var d, meta := sess.slots[i], sess.manifest[i];
    assert NamedFor(d, meta);
    var k: nat :| d == Candidate(WantedName(meta).value, k);
    UnreservedStaysUnreserved(WantedName(meta).value, k);
  }

  /** No step removes a file that is not a part file or sidecar of an unreserved destination. */
  lemma FileStays(h: Hash, s: State, e: Event, p: Path)
    requires Inv(h, s) && WellNamed(s) && p in s.files && !Removable(p)
    ensures p in Step(h, s, e).state.files
  {
    hide Inv, Step, SessOk, Legal, TempName, Removable, Reserved, WellNamed;
    StepTouches(h, s, e);
    if WorkingOn(s, e.sid).Some? {
      var d := WorkingOn(s, e.sid).value;
      WorkingIsPlain(h, s, e.sid);
      RemovableIs(p);
      assert SameAt(s.files, Step(h, s, e).state.files, p);
    }
  }

  /** Nor does any step remove a directory at such a path, or one that is not empty. */
  lemma DirStays(h: Hash, s: State, e: Event, p: Path)
    requires Inv(h, s) && WellNamed(s) && p in s.dirs
    ensures p in Step(h, s, e).state.dirs || (Removable(p) && EmptyDir(s.files, s.dirs, p))
  {
    hide Inv, Step, Removable, WellNamed, EmptyDir;
    StepSweeps(h, s, e);
    if p !in Step(h, s, e).state.dirs {
      WorkingIsPlain(h, s, e.sid);
      RemovableIs(p);
    }
  }

  /** What is gone was empty, and one of the temporaries the session was working on. */
  predicate SweepsOnly(s: State, s': State, sid: Sid) {
    forall p | p in s.dirs && p !in s'.dirs ::
      && EmptyDir(s.files, s.dirs, p)
      && WorkingOn(s, sid).Some? && p in {Tmp(WorkingOn(s, sid).value), Sidecar(WorkingOn(s, sid).value)}
  }

  lemma GrownIsKept(s: State, s': State)
    requires DirsGrow(s, s')
    ensures s.dirs <= s'.dirs
  {
    assert forall p | p in s.dirs :: DirAt(s.files, s.dirs, s'.dirs, p);
  }

  lemma WorkSweeps(s: State, sid: Sid)
    requires Ready(s, sid)
    ensures SweepsOnly(s, AdvanceStep(s, sid, s.sessions[sid]).state, sid)
  {
    hide EmptyDir, Reserve, PartialLen, HasPartial, SidecarMatches, Lower, HasParent;
    var sess := s.sessions[sid];
    if sess.phase.QueryReserve? || sess.phase.Reserving? {
      ReserveGrows(s, sess.manifest[sess.phase.index]);
      GrownIsKept(s, s.(dirs := Reserve(s, sess.manifest[sess.phase.index]).dirs));
    }
  }

  lemma FrameSweeps(h: Hash, s: State, sid: Sid, frame: Frame)
    requires Ready(s, sid)
    ensures SweepsOnly(s, FrameStep(h, s, sid, s.sessions[sid], frame).state, sid)
  {
    hide EmptyDir, CreateDirectory, EqualFold;
    var sess := s.sessions[sid];
    if sess.phase.DirEntry? {
      var rel := sess.manifest[sess.phase.index].relPath;
      CreateGrows(s, rel);
      GrownIsKept(s, s.(dirs := CreateDirectory(s.files, s.dirs, rel).dirs));
    }
  }

  lemma StepSweeps(h: Hash, s: State, e: Event)
    ensures SweepsOnly(s, Step(h, s, e).state, e.sid)
  {
    hide EmptyDir, AdvanceStep, FrameStep, SidecarMatches;
    match e
    case Advance(sid) => if Ready(s, sid) { WorkSweeps(s, sid); }
    case Recv(sid, frame) => if Ready(s, sid) { FrameSweeps(h, s, sid, frame); }
    case _ =>
  }

  // ----- paths and their depth --------------------------------------------------------

  function Depth(p: Path): nat {
    |Split(p)|
  }

  lemma TempDepth(d: Path)
    ensures Depth(Tmp(d)) == Depth(d) && Front(Tmp(d)) == Front(d)
    ensures Depth(Sidecar(d)) == Depth(d) && Front(Sidecar(d)) == Front(d)
  {
    hide Split;
    SplitAppend(d, PART);
    SplitAppend(d, PART + META);
    ConcatAssoc(d, PART, META);
    var r := Split(d);
    assert Split(Tmp(d)) == r[..|r| - 1] + [r[|r| - 1] + PART];
    assert Split(Sidecar(d)) == r[..|r| - 1] + [r[|r| - 1] + (PART + META)];
  }

  /** A directory on the way to a path is one of its leading parts. */
  lemma LeadingParts(p: Path, m: nat, q: Path)
    requires m <= Depth(p) && q in Leading(Split(p)[..m])
    ensures 1 <= Depth(q) <= m && Split(q) == Split(p)[..Depth(q)]
  {
    hide Split, Join;
    JoinSplit(p);
    var k :| 1 <= k <= m && q == Join(Split(p)[..m][..k]);
    assert Split(p)[..m][..k] == Split(p)[..k];
    SplitJoin(Split(p)[..k]);
  }

  lemma DeeperDoesNotLead(p: Path, m: nat, q: Path)
    requires m <= Depth(p) && Depth(q) > m
    ensures q !in Leading(Split(p)[..m])
  {
    hide Split, Leading;
    if q in Leading(Split(p)[..m]) { LeadingParts(p, m, q); }
  }

  /** The temporaries of a path are not on the way to it. */
  lemma NotLeading(d: Path)
    ensures {d, Tmp(d), Sidecar(d)} !! Leading(Front(d))
  {
    hide Split, Leading;
    TempDepth(d);
    DeeperDoesNotLead(d, Depth(d) - 1, d);
    DeeperDoesNotLead(d, Depth(d) - 1, Tmp(d));
    DeeperDoesNotLead(d, Depth(d) - 1, Sidecar(d));
  }

  lemma SameParts(p: Path, q: Path)
    requires Split(p) == Split(q)
    ensures p == q
  {
    JoinSplit(p);
    JoinSplit(q);
  }

  /** A path that is free, with no file in the way of its directories, is granted as it is. */
  lemma FreePathIsGranted(s: State, meta: FileMeta)
    requires ValidRelPath(meta.relPath) && meta.relPath !in Occupied(s) && Leading(Front(meta.relPath)) !! s.files.Keys
    ensures Reserve(s, meta) == Granted(meta.relPath, s.dirs + Leading(Front(meta.relPath)))
  {
    hide Occupied, FreeName, Candidate, MakeDirs, Split, Join, Legal;
    var p := meta.relPath;
    CandidateZero(p);
    FreeNameIs(p, Occupied(s), 0);
    RelIsLegal(p);
    if |Split(p)| > 1 {
      ParentFacts(p);
      ParentIsValid(p);
      MakeDirsExactly(s.files, s.dirs, Front(p));
      assert CreateDirectory(s.files, s.dirs, Join(Front(p))) == MakeDirs(s.files, s.dirs, Front(p));
    } else {
      NothingLeads();
    }
  }

  lemma PrefixIsValid(p: Path, k: nat, d: Path)
    requires ValidRelPath(p) && 1 <= k <= Depth(p) && Legal(d) && d <= Join(Split(p)[..k])
    ensures ValidRelPath(d)
  {
    hide Split, Join, Legal;
    JoinSplit(p);
    JoinPrefix(Split(p), k);
    LegalIsNotEmpty(d);
    assert d <= p;
  }

  lemma {:induction false} JoinPrefix(parts: seq<string>, k: nat)
    requires 1 <= k <= |parts|
    ensures Join(parts[..k]) <= Join(parts)
    decreases |parts|
  {
    if k == |parts| {
      assert parts[..k] == parts;
    } else {
      var front := parts[..|parts| - 1];
      assert front[..k] == parts[..k];
      JoinPrefix(front, k);
    }
  }
}
