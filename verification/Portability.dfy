/** What is made for relative paths, in every run, can be made on every platform. */
module Portability {
  import opened Basics
  import opened Names
  import opened Receiver
  import opened ReceiverSafety
  import opened ReceiverRuns
  import opened Confinement
  import opened Overwrites

  // ----- new directories ----------------------------------------------------------------

  /** The directories that are new lead to some valid relative path. */
  ghost predicate MadeFor(dirs: set<Path>, dirs': set<Path>) {
    forall p | p in dirs' && p !in dirs :: LeadsToValid(p)
  }

  ghost predicate LeadsToValid(p: Path) {
    exists rel: string :: ValidRelPath(rel) && p in Leading(Split(rel))
  }

  lemma CreateMakesFor(files: Files, dirs: set<Path>, rel: string)
    ensures MadeFor(dirs, CreateDirectory(files, dirs, rel).dirs)
  {
    hide Split, Leading, MakeDirs, ValidRelPath;
    if ValidRelPath(rel) { MakeDirsExactly(files, dirs, Split(rel)); }
  }

  lemma ReserveMakesFor(s: State, meta: FileMeta)
    ensures MadeFor(s.dirs, Reserve(s, meta).dirs)
  {
    hide CreateDirectory, FreeName, Occupied, Join, SanitizeName, ValidRelPath, Split, Leading, LeadsToValid;
    if WantedName(meta).Some? {
      CreateMakesFor(s.files, s.dirs, Join(Split(WantedName(meta).value)[..|Split(WantedName(meta).value)| - 1]));
    }
  }

  lemma StepMakesFor(h: Hash, s: State, e: Event)
    ensures MadeFor(s.dirs, Step(h, s, e).state.dirs)
  {
    hide AdvanceStep, FrameStep, SidecarMatches, Swept, LeadsToValid;
    SweptIsLess(s.files, s.dirs);
    match e
    case Advance(sid) => if Ready(s, sid) { WorkMakesFor(s, sid); }
    case Recv(sid, frame) => if Ready(s, sid) { FrameMakesFor(h, s, sid, frame); }
    case _ =>
  }

  lemma SweptIsLess(files: Files, dirs: set<Path>)
    ensures forall paths :: Swept(files, dirs, paths) <= dirs
  {
  }

  lemma WorkMakesFor(s: State, sid: Sid)
    requires Ready(s, sid)
    ensures MadeFor(s.dirs, AdvanceStep(s, sid, s.sessions[sid]).state.dirs)
  {
    hide Reserve, PartialLen, HasPartial, SidecarMatches, Lower, HasParent, EmptyDir, LeadsToValid;
    var sess := s.sessions[sid];
    if sess.phase.QueryReserve? || sess.phase.Reserving? { ReserveMakesFor(s, sess.manifest[sess.phase.index]); }
  }

  lemma FrameMakesFor(h: Hash, s: State, sid: Sid, frame: Frame)
    requires Ready(s, sid)
    ensures MadeFor(s.dirs, FrameStep(h, s, sid, s.sessions[sid], frame).state.dirs)
  {
    hide EmptyDir, CreateDirectory, EqualFold, LeadsToValid;
    var sess := s.sessions[sid];
    if sess.phase.DirEntry? { CreateMakesFor(s.files, s.dirs, sess.manifest[sess.phase.index].relPath); }
  }

  // ----- every run -------------------------------------------------------------------------

  /** A destination of an entry that comes with a relative path holds no other characters than that path, but " (n)". */
  lemma NamedIsPortable(d: Path, meta: FileMeta)
    requires NamedFor(d, meta) && meta.relPath != ""
    ensures Portable(d)
  {
    hide Candidate, ValidRelPath;
    ValidIsPortable(meta.relPath);
    var k: nat :| d == Candidate(meta.relPath, k);
    CandidateIsPortable(meta.relPath, k);
  }

  lemma CandidateIsPortable(name: string, k: nat)
    requires Portable(name)
    ensures Portable(Candidate(name, k))
  {
    CounterIsPortable(k);
    StemExt(name);
  }

  lemma CounterIsPortable(k: nat)
    ensures Portable(Counter(k))
  {
    var d := Decimal(k);
    assert forall i | 0 <= i < |d| :: d[i] in DIGITS;
  }

  /**
   * In every run, with any manifests: each directory the receiver makes, and each destination it grants to an entry
   * that comes with a relative path, is free of backslash, colon and NUL.
   */
  lemma {:induction false} PathsArePortable(h: Hash, s: State, events: seq<Event>)
    requires WellNamed(s)
    ensures var s' := Run(h, s, events);
            && (forall p | p in s'.dirs && p !in s.dirs :: Portable(p))
            && (forall a, i | a in s'.sessions && i in s'.sessions[a].slots ::
                  i < |s'.sessions[a].manifest|
                  && (s'.sessions[a].manifest[i].relPath != "" ==> Portable(s'.sessions[a].slots[i])))
  {
    hide Step, Portable, WellNamed;
    RunStaysNamed(h, s, events);
    SlotsArePortable(Run(h, s, events));
    if events != [] {
      var before := Run(h, s, events[..|events| - 1]);
      PathsArePortable(h, s, events[..|events| - 1]);
      StepMakesFor(h, before, events[|events| - 1]);
      forall p | LeadsToValid(p) ensures Portable(p) { LeadingToValid(p); }
    }
  }

  lemma LeadingToValid(p: Path)
    requires LeadsToValid(p)
    ensures Portable(p)
  {
    hide ValidRelPath, Split, Leading;
    var rel: string :| ValidRelPath(rel) && p in Leading(Split(rel));
    LeadingIsPortable(rel, p);
  }

  lemma SlotsArePortable(s: State)
    requires WellNamed(s)
    ensures forall a, i | a in s.sessions && i in s.sessions[a].slots ::
              i < |s.sessions[a].manifest| && (s.sessions[a].manifest[i].relPath != "" ==> Portable(s.sessions[a].slots[i]))
  {
    hide NamedFor, Portable;
    forall a, i | a in s.sessions && i in s.sessions[a].slots
      ensures i < |s.sessions[a].manifest|
      ensures s.sessions[a].manifest[i].relPath != "" ==> Portable(s.sessions[a].slots[i])
    {
      if s.sessions[a].manifest[i].relPath != "" { NamedIsPortable(s.sessions[a].slots[i], s.sessions[a].manifest[i]); }
    }
  }

  /** An entry whose relative path has an unsafe component is refused: no slot, no directory, nothing changes. */
  lemma UnsafeIsRefused(s: State, meta: FileMeta, parts: seq<string>, k: nat)
    requires k < |parts| && meta.relPath == Join(parts) && meta.relPath != "" && (forall i | 0 <= i < |parts| :: '/' !in parts[i])
    requires !SafePart(parts[k])
    ensures Reserve(s, meta) == Refused(s.dirs) && CreateDirectory(s.files, s.dirs, meta.relPath) == DirResult(false, s.dirs)
  {
    hide Join, ValidRelPath;
    ValidWhenSafe(parts);
  }

  // ----- directory entries ----------------------------------------------------------------------

  /** The end of a directory entry is in order, and its directory can be made. */
  ghost predicate DirectoryOk(s: State, meta: FileMeta, i: nat, frame: Frame) {
    && frame == FileEnd(i, 0) && meta.size == 0 && meta.sha == []
    && (exists parts: seq<string> :: SafeParts(parts) && meta.relPath == Join(parts))
    && forall p | p in s.files :: p !in Leading(Split(meta.relPath))
  }

  /**
   * A directory entry is acknowledged if and only if its end comes next and carries nothing, the entry has no size and
   * no digest, its path is safe, and no file is on the way; then all of its directories are there. Otherwise the
   * session ends. No file changes.
   */
  lemma DirectoryEntryIs(h: Hash, s: State, sid: Sid, frame: Frame)
    requires Ready(s, sid) && s.sessions[sid].phase.DirEntry?
    ensures var o, sess := Step(h, s, Recv(sid, frame)), s.sessions[sid];
            var i := sess.phase.index;
            var meta, ok := sess.manifest[i], DirectoryOk(s, sess.manifest[i], i, frame);
            && o.replies == [Ack(i, ok)] && o.state.files == s.files && o.state.claims == s.claims
            && o.state.sessions == s.sessions[sid := if ok then sess.(completed := sess.completed + {i}, phase := Idle)
                                                     else sess.(phase := Ended(false))]
            && (ok ==> o.state.dirs == s.dirs + Leading(Split(meta.relPath)))
  {
    hide MakeDirs, Split, Join, Leading, ValidRelPath, IdleFrame, BodyFrame;
    var rel := s.sessions[sid].manifest[s.sessions[sid].phase.index].relPath;
    ValidIs(rel);
    MakeDirsExactly(s.files, s.dirs, Split(rel));
  }
}
