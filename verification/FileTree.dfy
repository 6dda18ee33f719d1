/** The disk is a file tree, before and after every step. */
module FileTree {
  import opened Basics
  import opened Names
  import opened Receiver
  import opened ReceiverSafety
  import opened ReceiverRuns
  import opened Confinement

  // ----- the disk is a tree ------------------------------------------------------------------

  /** Nothing is both a file and a directory, and everything lies in a directory that is there. */
  predicate Tree(files: Files, dirs: set<Path>) {
    files.Keys !! dirs && forall p | p in files.Keys + dirs :: HasParent(dirs, p)
  }

  lemma BelowParent(p: Path)
    requires |Split(p)| > 1
    ensures Join(Front(p)) + "/" <= p
  {
    hide Split, Join;
    JoinSplit(p);
    var parts := Split(p);
    assert Front(p) + [parts[|parts| - 1]] == parts;
    JoinSnoc(Front(p), parts[|parts| - 1]);
  }

  lemma SweptIsTree(files: Files, dirs: set<Path>, paths: set<Path>)
    requires Tree(files, dirs)
    ensures Tree(files, Swept(files, dirs, paths))
  {
    hide Split, Join, Front;
    var dirs' := Swept(files, dirs, paths);
    forall p | p in files.Keys + dirs' ensures HasParent(dirs', p) {
      assert p in files.Keys + dirs && HasParent(dirs, p);
      if |Split(p)| > 1 { BelowParent(p); }
    }
  }

  lemma FewerIsTree(files: Files, dirs: set<Path>, files': Files)
    requires Tree(files, dirs) && files'.Keys <= files.Keys
    ensures Tree(files', dirs)
  {
    hide HasParent;
    assert forall p | p in files'.Keys + dirs :: p in files.Keys + dirs;
  }

  lemma AddedIsTree(files: Files, dirs: set<Path>, p: Path, bytes: Bytes)
    requires Tree(files, dirs) && p !in dirs && (p in files || HasParent(dirs, p))
    ensures Tree(files[p := bytes], dirs)
  {
    hide HasParent;
    assert p in files ==> p in files.Keys + dirs;
    forall q | q in files[p := bytes].Keys + dirs ensures HasParent(dirs, q) {
      assert q == p || q in files.Keys + dirs;
    }
  }

  lemma {:induction false} MadeIsTree(files: Files, dirs: set<Path>, parts: seq<string>)
    requires Tree(files, dirs) && forall k | 0 <= k < |parts| :: '/' !in parts[k]
    ensures var r := MakeDirs(files, dirs, parts); Tree(files, r.dirs) && (r.ok && parts != [] ==> Join(parts) in r.dirs)
  {
    hide Split, Join, HasParent;
    if parts != [] {
      var front := parts[..|parts| - 1];
      MadeIsTree(files, dirs, front);
      var r := MakeDirs(files, dirs, front);
      if r.ok && Join(parts) !in files {
        NewDirHasParent(r.dirs, parts);
        var dirs' := r.dirs + {Join(parts)};
        forall p | p in files.Keys + dirs' ensures HasParent(dirs', p) {
          if p in files.Keys + r.dirs { assert HasParent(r.dirs, p); MoreDirs(r.dirs, dirs', p); }
        }
      }
    }
  }

  lemma MoreDirs(dirs: set<Path>, dirs': set<Path>, p: Path)
    requires HasParent(dirs, p) && dirs <= dirs'
    ensures HasParent(dirs', p)
  {
  }

  lemma NewDirHasParent(dirs: set<Path>, parts: seq<string>)
    requires parts != [] && forall k | 0 <= k < |parts| :: '/' !in parts[k]
    requires |parts| > 1 ==> Join(parts[..|parts| - 1]) in dirs
    ensures HasParent(dirs + {Join(parts)}, Join(parts))
  {
    hide Split, Join;
    SplitJoin(parts);
  }

  lemma CreatedIsTree(files: Files, dirs: set<Path>, rel: string)
    requires Tree(files, dirs)
    ensures Tree(files, CreateDirectory(files, dirs, rel).dirs)
  {
    hide Split, Join, Tree, ValidRelPath, MakeDirs;
    JoinSplit(rel);
    MadeIsTree(files, dirs, Split(rel));
  }

  lemma ReservedIsTree(s: State, meta: FileMeta)
    requires Tree(s.files, s.dirs)
    ensures Tree(s.files, Reserve(s, meta).dirs)
  {
    hide CreateDirectory, Split, Join, FreeName, WantedName, Occupied, Tree;
    if WantedName(meta).Some? {
      var parts := Split(WantedName(meta).value);
      CreatedIsTree(s.files, s.dirs, Join(parts[..|parts| - 1]));
    }
  }

  // ----- every step keeps it a tree --------------------------------------------------------------

  lemma RemovedIsTree(s: State, d: Path)
    requires Tree(s.files, s.dirs)
    ensures Tree(Removed(s, d).files, Removed(s, d).dirs)
  {
    hide Tree, Swept;
    SweptIsTree(s.files, s.dirs, {Tmp(d), Sidecar(d)});
    FewerIsTree(s.files, Swept(s.files, s.dirs, {Tmp(d), Sidecar(d)}), RemovePart(s.files, d));
  }

  lemma ProbedIsTree(s: State, d: Path, meta: FileMeta)
    requires Tree(s.files, s.dirs)
    ensures Tree(Probed(s, d, meta).files, Probed(s, d, meta).dirs)
  {
    hide Tree, Swept, HasPartial, SidecarMatches, RemovePart;
    RemovedIsTree(s, d);
  }

  /** A destination and its temporaries are in the same directory. */
  lemma SameParent(dirs: set<Path>, d: Path)
    ensures HasParent(dirs, Tmp(d)) == HasParent(dirs, d) == HasParent(dirs, Sidecar(d))
  {
    hide Split, Join;
    SplitAppend(d, PART);
    SplitAppend(d, PART + META);
    ConcatAssoc(d, PART, META);
    var r := Split(d);
    assert Split(Tmp(d)) == r[..|r| - 1] + [r[|r| - 1] + PART];
    assert Split(Sidecar(d)) == r[..|r| - 1] + [r[|r| - 1] + (PART + META)];
    assert Front(Tmp(d)) == Front(d) == Front(Sidecar(d));
  }

  lemma OpenedIsTree(s: State, sid: Sid, sess: Session, i: nat, offset: nat)
    requires Tree(s.files, s.dirs) && i in sess.slots && i < |sess.manifest|
    ensures var s' := OpenPart(s, sid, sess, i, offset).state; Tree(s'.files, s'.dirs)
  {
    hide HasParent, Lower;
    var d := sess.slots[i];
    var s' := OpenPart(s, sid, sess, i, offset).state;
    if s'.files != s.files {
      var seed := if offset > 0 then s.files[Tmp(d)] else [];
      SameParent(s.dirs, d);
      assert Tmp(d) in s.files ==> Tmp(d) in s.files.Keys + s.dirs;
      AddedIsTree(s.files, s.dirs, Tmp(d), seed);
      if Sidecar(d) !in s.dirs { AddedIsTree(s.files[Tmp(d) := seed], s.dirs, Sidecar(d), Lower(sess.manifest[i].sha)); }
    }
  }

  lemma RenamedIsTree(s: State, sid: Sid, sess: Session, i: nat)
    requires Tree(s.files, s.dirs) && i in sess.slots && i < |sess.manifest|
    ensures var s' := RenamePart(s, sid, sess, i).state; Tree(s'.files, s'.dirs)
  {
    hide HasParent, Removed, Tree;
    var d := sess.slots[i];
    if Tmp(d) !in s.files || d in s.dirs {
      RemovedIsTree(s, d);
    } else {
      SameParent(s.dirs, d);
      assert HasParent(s.dirs, Tmp(d)) by { InTree(s.files, s.dirs, Tmp(d)); }
      FewerIsTree(s.files, s.dirs, s.files - {Tmp(d)});
      AddedIsTree(s.files - {Tmp(d)}, s.dirs, d, s.files[Tmp(d)]);
    }
  }

  lemma InTree(files: Files, dirs: set<Path>, p: Path)
    requires Tree(files, dirs) && p in files.Keys + dirs
    ensures HasParent(dirs, p)
  {
    hide HasParent;
  }

  lemma WorkIsTree(s: State, sid: Sid)
    requires Tree(s.files, s.dirs) && Ready(s, sid)
    ensures var s' := AdvanceStep(s, sid, s.sessions[sid]).state; Tree(s'.files, s'.dirs)
  {
    hide Tree, Reserve, Probed, OpenPart, RenamePart, PartialLen, Swept;
    var sess := s.sessions[sid];
    match sess.phase
    case QueryReserve(i) => ReservedIsTree(s, sess.manifest[i]);
    case Reserving(i) => ReservedIsTree(s, sess.manifest[i]);
    case QueryProbe(i) => ProbedIsTree(s, sess.slots[i], sess.manifest[i]);
    case Probing(i) => ProbedIsTree(s, sess.slots[i], sess.manifest[i]);
    case Opening(i, offset) => OpenedIsTree(s, sid, sess, i, offset);
    case Renaming(i) => RenamedIsTree(s, sid, sess, i);
    case Cleaning(i) =>
      var side := Sidecar(sess.slots[i]);
      SweptIsTree(s.files, s.dirs, {side});
      FewerIsTree(s.files, Swept(s.files, s.dirs, {side}), s.files - {side});
    case _ =>
  }

  lemma FrameIsTree(h: Hash, s: State, sid: Sid, frame: Frame)
    requires Tree(s.files, s.dirs) && Ready(s, sid)
    ensures var s' := FrameStep(h, s, sid, s.sessions[sid], frame).state; Tree(s'.files, s'.dirs)
  {
    hide Tree, CreateDirectory, EqualFold, Removed;
    var sess := s.sessions[sid];
    if sess.phase.DirEntry? { CreatedIsTree(s.files, s.dirs, sess.manifest[sess.phase.index].relPath); }
    if sess.phase.Body? { RemovedIsTree(s, sess.slots[sess.phase.index]); }
  }

  lemma DataIsTree(h: Hash, s: State, sid: Sid, bytes: Bytes)
    requires Inv(h, s) && Tree(s.files, s.dirs) && Ready(s, sid) && s.sessions[sid].phase.Body? && |bytes| <= s.sessions[sid].phase.left
    ensures var s' := BodyData(s, sid, s.sessions[sid], bytes).state; Tree(s'.files, s'.dirs)
  {
    hide Tree, Inv;
    Facts(h, s, sid);
    var tmp := Tmp(s.sessions[sid].slots[s.sessions[sid].phase.index]);
    NotDir(s.files, s.dirs, tmp);
    AddedIsTree(s.files, s.dirs, tmp, s.files[tmp] + bytes);
  }

  lemma NotDir(files: Files, dirs: set<Path>, p: Path)
    requires Tree(files, dirs) && p in files
    ensures p !in dirs
  {
  }

  lemma StepIsTree(h: Hash, s: State, e: Event)
    requires Inv(h, s) && Tree(s.files, s.dirs)
    ensures var s' := Step(h, s, e).state; Tree(s'.files, s'.dirs)
  {
    hide Tree, Inv, AdvanceStep, FrameStep, BodyData, Removed, SidecarMatches;
    match e
    case Advance(sid) => if Ready(s, sid) { WorkIsTree(s, sid); }
    case Recv(sid, frame) => if Ready(s, sid) { FrameIsTree(h, s, sid, frame); }
    case Data(sid, bytes) =>
      if Ready(s, sid) && s.sessions[sid].phase.Body? && 0 < |bytes| <= s.sessions[sid].phase.left { DataIsTree(h, s, sid, bytes); }
    case ProbeDir(sid, size) =>
      if Ready(s, sid) && (s.sessions[sid].phase.QueryProbe? || s.sessions[sid].phase.Probing?) {
        RemovedIsTree(s, s.sessions[sid].slots[s.sessions[sid].phase.index]);
      }
    case _ =>
  }

  /** From a disk that is a file tree, in every interleaving, the disk stays one. */
  lemma {:induction false} RunIsTree(h: Hash, s: State, events: seq<Event>)
    requires Inv(h, s) && AllAdmissible(events) && Tree(s.files, s.dirs)
    ensures var s' := Run(h, s, events); Tree(s'.files, s'.dirs)
  {
    hide Tree, Inv, Step;
    if events != [] {
      var before := events[..|events| - 1];
      RunIsTree(h, s, before);
      RunKeepsInv(h, s, before);
      StepIsTree(h, Run(h, s, before), events[|events| - 1]);
    }
  }

  /** In a tree every directory on the way to a path is there. */
  lemma {:induction false} TreeLeads(files: Files, dirs: set<Path>, p: Path)
    requires Tree(files, dirs) && p in files.Keys + dirs
    ensures Leading(Front(p)) <= dirs
    decreases |Split(p)|
  {
    hide Split, Join, HasParent;
    InTree(files, dirs, p);
    JoinSplit(p);
    if |Split(p)| > 1 {
      var parent := Join(Front(p));
      ParentIsDir(dirs, p);
      SplitJoin(Front(p));
      TreeLeads(files, dirs, parent);
      LeadingSnoc(Front(p));
    } else {
      assert Front(p) == [];
      NothingLeads();
    }
  }

  lemma ParentIsDir(dirs: set<Path>, p: Path)
    requires HasParent(dirs, p) && |Split(p)| > 1
    ensures Join(Front(p)) in dirs
  {
  }

  lemma NothingLeads()
    ensures Leading([]) == {}
  {
  }
}
