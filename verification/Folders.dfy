/**
 * A folder sent and received. The sender walks a tree into a manifest; the receiver, where the folder's name is
 * free, ends up with the same tree.
 */
module Folders {
  import opened Basics
  import opened Names
  import opened Receiver
  import opened FolderWalk
  import opened Confinement
  import A = Attempts
  import R = Resume
  import opened Overwrites

  // ----- what has been received so far --------------------------------------------------------

  function FilesOf(ns: seq<Node>, k: nat): Files
    requires k <= |ns|
  {
    if k == 0 then map[]
    else
      var n := ns[k - 1];
      if n.tree.File? then FilesOf(ns, k - 1)[n.path := n.tree.content] else FilesOf(ns, k - 1)
  }

  function DirsOf(ns: seq<Node>, k: nat): set<Path>
    requires k <= |ns|
  {
    set j | 0 <= j < k && !ns[j].tree.File? :: ns[j].path
  }

  function TmpsOf(ns: seq<Node>, k: nat): set<Path>
    requires k <= |ns|
  {
    set j | 0 <= j < k && ns[j].tree.File? :: Tmp(ns[j].path)
  }

  function SlotsOf(ns: seq<Node>, k: nat): map<nat, Path>
    requires k <= |ns|
  {
    map j: nat | j < k && ns[j].tree.File? :: ns[j].path
  }

  function FirstIndices(k: nat): set<nat> {
    if k == 0 then {} else FirstIndices(k - 1) + {k - 1}
  }

  lemma {:induction false} FirstIndicesAre(k: nat)
    ensures |FirstIndices(k)| == k && forall j: nat :: j in FirstIndices(k) <==> j < k
  {
    if k > 0 {
      FirstIndicesAre(k - 1);
    }
  }

  lemma {:induction false} FilesOfKeys(ns: seq<Node>, k: nat, p: Path)
    requires k <= |ns|
    ensures p in FilesOf(ns, k) <==> exists j :: 0 <= j < k && ns[j].tree.File? && ns[j].path == p
  {
    if k > 0 {
      FilesOfKeys(ns, k - 1, p);
      if p in FilesOf(ns, k - 1) {
        var j :| 0 <= j < k - 1 && ns[j].tree.File? && ns[j].path == p;
        assert 0 <= j < k;
      } else if ns[k - 1].tree.File? && ns[k - 1].path == p {
        assert p in FilesOf(ns, k);
      }
    }
  }

  // ----- the nodes as a list ----------------------------------------------------------------------

  /** What the walk of a sorted tree gives: valid paths under the root, parents first, no prefix later. */
  ghost predicate Listing(root: string, ns: seq<Node>) {
    && AllSendable(ns) && Ordered(ns) && '/' !in root
    && ns != [] && ns[0].path == root && ns[0].tree.Dir?
    && (forall k | 0 <= k < |ns| :: Under(ns[k].path, root))
    && (forall k | 0 < k < |ns| :: ParentAt(ns, k))
  }

  lemma WalkIsListing(root: string, t: Tree)
    requires Sorted(t) && t.Dir? && AllSendable(Walk(root, t)) && '/' !in root
    ensures Listing(root, Walk(root, t))
  {
    hide Walk, AllSendable, Ordered, Under, ParentAt, Sorted;
    WalkIsOrdered(root, t);
    WalkIsUnder(root, t);
    WalkHasParents(root, t);
    WalkFirst(root, t);
  }

  /** Nothing exists, and nothing is claimed, at or below the root. */
  ghost predicate RootIsFree(s: State, root: string) {
    forall p | p in s.files || p in s.dirs || p in s.claims :: !Under(p, root)
  }

  lemma UnderLonger(p: string, root: string, suffix: string)
    requires Under(p, root) && p != root
    ensures Under(p + suffix, root)
  {
    assert (p + suffix)[..|root| + 1] == p[..|root| + 1];
  }

  // ----- directories on the way ------------------------------------------------------------------

  lemma ChildSplits(p: string, path: string)
    requires IsChild(p, path)
    ensures Split(p) == Split(path) + [p[|path| + 1..]]
    ensures Leading(Split(p)) == Leading(Split(path)) + {p}
  {
    hide Split, Join;
    var name := p[|path| + 1..];
    assert p == path + "/" + name;
    SplitSlash(path, name);
    assert Split(p)[..|Split(p)| - 1] == Split(path);
    LeadingSnoc(Split(p));
    JoinSplit(p);
  }

  /** All directories that lead to a visited one were visited before. */
  lemma {:induction false} LeadingIsVisited(root: string, ns: seq<Node>, k: nat)
    requires Listing(root, ns) && k < |ns|
    ensures forall d | d in Leading(Split(ns[k].path)) :: d in DirsOf(ns, k) || d == ns[k].path
  {
    hide Split, Join, AllSendable, Ordered, IsChild, Under;
    if k == 0 {
      SplitPlain(root);
      LeadingOne(root);
    } else {
      assert ParentAt(ns, k);
      var j :| 0 <= j < k && ns[j].tree.Dir? && IsChild(ns[k].path, ns[j].path);
      LeadingIsVisited(root, ns, j);
      ChildSplits(ns[k].path, ns[j].path);
      assert DirsOf(ns, j) <= DirsOf(ns, k) && ns[j].path in DirsOf(ns, k);
    }
  }

  lemma LeadingOne(root: string)
    ensures Leading([root]) == {root}
  {
    assert [root][..1] == [root];
    assert Join([root][..1]) in Leading([root]);
  }

  // ----- the state after k entries ---------------------------------------------------------------

  /** The first k entries of the listing are in place, on top of s. */
  ghost predicate Received(h: Hash, s: State, ns: seq<Node>, sid: Sid, k: nat, now: State)
    requires k <= |ns|
  {
    && now.files == s.files + FilesOf(ns, k) && now.dirs == s.dirs + DirsOf(ns, k) && now.claims == s.claims + TmpsOf(ns, k)
    && sid in now.sessions
    && var sess := now.sessions[sid];
       && sess.phase == Idle && sess.resume && sess.manifest == Metas(h, ns) && sess.released == {}
       && sess.slots == SlotsOf(ns, k) && sess.completed == FirstIndices(k)
  }

  /** The path of entry k is not taken, and neither are its temporaries. */
  lemma NextIsFree(h: Hash, s: State, root: string, ns: seq<Node>, sid: Sid, k: nat, now: State)
    requires Listing(root, ns) && RootIsFree(s, root) && k < |ns| && Received(h, s, ns, sid, k, now)
    ensures var p := ns[k].path;
            && p !in now.files && p !in now.dirs && (k > 0 ==> Tmp(p) !in now.claims)
            && (k > 0 ==> Tmp(p) !in now.files && Sidecar(p) !in now.files && Tmp(p) !in now.dirs && Sidecar(p) !in now.dirs)
  {
    hide AllSendable, Under, ParentAt, FilesOf;
    var p := ns[k].path;
    FilesOfKeys(ns, k, p);
    FilesOfKeys(ns, k, Tmp(p));
    FilesOfKeys(ns, k, Sidecar(p));
    assert forall j | 0 <= j < k :: !(p <= ns[j].path);
    assert p <= p && p <= Tmp(p) && p <= Sidecar(p);
    assert Under(p, root);
    if k > 0 {
      assert root <= p by { UnderIsLonger(p, root); }
      assert p != root by { assert !(p <= ns[0].path); }
      UnderLonger(p, root, PART);
      UnderLonger(p, root, PART + META);
      ConcatAssoc(p, PART, META);
      forall j | 0 <= j < k ensures Tmp(ns[j].path) != Tmp(p) {
        assert ns[j].path != p;
        TempPathsDiffer(ns[j].path, p);
      }
    }
  }

  lemma UnderIsLonger(p: string, root: string)
    requires Under(p, root)
    ensures root <= p
  {
  }

  /** A directory on the way is no file. */
  lemma LeadingIsNoFile(h: Hash, s: State, root: string, ns: seq<Node>, sid: Sid, k: nat, now: State)
    requires Listing(root, ns) && RootIsFree(s, root) && k < |ns| && Received(h, s, ns, sid, k, now)
    ensures forall d | d in Leading(Split(ns[k].path)) :: d !in now.files
    ensures now.dirs + Leading(Split(ns[k].path)) <= now.dirs + {ns[k].path}
  {
    hide AllSendable, Under, ParentAt, FilesOf, Split, Leading;
    LeadingIsVisited(root, ns, k);
    NextIsFree(h, s, root, ns, sid, k, now);
    forall d | d in Leading(Split(ns[k].path)) ensures d !in now.files {
      if d != ns[k].path {
        var j :| 0 <= j < k && !ns[j].tree.File? && d == ns[j].path;
        FilesOfKeys(ns, k, d);
        assert Under(ns[j].path, root);
        forall i | 0 <= i < k && ns[i].tree.File? ensures ns[i].path != d {
          assert i < j ==> !(ns[j].path <= ns[i].path);
          assert j < i ==> !(ns[i].path <= ns[j].path);
        }
      }
    }
  }

  // ----- a directory entry arrives -----------------------------------------------------------------

  function DirEvents(sid: Sid, k: nat): seq<Event> {
    [Recv(sid, ResumeQuery(k)), Recv(sid, FileHeader(k)), Recv(sid, FileEnd(k, 0))]
  }

  lemma DirectoryIsMade(h: Hash, s: State, root: string, ns: seq<Node>, sid: Sid, k: nat, now: State)
    requires Listing(root, ns) && RootIsFree(s, root) && k < |ns| && Received(h, s, ns, sid, k, now)
    ensures CreateDirectory(now.files, now.dirs, ns[k].path) == DirResult(true, now.dirs + {ns[k].path})
  {
    hide Under, ParentAt, FilesOf, Split, Leading, Ordered, MakeDirs, ValidRelPath;
    var p := ns[k].path;
    assert Sendable(ns[k]);
    LeadingIsNoFile(h, s, root, ns, sid, k, now);
    MakeDirsExactly(now.files, now.dirs, Split(p));
    LeadingHasSelf(p);
  }

  lemma LeadingHasSelf(p: string)
    ensures p in Leading(Split(p))
  {
    hide Join, Split;
    JoinSplit(p);
    var parts := Split(p);
    assert parts[..|parts|] == parts;
    assert Join(parts[..|parts|]) in Leading(parts);
  }

  /** The three frames of a directory entry, at a session in any state. */
  lemma DirRuns(h: Hash, s: State, sid: Sid, k: nat)
    requires sid in s.sessions
    requires var sess := s.sessions[sid];
             && sess.phase == Idle && k < |sess.manifest| && k !in sess.completed
             && sess.manifest[k].isDir && sess.manifest[k].size == 0 && sess.manifest[k].sha == []
             && CreateDirectory(s.files, s.dirs, sess.manifest[k].relPath).ok
    ensures var sess := s.sessions[sid];
            Run(h, s, DirEvents(sid, k))
            == With(s.(dirs := CreateDirectory(s.files, s.dirs, sess.manifest[k].relPath).dirs), sid,
                    sess.(completed := sess.completed + {k}))
  {
    hide CreateDirectory, Run, Step;
    var sess := s.sessions[sid];
    var a, b, c := Recv(sid, ResumeQuery(k)), Recv(sid, FileHeader(k)), Recv(sid, FileEnd(k, 0));
    A.RunThree(h, s, a, b, c);
    DirHeader(h, s, sid, k);
    DirEnd(h, s, sid, k);
  }

  lemma DirHeader(h: Hash, s: State, sid: Sid, k: nat)
    requires sid in s.sessions && s.sessions[sid].phase == Idle && k < |s.sessions[sid].manifest|
    requires s.sessions[sid].manifest[k].isDir && k !in s.sessions[sid].completed
    ensures Step(h, s, Recv(sid, ResumeQuery(k))) == Outcome(s, [Offer(k, 0)])
    ensures Step(h, s, Recv(sid, FileHeader(k))) == Outcome(With(s, sid, s.sessions[sid].(phase := DirEntry(k))), [])
  {
    assert Ready(s, sid);
  }

  lemma DirEnd(h: Hash, s: State, sid: Sid, k: nat)
    requires sid in s.sessions && s.sessions[sid].phase == Idle && k < |s.sessions[sid].manifest|
    requires var meta := s.sessions[sid].manifest[k];
             meta.size == 0 && meta.sha == [] && CreateDirectory(s.files, s.dirs, meta.relPath).ok
    ensures var sess := s.sessions[sid];
            Step(h, With(s, sid, sess.(phase := DirEntry(k))), Recv(sid, FileEnd(k, 0))).state
            == With(s.(dirs := CreateDirectory(s.files, s.dirs, sess.manifest[k].relPath).dirs), sid,
                    sess.(completed := sess.completed + {k}))
  {
    hide CreateDirectory, IdleFrame, BodyFrame;
    var sess := s.sessions[sid];
    var s2 := With(s, sid, sess.(phase := DirEntry(k)));
    assert Ready(s2, sid);
    assert s2.sessions[sid := sess.(completed := sess.completed + {k})] == s.sessions[sid := sess.(completed := sess.completed + {k})];
  }

  lemma DirectoryArrives(h: Hash, s: State, root: string, ns: seq<Node>, sid: Sid, k: nat, now: State)
    requires Listing(root, ns) && RootIsFree(s, root) && k < |ns| && Received(h, s, ns, sid, k, now) && !ns[k].tree.File?
    ensures Received(h, s, ns, sid, k + 1, Run(h, now, DirEvents(sid, k)))
  {
    hide Listing, RootIsFree, Run, CreateDirectory, FirstIndices;
    DirectoryIsMade(h, s, root, ns, sid, k, now);
    FirstIndicesAre(k);
    FirstIndicesNext(k);
    DirRuns(h, now, sid, k);
    DirsOfNext(ns, k);
  }

  lemma FirstIndicesNext(k: nat)
    ensures FirstIndices(k + 1) == FirstIndices(k) + {k}
  {
  }

  lemma DirsOfNext(ns: seq<Node>, k: nat)
    requires k < |ns|
    ensures DirsOf(ns, k + 1) == if ns[k].tree.File? then DirsOf(ns, k) else DirsOf(ns, k) + {ns[k].path}
    ensures TmpsOf(ns, k + 1) == if ns[k].tree.File? then TmpsOf(ns, k) + {Tmp(ns[k].path)} else TmpsOf(ns, k)
    ensures SlotsOf(ns, k + 1) == if ns[k].tree.File? then SlotsOf(ns, k)[k := ns[k].path] else SlotsOf(ns, k)
  {
    hide Tmp;
  }

  // ----- a file arrives -----------------------------------------------------------------------------

  /** The parent of entry k is there already, and making it again changes nothing. */
  lemma ParentIsThere(h: Hash, s: State, root: string, ns: seq<Node>, sid: Sid, k: nat, now: State)
    requires Listing(root, ns) && RootIsFree(s, root) && 0 < k < |ns| && Received(h, s, ns, sid, k, now)
    ensures var parts := Split(ns[k].path);
            |parts| > 1 && CreateDirectory(now.files, now.dirs, Join(parts[..|parts| - 1])) == DirResult(true, now.dirs)
  {
    hide Under, FilesOf, Split, Leading, Ordered, MakeDirs, ValidRelPath, Join, IsChild;
    var p := ns[k].path;
    assert ParentAt(ns, k);
    var j :| 0 <= j < k && ns[j].tree.Dir? && IsChild(p, ns[j].path);
    var d := ns[j].path;
    assert Sendable(ns[j]);
    ChildSplits(p, d);
    assert Split(p)[..|Split(p)| - 1] == Split(d);
    JoinSplit(d);
    LeadingIsNoFile(h, s, root, ns, sid, k, now);
    LeadingIsVisited(root, ns, j);
    assert DirsOf(ns, j) <= DirsOf(ns, k) && d in DirsOf(ns, k);
    MakeDirsExactly(now.files, now.dirs, Split(d));
  }

  lemma ValidIsSome(p: string)
    requires ValidRelPath(p)
    ensures p != ""
  {
  }

  /** Entry k gets its own name: no renaming. */
  lemma NameIsKept(h: Hash, s: State, root: string, ns: seq<Node>, sid: Sid, k: nat, now: State)
    requires Listing(root, ns) && RootIsFree(s, root) && 0 < k < |ns| && Received(h, s, ns, sid, k, now)
    ensures Reserve(now, MetaOf(h, ns[k])) == Granted(ns[k].path, now.dirs)
  {
    hide Under, FilesOf, Split, Ordered, ParentAt, Join, CreateDirectory, Candidate, FirstFree, FreeName, BaseName, ValidRelPath;
    var p := ns[k].path;
    assert Sendable(ns[k]);
    ValidIsSome(p);
    NextIsFree(h, s, root, ns, sid, k, now);
    ParentIsThere(h, s, root, ns, sid, k, now);
    CandidateZero(p);
    R.FreeNameIs(p, Occupied(now), 0);
  }

  lemma FileArrives(h: Hash, s: State, root: string, ns: seq<Node>, sid: Sid, k: nat, now: State, items: seq<A.Item>)
    requires Listing(root, ns) && RootIsFree(s, root) && k < |ns| && Received(h, s, ns, sid, k, now) && ns[k].tree.File?
    requires A.FileTail(items, k, ns[k].tree.content, 0)
    ensures Received(h, s, ns, sid, k + 1, Run(h, now, A.AttemptEvents(sid, k, items)))
  {
    hide RootIsFree, Run, FirstIndices, Reserve, A.AttemptEvents, A.AttemptResult, A.FileTail, FilesOf, Ordered, ParentAt, AllSendable, Under;
    assert k > 0;
    NameIsKept(h, s, root, ns, sid, k, now);
    NextIsFree(h, s, root, ns, sid, k, now);
    FirstIndicesAre(k);
    FileResult(h, ns, sid, k, now);
    A.AttemptRuns(h, now, sid, k, ns[k].tree.content, items);
    FirstIndicesNext(k);
    DirsOfNext(ns, k);
    FilesOfNext(s.files, ns, k);
  }

  lemma FilesOfNext(files: Files, ns: seq<Node>, k: nat)
    requires k < |ns| && ns[k].tree.File?
    ensures files + FilesOf(ns, k + 1) == (files + FilesOf(ns, k))[ns[k].path := ns[k].tree.content]
  {
  }

  /** What the attempt at file k leaves, when its name and its temporaries are free. */
  lemma FileResult(h: Hash, ns: seq<Node>, sid: Sid, k: nat, now: State)
    requires k < |ns| && ns[k].tree.File? && sid in now.sessions && now.sessions[sid].manifest == Metas(h, ns)
    requires now.sessions[sid].phase == Idle && now.sessions[sid].resume
    requires k !in now.sessions[sid].slots && k !in now.sessions[sid].completed
    requires var p := ns[k].path;
             && Reserve(now, MetaOf(h, ns[k])) == Granted(p, now.dirs)
             && p !in now.files && Tmp(p) !in now.files && Sidecar(p) !in now.files
             && {p, Tmp(p), Sidecar(p)} !! now.dirs
    ensures var p, sess, x := ns[k].path, now.sessions[sid], ns[k].tree.content;
            && A.Asked(now, sid, k) && A.ClearOfDirs(now, sess.manifest[k]) && |x| == sess.manifest[k].size
            && PartialLen(now.files, p, sess.manifest[k]) == 0
            && var t := A.AttemptResult(h, now, sid, k, x);
               && t.files == now.files[p := x] && t.dirs == now.dirs && t.claims == now.claims + {Tmp(p)}
               && sid in t.sessions
               && t.sessions[sid] == sess.(slots := sess.slots[k := p], completed := sess.completed + {k},
                                           offers := sess.offers[k := 0])
  {
    hide Reserve, EqualFold, BaseName;
    var p, x := ns[k].path, ns[k].tree.content;
    var meta := now.sessions[sid].manifest[k];
    assert meta == MetaOf(h, ns[k]);
    assert A.Seed(now.files, p, meta) == [];
    assert [] + x[0..] == x;
    SameDigest(h, x);
    assert RemovePart(now.files, p) == now.files;
    NothingSwept(now.files, now.dirs, {Sidecar(p)});
  }

  lemma SameDigest(h: Hash, x: Bytes)
    ensures EqualFold(h(x), h(x))
  {
  }

  // ----- the whole folder ------------------------------------------------------------------------------

  function EntryEvents(sid: Sid, n: Node, k: nat, items: seq<A.Item>): seq<Event> {
    if n.tree.File? then A.AttemptEvents(sid, k, items) else DirEvents(sid, k)
  }

  /** All that happens for the first k entries; items[j] is what the sender streams for file j. */
  function FolderEvents(sid: Sid, ns: seq<Node>, items: seq<seq<A.Item>>, k: nat): seq<Event>
    requires k <= |ns| == |items|
  {
    if k == 0 then [] else FolderEvents(sid, ns, items, k - 1) + EntryEvents(sid, ns[k - 1], k - 1, items[k - 1])
  }

  /** The streams carry the files of the listing, from their first byte. */
  predicate Streams(ns: seq<Node>, items: seq<seq<A.Item>>) {
    |items| == |ns| && forall k | 0 <= k < |ns| && ns[k].tree.File? :: A.FileTail(items[k], k, ns[k].tree.content, 0)
  }

  lemma {:induction false} EntriesArrive(h: Hash, s: State, root: string, ns: seq<Node>, sid: Sid, now: State,
                                         items: seq<seq<A.Item>>, k: nat)
    requires Listing(root, ns) && RootIsFree(s, root) && Received(h, s, ns, sid, 0, now) && Streams(ns, items) && k <= |ns|
    ensures Received(h, s, ns, sid, k, Run(h, now, FolderEvents(sid, ns, items, k)))
  {
    hide Listing, RootIsFree, Received, Run, A.FileTail, A.AttemptEvents;
    if k == 0 {
      A.RunNone(h, now, sid);
      assert FolderEvents(sid, ns, items, 0) == A.Arrivals(sid, []);
    } else {
      EntriesArrive(h, s, root, ns, sid, now, items, k - 1);
      var before := FolderEvents(sid, ns, items, k - 1);
      A.RunConcat(h, now, before, EntryEvents(sid, ns[k - 1], k - 1, items[k - 1]));
      if ns[k - 1].tree.File? {
        FileArrives(h, s, root, ns, sid, k - 1, Run(h, now, before), items[k - 1]);
      } else {
        DirectoryArrives(h, s, root, ns, sid, k - 1, Run(h, now, before));
      }
    }
  }

  /** The session: its start, every entry, and session_end. */
  function SessionEvents(h: Hash, sid: Sid, ns: seq<Node>, items: seq<seq<A.Item>>): seq<Event>
    requires |items| == |ns|
  {
    [Start(sid, Metas(h, ns), true)] + (FolderEvents(sid, ns, items, |ns|) + [Recv(sid, SessionEnd)])
  }

  lemma ListingArrives(h: Hash, s: State, root: string, ns: seq<Node>, sid: Sid, items: seq<seq<A.Item>>)
    requires Listing(root, ns) && RootIsFree(s, root) && Streams(ns, items) && sid !in s.sessions
    ensures var t := Run(h, s, SessionEvents(h, sid, ns, items));
            && t.files == s.files + FilesOf(ns, |ns|) && t.dirs == s.dirs + DirsOf(ns, |ns|)
            && sid in t.sessions && t.sessions[sid].phase == Ended(true) && t.sessions[sid].slots == SlotsOf(ns, |ns|)
  {
    hide RootIsFree, Run, FilesOf, DirsOf, SlotsOf, AllSendable, Ordered, Under, ParentAt, A.FileTail;
    var n := |ns|;
    var s1 := Step(h, s, Start(sid, Metas(h, ns), true)).state;
    var all, last := FolderEvents(sid, ns, items, n), Recv(sid, SessionEnd);
    A.RunCons(h, s, Start(sid, Metas(h, ns), true), all + [last]);
    A.RunConcat(h, s1, all, [last]);
    NothingYet(h, s, ns, sid, s1);
    EntriesArrive(h, s, root, ns, sid, s1, items, n);
    FirstIndicesAre(n);
    A.RunOne(h, Run(h, s1, all), last);
  }

  lemma NothingYet(h: Hash, s: State, ns: seq<Node>, sid: Sid, now: State)
    requires now == With(s, sid, Session(Metas(h, ns), true, map[], {}, {}, map[], Idle))
    ensures Received(h, s, ns, sid, 0, now)
  {
  }

  /** What the disk must hold at a path of the tree. */
  predicate Rebuilt(t: Tree, parts: seq<string>, root: string, s: State) {
    match Lookup(t, parts)
    case Some(File(content)) => PathOf(root, parts) in s.files && s.files[PathOf(root, parts)] == content
    case Some(_) => PathOf(root, parts) in s.dirs
    case None => true
  }

  /** The node is in the tree, under its path. */
  ghost predicate InTree(t: Tree, root: string, n: Node) {
    exists parts :: PathOf(root, parts) == n.path && Lookup(t, parts) == Some(n.tree)
  }

  /**
   * The tree is on the disk: every path of it, empty directories included, with its contents; every new file and
   * directory is a path of the tree; and all else is as it was.
   */
  ghost predicate FolderRebuilt(t: Tree, root: string, s: State, s': State) {
    && (forall parts :: Rebuilt(t, parts, root, s'))
    && (forall p | p in s.files :: p in s'.files && s'.files[p] == s.files[p]) && s.dirs <= s'.dirs
    && (forall p | p in s'.files && p !in s.files :: InTree(t, root, Node(p, File(s'.files[p]))))
    && (forall p | p in s'.dirs && p !in s.dirs :: exists d: Forest :: InTree(t, root, Node(p, Dir(d))))
  }

  /**
   * Folder round trip. Any tree of regular files and directories with sendable names, received where the root
   * is free, is rebuilt, and no entry was renamed.
   */
  lemma FolderRoundTrip(h: Hash, s: State, sid: Sid, root: string, t: Tree, items: seq<seq<A.Item>>)
    requires t.Dir? && Sorted(t) && AllSendable(Walk(root, t)) && '/' !in root
    requires RootIsFree(s, root) && sid !in s.sessions && Streams(Walk(root, t), items)
    ensures var ns := Walk(root, t);
            var s' := Run(h, s, SessionEvents(h, sid, ns, items));
            && sid in s'.sessions && s'.sessions[sid].phase == Ended(true)
            && FolderRebuilt(t, root, s, s')
            && (forall k | k in s'.sessions[sid].slots :: k < |ns| && s'.sessions[sid].slots[k] == MetaOf(h, ns[k]).relPath)
  {
    hide Run, Walk, FilesOf, DirsOf, Listing, AllSendable, A.FileTail, Sorted, RootIsFree, FolderRebuilt;
    WalkIsListing(root, t);
    ListingArrives(h, s, root, Walk(root, t), sid, items);
    ListedIsRebuilt(s, Run(h, s, SessionEvents(h, sid, Walk(root, t), items)), root, t);
  }

  /** The files and directories of the walk are the tree. */
  lemma ListedIsRebuilt(s: State, s': State, root: string, t: Tree)
    requires t.Dir? && Sorted(t) && AllSendable(Walk(root, t)) && '/' !in root && RootIsFree(s, root)
    requires s'.files == s.files + FilesOf(Walk(root, t), |Walk(root, t)|)
    requires s'.dirs == s.dirs + DirsOf(Walk(root, t), |Walk(root, t)|)
    ensures FolderRebuilt(t, root, s, s')
  {
    hide Walk, FilesOf, DirsOf, Listing, AllSendable, Sorted, PathOf, Lookup, RootIsFree, InTree;
    var ns := Walk(root, t);
    WalkIsListing(root, t);
    forall parts ensures Rebuilt(t, parts, root, s') {
      if Lookup(t, parts).Some? {
        LookupIsWalked(root, t, parts);
        NodeIsThere(s, s', root, ns, Node(PathOf(root, parts), Lookup(t, parts).value));
      }
    }
    forall p | p in s'.files && p !in s.files
      ensures InTree(t, root, Node(p, File(s'.files[p])))
    {
      NewFile(root, t, p);
    }
    forall p | p in s'.dirs && p !in s.dirs
      ensures exists d: Forest :: InTree(t, root, Node(p, Dir(d)))
    {
      var d := NewDir(root, t, p);
    }
    forall p | p in s.files ensures p in s'.files && s'.files[p] == s.files[p] {
      OldIsOld(s, root, ns, p);
    }
  }

  lemma NewFile(root: string, t: Tree, p: Path)
    requires Sorted(t) && p in FilesOf(Walk(root, t), |Walk(root, t)|)
    ensures InTree(t, root, Node(p, File(FilesOf(Walk(root, t), |Walk(root, t)|)[p])))
  {
    hide FilesOf, Walk, PathOf, Lookup;
    var ns := Walk(root, t);
    var j := FileIsNode(ns, |ns|, p);
    assert ns[j] in ns;
    var parts := WalkedIsLookup(root, t, ns[j]);
  }

  lemma NewDir(root: string, t: Tree, p: Path) returns (d: Forest)
    requires Sorted(t) && AllSendable(Walk(root, t)) && p in DirsOf(Walk(root, t), |Walk(root, t)|)
    ensures InTree(t, root, Node(p, Dir(d)))
  {
    hide Walk, PathOf, Lookup, AllSendable, ValidRelPath;
    var ns := Walk(root, t);
    var j :| 0 <= j < |ns| && !ns[j].tree.File? && ns[j].path == p;
    NodeIsSendable(ns, j);
    assert ns[j] in ns;
    d := ns[j].tree.entries;
    var parts := WalkedIsLookup(root, t, ns[j]);
  }

  lemma NodeIsSendable(ns: seq<Node>, j: nat)
    requires AllSendable(ns) && j < |ns|
    ensures Sendable(ns[j])
  {
  }

  lemma {:induction false} FileIsNode(ns: seq<Node>, k: nat, p: Path) returns (j: nat)
    requires k <= |ns| && p in FilesOf(ns, k)
    ensures j < k && ns[j].tree == File(FilesOf(ns, k)[p]) && ns[j].path == p
  {
    if ns[k - 1].tree.File? && ns[k - 1].path == p {
      j := k - 1;
    } else {
      j := FileIsNode(ns, k - 1, p);
    }
  }

  lemma {:induction false} NodeIsFile(ns: seq<Node>, k: nat, j: nat)
    requires Ordered(ns) && j < k <= |ns| && ns[j].tree.File?
    ensures ns[j].path in FilesOf(ns, k) && FilesOf(ns, k)[ns[j].path] == ns[j].tree.content
  {
    if j < k - 1 {
      NodeIsFile(ns, k - 1, j);
      assert !(ns[k - 1].path <= ns[j].path);
    }
  }

  lemma NodeIsThere(s: State, s': State, root: string, ns: seq<Node>, n: Node)
    requires Listing(root, ns) && n in ns
    requires s'.files == s.files + FilesOf(ns, |ns|) && s'.dirs == s.dirs + DirsOf(ns, |ns|)
    ensures match n.tree
            case File(content) => n.path in s'.files && s'.files[n.path] == content
            case _ => n.path in s'.dirs
  {
    hide FilesOf, AllSendable, Under, ParentAt;
    var j :| 0 <= j < |ns| && ns[j] == n;
    if n.tree.File? {
      NodeIsFile(ns, |ns|, j);
    }
  }

  lemma OldIsOld(s: State, root: string, ns: seq<Node>, p: Path)
    requires Listing(root, ns) && RootIsFree(s, root) && p in s.files
    ensures p !in FilesOf(ns, |ns|)
  {
    hide FilesOf, AllSendable, Under, ParentAt, Ordered;
    FilesOfKeys(ns, |ns|, p);
    assert !Under(p, root);
    assert forall j | 0 <= j < |ns| :: Under(ns[j].path, root);
  }
}
