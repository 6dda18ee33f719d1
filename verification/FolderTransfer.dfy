/**
 * What send makes of a folder, or of plain files, sent by SendFiles and received: the manifest is plain, so the tree
 * is rebuilt, and the files arrive under their own names.
 */
module FolderTransfer {
  import opened Basics
  import opened Names
  import opened Receiver
  import opened ReceiverSafety
  import opened Confinement
  import opened Transfer
  import opened Undisturbed
  import opened PlainPlan
  import opened FolderWalk
  import opened Folders
  import Removals
  import FileTree
  import Overwrites

  /** What send makes of one folder. */
  function FolderPlan(h: Hash, sid: Sid, ns: seq<Node>): Plan {
    Plan(sid, Metas(h, ns), Sources(ns))
  }

  lemma GoalIsPath(h: Hash, ns: seq<Node>, k: nat)
    requires AllSendable(ns) && k < |ns|
    ensures var meta := MetaOf(h, ns[k]);
            && Goal(meta) == ns[k].path && ValidRelPath(ns[k].path) && meta.relPath != "" && meta.isDir == !ns[k].tree.File?
  {
    hide ValidRelPath, BaseName;
    assert Sendable(ns[k]);
    ValidIsSome(ns[k].path);
  }

  /** What leads to entry k was visited before; so it is no file, and no temporary of a later one. */
  lemma FileIsOffTheWay(root: string, ns: seq<Node>, j: nat, k: nat)
    requires Listing(root, ns) && j < |ns| && k < |ns| && j != k && ns[j].tree.File?
    ensures ns[j].path !in Leading(Split(ns[k].path))
    ensures k < j ==> {Tmp(ns[j].path), Sidecar(ns[j].path)} !! Leading(Split(ns[k].path))
  {
    hide AllSendable, Under, ParentAt, Split, Leading;
    LeadingIsVisited(root, ns, k);
    var p := ns[j].path;
    assert p <= p && p <= Tmp(p) && p <= Sidecar(p);
    forall q | q in Leading(Split(ns[k].path)) ensures q != p && (k < j ==> q != Tmp(p) && q != Sidecar(p)) {
      var i := VisitedAt(ns, k, q);
      if i < j { assert !(p <= ns[i].path); } else if j < i { assert !(ns[i].path <= p); }
    }
  }

  lemma VisitedAt(ns: seq<Node>, k: nat, q: Path) returns (i: nat)
    requires k < |ns| && (q in DirsOf(ns, k) || q == ns[k].path)
    ensures i <= k && ns[i].path == q && (i < k ==> !ns[i].tree.File?)
  {
    if q == ns[k].path { i := k; } else { i :| i < k && !ns[i].tree.File? && ns[i].path == q; }
  }

  /** Nothing on the disk is at or below the root. */
  lemma NodeIsFree(h: Hash, s: State, root: string, ns: seq<Node>, k: nat)
    requires Listing(root, ns) && RootIsFree(s, root) && k < |ns|
    ensures FreeFor(s, MetaOf(h, ns[k]))
  {
    hide AllSendable, Ordered, ParentAt, Split, Leading, ValidRelPath, BaseName, Goal;
    var p := ns[k].path;
    GoalIsPath(h, ns, k);
    LeadingIsVisited(root, ns, k);
    DirsAreOnTheWay(MetaOf(h, ns[k]));
    forall d | d in Leading(Split(p)) ensures d !in s.files {
      var i := VisitedAt(ns, k, d);
      assert Under(ns[i].path, root);
    }
    if ns[k].tree.File? {
      assert Under(p, root);
      RootComesFirst(root, ns, k);
      UnderLonger(p, root, PART);
      UnderLonger(p, root, PART + META);
      ConcatAssoc(p, PART, META);
    }
  }

  lemma RootComesFirst(root: string, ns: seq<Node>, k: nat)
    requires Listing(root, ns) && k < |ns| && ns[k].tree.File?
    ensures ns[k].path != root
  {
    hide AllSendable, Under, ParentAt;
    assert k > 0;
    assert !(ns[k].path <= ns[0].path);
  }

  lemma ListingIsPlain(h: Hash, s: State, root: string, ns: seq<Node>, sid: Sid)
    requires Listing(root, ns) && RootIsFree(s, root)
    ensures Plain(FolderPlan(h, sid, ns), s)
  {
    hide Listing, RootIsFree, FreeFor, MetaOf, Leading, Split;
    var c := FolderPlan(h, sid, ns);
    ListingIsSendable(root, ns);
    forall k | 0 <= k < |c.manifest| ensures FreeFor(s, c.manifest[k]) {
      NodeIsFree(h, s, root, ns, k);
    }
    forall j, k | 0 <= j < |c.manifest| && 0 <= k < |c.manifest| && j != k && !c.manifest[j].isDir
      ensures Goal(c.manifest[j]) !in Way(c.manifest[k]) && (k < j ==> Spot(c.manifest[j]) !! Way(c.manifest[k]))
    {
      GoalIsPath(h, ns, j);
      GoalIsPath(h, ns, k);
      FileIsOffTheWay(root, ns, j, k);
    }
  }

  lemma ListingIsSendable(root: string, ns: seq<Node>)
    requires Listing(root, ns)
    ensures AllSendable(ns) && ns != []
  {
    hide AllSendable, Ordered, Under, ParentAt;
  }

  /** What the plan puts in place are the files and directories of the listing. */
  lemma {:induction false} SameDisk(h: Hash, root: string, ns: seq<Node>, sid: Sid, k: nat)
    requires Listing(root, ns) && k <= |ns|
    ensures FilesTo(FolderPlan(h, sid, ns), k) == FilesOf(ns, k) && DirsTo(FolderPlan(h, sid, ns), k) == DirsOf(ns, k)
  {
    hide Listing, MetaOf, Leading, Split, Way;
    if k > 0 {
      SameDisk(h, root, ns, sid, k - 1);
      ListingIsSendable(root, ns);
      GoalIsPath(h, ns, k - 1);
      DirsOfNext(ns, k - 1);
      NewDirs(h, root, ns, k - 1);
    }
  }

  lemma NewDirs(h: Hash, root: string, ns: seq<Node>, k: nat)
    requires Listing(root, ns) && k < |ns|
    ensures DirsOf(ns, k) + DirsFor(MetaOf(h, ns[k])) == if ns[k].tree.File? then DirsOf(ns, k) else DirsOf(ns, k) + {ns[k].path}
  {
    hide Listing, Leading, Split, Goal, ValidRelPath, BaseName, AllSendable, DirsOf;
    ListingIsSendable(root, ns);
    GoalIsPath(h, ns, k);
    LeadingIsVisited(root, ns, k);
    DirsAreOnTheWay(MetaOf(h, ns[k]));
    Removals.NotLeading(ns[k].path);
  }

  /** What buildManifest makes of one folder. */
  lemma OneRoot(h: Hash, root: string, t: Tree)
    requires !t.File?
    ensures AllMetas(h, [Root(root, t)]) == Metas(h, Walk(root, t)) && AllSources([Root(root, t)]) == Sources(Walk(root, t))
  {
    hide Walk, Metas, Sources;
    var roots := [Root(root, t)];
    assert roots[..0] == [];
    assert AllMetas(h, []) == [] && AllSources([]) == [];
  }

  lemma FolderIsPlanned(h: Hash, sid: Sid, ns: seq<Node>)
    requires AllSendable(ns) && CleanManifest(Metas(h, ns))
    ensures WellPlanned(h, FolderPlan(h, sid, ns))
  {
    hide CleanManifest, BaseName, ValidRelPath;
    forall k | 0 <= k < |ns| ensures Sendable(ns[k]) {}
  }

  /**
   * A folder is sent. Take any tree of regular files and directories with sendable, unreserved names, and a receiver
   * that has nothing at or below the folder's name. The manifest that send builds for it is transferred by an
   * undisturbed joint run; SendFiles returns without an error, and the receiver has the same tree.
   */
  lemma FolderIsSent(h: Hash, s: State, sid: Sid, root: string, t: Tree) returns (events: seq<JointEvent>)
    requires Inv(h, s) && sid !in s.sessions && RootIsFree(s, root)
    requires t.Dir? && Sorted(t) && AllSendable(Walk(root, t)) && '/' !in root
    requires CleanManifest(AllMetas(h, [Root(root, t)]))
    ensures var c := Plan(sid, AllMetas(h, [Root(root, t)]), AllSources([Root(root, t)]));
            && WellPlanned(h, c) && c.manifest != [] && |c.manifest| == |c.sources| && Smooth(events) && AllAllowed(events)
            && var j := JointRun(h, c, Begin(h, c, s), events);
               j.pc == Done && FolderRebuilt(t, root, s, j.recv)
  {
    hide Inv, JointRun, Begin, RootIsFree, Walk, AllSendable, Listing, Plain, Metas, Sources, FilesTo, DirsTo, FilesOf, DirsOf;
    hide FolderRebuilt, Sorted, WellPlanned, AllMetas, AllSources, Smooth, AllAllowed, CleanManifest;
    var ns := Walk(root, t);
    var c := FolderPlan(h, sid, ns);
    OneRoot(h, root, t);
    WalkIsListing(root, t);
    ListingIsSendable(root, ns);
    MetasSize(h, ns);
    FolderIsPlanned(h, sid, ns);
    ListingIsPlain(h, s, root, ns, sid);
    events := PlainSucceeds(h, c, s);
    SameDisk(h, root, ns, sid, |ns|);
    ListedIsRebuilt(s, JointRun(h, c, Begin(h, c, s), events).recv, root, t);
  }

  lemma MetasSize(h: Hash, ns: seq<Node>)
    ensures |Metas(h, ns)| == |Sources(ns)| == |ns|
  {
  }

  // ----- plain files -----------------------------------------------------------------------------

  /** Plain files with names of their own, that are free on the receiver's disk and no one's temporaries. */
  predicate FilesFree(s: State, roots: seq<Root>) {
    && roots != []
    && (forall k | 0 <= k < |roots| ::
          && roots[k].tree.File? && NameOk(roots[k].name)
          && {roots[k].name, Tmp(roots[k].name), Sidecar(roots[k].name)} !! s.files.Keys + s.dirs
          && Tmp(roots[k].name) !in s.claims)
    && forall j, k | 0 <= j < k < |roots| :: roots[j].name != roots[k].name
  }

  /** A file name that no one could take for a temporary. */
  predicate NameOk(name: string) {
    name != "" && name != "." && name != ".." && '/' !in name && !Reserved(name)
  }

  function FilesPlan(h: Hash, sid: Sid, roots: seq<Root>): Plan {
    Plan(sid, AllMetas(h, roots), AllSources(roots))
  }

  lemma NameGoal(h: Hash, name: string, x: Bytes)
    requires NameOk(name)
    ensures var meta := FileMeta(false, name, |x|, h(x), "");
            && Goal(meta) == name && WantedName(meta) == Some(name) && Way(meta) == {name} && DirsFor(meta) == {}
  {
    hide SanitizeName, Split, Leading;
    Overwrites.PlainIsClean(name);
    SplitPlain(name);
    LeadingOne(name);
    FileTree.NothingLeads();
  }

  /** The name of one file is no temporary of another. */
  lemma NotItsTemporary(a: string, b: string)
    requires NameOk(a) && NameOk(b)
    ensures Tmp(a) != b && Sidecar(a) != b
  {
    assert EndsWith(Tmp(a), PART);
    assert Sidecar(a) == a + (PART + META);
    assert EndsWith(Sidecar(a), PART + META) && Sidecar(a)[..|Sidecar(a)| - |PART + META|] == a;
    SplitPlain(a);
  }

  lemma EntriesAre(h: Hash, roots: seq<Root>)
    requires roots != [] && forall k | 0 <= k < |roots| :: roots[k].tree.File? && NameOk(roots[k].name)
    ensures |AllMetas(h, roots)| == |AllSources(roots)| == |roots|
    ensures forall k | 0 <= k < |roots| ::
              var meta := AllMetas(h, roots)[k];
              && meta == FileMeta(false, roots[k].name, |roots[k].tree.content|, h(roots[k].tree.content), "")
              && AllSources(roots)[k] == roots[k].tree.content
              && Goal(meta) == roots[k].name && WantedName(meta) == Some(roots[k].name)
              && Way(meta) == {roots[k].name} && DirsFor(meta) == {}
  {
    hide AllMetas, AllSources, Goal, Way, DirsFor, WantedName, NameOk;
    FileEntryIs(h, roots, 0);
    forall k | 0 <= k < |roots|
      ensures var meta := AllMetas(h, roots)[k];
              && meta == FileMeta(false, roots[k].name, |roots[k].tree.content|, h(roots[k].tree.content), "")
              && AllSources(roots)[k] == roots[k].tree.content
              && Goal(meta) == roots[k].name && WantedName(meta) == Some(roots[k].name)
              && Way(meta) == {roots[k].name} && DirsFor(meta) == {}
    {
      FileEntryIs(h, roots, k);
      NameGoal(h, roots[k].name, roots[k].tree.content);
    }
  }

  lemma FilesArePlain(h: Hash, s: State, sid: Sid, roots: seq<Root>)
    requires FilesFree(s, roots)
    ensures var c := FilesPlan(h, sid, roots); WellPlanned(h, c) && Plain(c, s) && |c.manifest| == |c.sources| == |roots|
  {
    hide AllMetas, AllSources, Goal, Way, DirsFor, WantedName, NameOk, Tmp, Sidecar, Reserved;
    var c := FilesPlan(h, sid, roots);
    EntriesAre(h, roots);
    forall k | 0 <= k < |roots| ensures !Reserved(roots[k].name) { NameIsFree(roots[k].name); }
    forall j, k | 0 <= j < |roots| && 0 <= k < |roots| && j != k
      ensures Goal(c.manifest[j]) !in Way(c.manifest[k]) && (k < j ==> Spot(c.manifest[j]) !! Way(c.manifest[k]))
    {
      NotItsTemporary(roots[j].name, roots[k].name);
    }
  }

  lemma NameIsFree(name: string)
    requires NameOk(name)
    ensures !Reserved(name)
  {
  }

  /**
   * Plain files are sent. Files with distinct names, which are free at the receiver, are transferred by an undisturbed
   * joint run; SendFiles returns without an error, each file is there under its own name, with its bytes, and
   * everything else is as it was.
   */
  lemma FilesAreSent(h: Hash, s: State, sid: Sid, roots: seq<Root>) returns (events: seq<JointEvent>)
    requires Inv(h, s) && sid !in s.sessions && FilesFree(s, roots)
    ensures var c := FilesPlan(h, sid, roots);
            && WellPlanned(h, c) && c.manifest != [] && |c.manifest| == |c.sources| && Smooth(events) && AllAllowed(events)
            && var j := JointRun(h, c, Begin(h, c, s), events);
               && j.pc == Done
               && (forall k | 0 <= k < |roots| :: roots[k].name in j.recv.files && j.recv.files[roots[k].name] == roots[k].tree.content)
               && (forall p | p in j.recv.files && p !in s.files :: exists k :: 0 <= k < |roots| && p == roots[k].name)
               && (forall p | p in s.files :: p in j.recv.files && j.recv.files[p] == s.files[p])
               && j.recv.dirs == s.dirs
  {
    hide Inv, JointRun, Begin, Plain, AllMetas, AllSources, FilesTo, DirsTo, WellPlanned, Smooth, AllAllowed;
    var c := FilesPlan(h, sid, roots);
    FilesArePlain(h, s, sid, roots);
    events := PlainSucceeds(h, c, s);
    var t := JointRun(h, c, Begin(h, c, s), events).recv;
    EntriesAre(h, roots);
    forall k | 0 <= k < |roots| ensures roots[k].name in t.files && t.files[roots[k].name] == roots[k].tree.content {
      assert InPlace(c, t, k);
    }
    forall p | p in FilesTo(c, |roots|) ensures exists k :: 0 <= k < |roots| && p == roots[k].name {
      FilesToAre(c, |roots|, p);
      var k :| 0 <= k < |roots| && !c.manifest[k].isDir && Goal(c.manifest[k]) == p;
    }
    NoDirs(h, sid, roots, |roots|);
  }

  lemma {:induction false} NoDirs(h: Hash, sid: Sid, roots: seq<Root>, k: nat)
    requires k <= |roots| == |AllMetas(h, roots)| && forall i | 0 <= i < |roots| :: roots[i].tree.File? && NameOk(roots[i].name)
    ensures DirsTo(FilesPlan(h, sid, roots), k) == {}
  {
    hide AllMetas, AllSources, DirsFor, NameOk;
    if k > 0 {
      NoDirs(h, sid, roots, k - 1);
      EntriesAre(h, roots);
    }
  }
}
