/** A folder flattened into a manifest: the walk, its order, and looking a path up in the tree. */
module FolderWalk {
  import opened Basics
  import opened Names
  import opened Receiver
  import opened Confinement

  /** What is on disk: a regular file, a directory with its entries in walk order, or something else. */
  datatype Tree = File(content: Bytes) | Dir(entries: Forest) | Special
  datatype Forest = Nil | Cons(name: string, tree: Tree, rest: Forest)

  /** One visited entry, under its path relative to the folder's parent. */
  datatype Node = Node(path: string, tree: Tree)

  function Walk(path: string, t: Tree): seq<Node>
    decreases t, 1
  {
    [Node(path, t)] + (if t.Dir? then WalkEntries(path, t.entries) else [])
  }

  function WalkEntries(path: string, f: Forest): seq<Node>
    decreases f, 0
  {
    match f
    case Nil => []
    case Cons(name, t, rest) => Walk(path + "/" + name, t) + WalkEntries(path, rest)
  }

  /** The manifest entry of a node; a digest is taken of the contents. */
  function MetaOf(h: Hash, n: Node): FileMeta {
    match n.tree
    case File(content) => FileMeta(false, BaseName(n.path), |content|, h(content), n.path)
    case _ => FileMeta(true, BaseName(n.path), 0, [], n.path)
  }

  function BaseName(path: string): string {
    Split(path)[|Split(path)| - 1]
  }

  function SourceOf(n: Node): Bytes {
    if n.tree.File? then n.tree.content else []
  }

  function Metas(h: Hash, ns: seq<Node>): seq<FileMeta> {
    seq(|ns|, k requires 0 <= k < |ns| => MetaOf(h, ns[k]))
  }

  function Sources(ns: seq<Node>): seq<Bytes> {
    seq(|ns|, k requires 0 <= k < |ns| => SourceOf(ns[k]))
  }

  predicate Sendable(n: Node) {
    ValidRelPath(n.path) && !n.tree.Special?
  }

  predicate AllSendable(ns: seq<Node>) {
    forall k | 0 <= k < |ns| :: Sendable(ns[k])
  }

  /** The walk of buildManifest: appends an entry and its source for every node, or stops at a bad one. */
  method WalkDir(h: Hash, path: string, t: Tree, metas: seq<FileMeta>, sources: seq<Bytes>)
    returns (ok: bool, metas': seq<FileMeta>, sources': seq<Bytes>)
    ensures ok == AllSendable(Walk(path, t))
    ensures ok ==> metas' == metas + Metas(h, Walk(path, t)) && sources' == sources + Sources(Walk(path, t))
    decreases t, 1
  {
    hide ValidRelPath, BaseName, Walk, WalkEntries, AllSendable, Metas, Sources;
    metas', sources' := metas, sources;
    WalkHead(h, path, t);
    if !ValidRelPath(path) { return false, metas', sources'; }
    match t {
      case Special => ok := false;
      case File(content) =>
        metas' := metas + [FileMeta(false, BaseName(path), |content|, h(content), path)];
        sources' := sources + [content];
        ok := true;
      case Dir(entries) =>
        metas' := metas + [FileMeta(true, BaseName(path), 0, [], path)];
        sources' := sources + [[]];
        ok, metas', sources' := WalkList(h, path, entries, metas', sources');
    }
  }

  method WalkList(h: Hash, path: string, f: Forest, metas: seq<FileMeta>, sources: seq<Bytes>)
    returns (ok: bool, metas': seq<FileMeta>, sources': seq<Bytes>)
    ensures ok == AllSendable(WalkEntries(path, f))
    ensures ok ==> metas' == metas + Metas(h, WalkEntries(path, f)) && sources' == sources + Sources(WalkEntries(path, f))
    decreases f, 0
  {
    hide ValidRelPath, Walk, AllSendable, Metas, Sources;
    ok, metas', sources' := true, metas, sources;
    match f {
      case Nil =>
        Nothing(h);
      case Cons(name, t, rest) =>
        var here, there := Walk(path + "/" + name, t), WalkEntries(path, rest);
        Joined(h, here, there);
        ok, metas', sources' := WalkDir(h, path + "/" + name, t, metas', sources');
        if ok {
          ok, metas', sources' := WalkList(h, path, rest, metas', sources');
        }
    }
  }

  lemma WalkHead(h: Hash, path: string, t: Tree)
    ensures var ns := Walk(path, t);
            var rest := if t.Dir? then WalkEntries(path, t.entries) else [];
            && AllSendable(ns) == (Sendable(Node(path, t)) && AllSendable(rest))
            && Metas(h, ns) == [MetaOf(h, Node(path, t))] + Metas(h, rest)
            && Sources(ns) == [SourceOf(Node(path, t))] + Sources(rest)
            && (!t.Dir? ==> Metas(h, rest) == [] && Sources(rest) == [] && AllSendable(rest))
  {
    hide ValidRelPath, BaseName, WalkEntries, Sendable;
    var n, rest := Node(path, t), if t.Dir? then WalkEntries(path, t.entries) else [];
    Joined(h, [n], rest);
    assert [n][0] == n;
    assert AllSendable([n]) == Sendable(n) && Metas(h, [n]) == [MetaOf(h, n)] && Sources([n]) == [SourceOf(n)];
  }

  lemma Joined(h: Hash, a: seq<Node>, b: seq<Node>)
    ensures AllSendable(a + b) == (AllSendable(a) && AllSendable(b))
    ensures Metas(h, a + b) == Metas(h, a) + Metas(h, b)
    ensures Sources(a + b) == Sources(a) + Sources(b)
  {
    hide Sendable, MetaOf;
    assert forall k | 0 <= k < |b| :: (a + b)[|a| + k] == b[k];
    assert forall k | 0 <= k < |a| :: (a + b)[k] == a[k];
  }

  lemma Nothing(h: Hash)
    ensures AllSendable([]) && Metas(h, []) == [] && Sources([]) == []
  {
  }

  // ----- the manifest of a call -----------------------------------------------------------------

  /** A path given to send: its base name and what is there. */
  datatype Root = Root(name: string, tree: Tree)

  function RootMetas(h: Hash, r: Root): seq<FileMeta> {
    if r.tree.File? then [FileMeta(false, r.name, |r.tree.content|, h(r.tree.content), "")]
    else Metas(h, Walk(r.name, r.tree))
  }

  function RootSources(r: Root): seq<Bytes> {
    if r.tree.File? then [r.tree.content] else Sources(Walk(r.name, r.tree))
  }

  predicate RootOk(r: Root) {
    r.tree.File? || (r.tree.Dir? && AllSendable(Walk(r.name, r.tree)))
  }

  function AllMetas(h: Hash, roots: seq<Root>): seq<FileMeta> {
    if roots == [] then [] else AllMetas(h, roots[..|roots| - 1]) + RootMetas(h, roots[|roots| - 1])
  }

  function AllSources(roots: seq<Root>): seq<Bytes> {
    if roots == [] then [] else AllSources(roots[..|roots| - 1]) + RootSources(roots[|roots| - 1])
  }

  /** buildManifest: entries and their sources for every path given, or an error. */
  method BuildManifest(h: Hash, roots: seq<Root>) returns (ok: bool, metas: seq<FileMeta>, sources: seq<Bytes>)
    ensures ok == (roots != [] && forall k | 0 <= k < |roots| :: RootOk(roots[k]))
    ensures ok ==> metas == AllMetas(h, roots) && sources == AllSources(roots)
    ensures ok ==> Describes(h, metas, sources)
  {
    hide Walk, Metas, Sources, AllSendable, Describes;
    ok, metas, sources := roots != [], [], [];
    if !ok { return; }
    var i := 0;
    assert roots[..0] == [];
    while i < |roots|
      invariant i <= |roots| && metas == AllMetas(h, roots[..i]) && sources == AllSources(roots[..i])
      invariant forall k | 0 <= k < i :: RootOk(roots[k])
    {
      var r := roots[i];
      assert roots[..i + 1][..i] == roots[..i];
      match r.tree {
        case Special => return false, metas, sources;
        case File(content) =>
          metas := metas + [FileMeta(false, r.name, |content|, h(content), "")];
          sources := sources + [content];
        case Dir(_) =>
          ok, metas, sources := WalkDir(h, r.name, r.tree, metas, sources);
          if !ok { return; }
      }
      i := i + 1;
    }
    assert roots[..i] == roots;
    AllDescribed(h, roots);
    ok := true;
  }

  /** Every file entry has the size and digest of its source; every directory entry has neither. */
  predicate Describes(h: Hash, metas: seq<FileMeta>, sources: seq<Bytes>) {
    && |metas| == |sources|
    && forall k | 0 <= k < |metas| ::
         if metas[k].isDir then metas[k].size == 0 && metas[k].sha == []
         else metas[k].size == |sources[k]| && metas[k].sha == h(sources[k])
  }

  lemma {:induction false} AllDescribed(h: Hash, roots: seq<Root>)
    ensures Describes(h, AllMetas(h, roots), AllSources(roots))
  {
    if roots != [] {
      AllDescribed(h, roots[..|roots| - 1]);
      RootDescribed(h, roots[|roots| - 1]);
    }
  }

  lemma RootDescribed(h: Hash, r: Root)
    ensures Describes(h, RootMetas(h, r), RootSources(r))
  {
    hide Walk, BaseName;
  }

  // ----- names ----------------------------------------------------------------------------

  /** Byte order of names, as directories are read. */
  predicate Before(a: string, b: string) {
    if b == "" then false
    else if a == "" then true
    else a[0] < b[0] || (a[0] == b[0] && Before(a[1..], b[1..]))
  }

  /** The place where the earlier name ends or has the smaller character. */
  lemma {:induction false} FirstDifference(a: string, b: string) returns (i: nat)
    requires Before(a, b)
    ensures i <= |a| && i < |b| && (i < |a| ==> a[i] < b[i])
  {
    i := 0;
    if a != "" && a[0] == b[0] {
      i := FirstDifference(a[1..], b[1..]);
      i := i + 1;
    }
  }

  lemma {:induction false} BeforeChains(a: string, b: string, c: string)
    requires Before(a, b) && Before(b, c)
    ensures Before(a, c)
  {
    if a != "" && a[0] == b[0] == c[0] {
      BeforeChains(a[1..], b[1..], c[1..]);
    }
  }

  /** Every directory lists its entries in byte order, and a name is not empty and has no slash. */
  predicate Sorted(t: Tree)
    decreases t, 1
  {
    t.Dir? ==> SortedEntries(t.entries)
  }

  predicate SortedEntries(f: Forest)
    decreases f, 0
  {
    f.Cons? ==>
      && f.name != "" && '/' !in f.name && Sorted(f.tree) && SortedEntries(f.rest)
      && (f.rest.Cons? ==> Before(f.name, f.rest.name))
  }

  // ----- the order of the walk ----------------------------------------------------------------

  /** The path lies at or below the given one. */
  predicate Under(p: string, path: string) {
    p == path || path + "/" <= p
  }

  /** No later path is a prefix of an earlier one. */
  predicate Ordered(ns: seq<Node>) {
    forall j, k | 0 <= j < k < |ns| :: !(ns[k].path <= ns[j].path)
  }

  lemma UnderChains(p: string, a: string, b: string)
    requires Under(p, a) && Under(a, b)
    ensures Under(p, b)
  {
    if p != a && a != b {
      assert p[..|a|] == a && a[..|b| + 1] == b + "/";
      assert p[..|b| + 1] == a[..|b| + 1];
    } else if p != a {
      assert a == b;
    }
  }

  lemma ChildIsUnder(path: string, name: string)
    ensures Under(path + "/" + name, path) && path + "/" + name != path
  {
    assert (path + "/" + name)[..|path| + 1] == path + "/";
  }

  lemma {:induction false} WalkIsUnder(path: string, t: Tree)
    ensures forall k | 0 <= k < |Walk(path, t)| :: Under(Walk(path, t)[k].path, path)
    decreases t, 1
  {
    hide Under;
    UnderSelf(path);
    if t.Dir? {
      EntriesAreUnder(path, t.entries);
      forall k | 0 <= k < |Walk(path, t)| ensures Under(Walk(path, t)[k].path, path) {
        if k > 0 {
          assert Walk(path, t)[k] == WalkEntries(path, t.entries)[k - 1];
          assert StrictlyUnder(WalkEntries(path, t.entries)[k - 1].path, path);
        }
      }
    }
  }

  lemma UnderSelf(path: string)
    ensures Under(path, path)
  {
  }

  /** Strictly below. */
  predicate StrictlyUnder(p: string, path: string) {
    Under(p, path) && p != path
  }

  lemma {:induction false} EntriesAreUnder(path: string, f: Forest)
    ensures forall k | 0 <= k < |WalkEntries(path, f)| :: StrictlyUnder(WalkEntries(path, f)[k].path, path)
    decreases f, 0
  {
    if f.Cons? {
      var child := path + "/" + f.name;
      var here := Walk(child, f.tree);
      WalkIsUnder(child, f.tree);
      EntriesAreUnder(path, f.rest);
      forall k | 0 <= k < |WalkEntries(path, f)| ensures StrictlyUnder(WalkEntries(path, f)[k].path, path) {
        if k < |here| {
          var p := here[k].path;
          ChildIsUnder(path, f.name);
          UnderChains(p, child, path);
          assert |p| >= |child|;
        } else {
          assert WalkEntries(path, f)[k] == WalkEntries(path, f.rest)[k - |here|];
        }
      }
    }
  }

  /** Entries of a directory lie under the names of the directory. */
  ghost predicate UnderLater(p: string, path: string, name: string) {
    exists n: string :: '/' !in n && Before(name, n) && Under(p, path + "/" + n)
  }

  lemma {:induction false} EntriesAreLater(path: string, f: Forest, name: string)
    requires SortedEntries(f) && (f.Cons? ==> Before(name, f.name))
    ensures forall k | 0 <= k < |WalkEntries(path, f)| :: UnderLater(WalkEntries(path, f)[k].path, path, name)
    decreases f
  {
    if f.Cons? {
      var child := path + "/" + f.name;
      var here := Walk(child, f.tree);
      WalkIsUnder(child, f.tree);
      if f.rest.Cons? { BeforeChains(name, f.name, f.rest.name); }
      EntriesAreLater(path, f.rest, name);
      forall k | 0 <= k < |WalkEntries(path, f)| ensures UnderLater(WalkEntries(path, f)[k].path, path, name) {
        if k < |here| {
          assert Under(here[k].path, path + "/" + f.name);
        } else {
          assert WalkEntries(path, f)[k] == WalkEntries(path, f.rest)[k - |here|];
        }
      }
    }
  }

  /** Under a later name means no prefix of what is under an earlier one. */
  lemma LaterIsApart(p: string, q: string, path: string, a: string, b: string)
    requires '/' !in a && '/' !in b && Before(a, b) && Under(p, path + "/" + a) && Under(q, path + "/" + b)
    ensures !(q <= p)
  {
    var i := FirstDifference(a, b);
    var d := path + "/";
    assert q[..|d| + |b|] == d + b && q[|d| + i] == b[i];
    assert p[..|d| + |a|] == d + a;
    assert i < |a| ==> p[|d| + i] == a[i];
    assert i == |a| < |p| - |d| ==> p[|d| + i] == '/';
  }

  lemma {:induction false} WalkIsOrdered(path: string, t: Tree)
    requires Sorted(t)
    ensures Ordered(Walk(path, t))
    decreases t, 1
  {
    if t.Dir? {
      EntriesAreOrdered(path, t.entries);
      EntriesAreUnder(path, t.entries);
      var ns, rest := Walk(path, t), WalkEntries(path, t.entries);
      forall j, k | 0 <= j < k < |ns| ensures !(ns[k].path <= ns[j].path) {
        assert ns[k] == rest[k - 1];
        if j == 0 {
          assert StrictlyUnder(rest[k - 1].path, path) && |rest[k - 1].path| > |path|;
        } else {
          assert ns[j] == rest[j - 1];
        }
      }
    }
  }

  lemma {:induction false} EntriesAreOrdered(path: string, f: Forest)
    requires SortedEntries(f)
    ensures Ordered(WalkEntries(path, f))
    decreases f, 0
  {
    if f.Cons? {
      var child := path + "/" + f.name;
      var here, there, ns := Walk(child, f.tree), WalkEntries(path, f.rest), WalkEntries(path, f);
      WalkIsOrdered(child, f.tree);
      EntriesAreOrdered(path, f.rest);
      WalkIsUnder(child, f.tree);
      EntriesAreLater(path, f.rest, f.name);
      forall j, k | 0 <= j < k < |ns| ensures !(ns[k].path <= ns[j].path) {
        if k < |here| {
          assert ns[j] == here[j] && ns[k] == here[k];
        } else if j >= |here| {
          assert ns[j] == there[j - |here|] && ns[k] == there[k - |here|];
        } else {
          assert ns[j] == here[j] && ns[k] == there[k - |here|];
          assert UnderLater(there[k - |here|].path, path, f.name);
          var n :| '/' !in n && Before(f.name, n) && Under(ns[k].path, path + "/" + n);
          LaterIsApart(ns[j].path, ns[k].path, path, f.name, n);
        }
      }
    }
  }

  // ----- parents come first -------------------------------------------------------------------

  predicate IsChild(p: string, path: string) {
    |p| > |path| + 1 && path + "/" <= p && '/' !in p[|path| + 1..]
  }

  /** The directory of node k was visited before it. */
  predicate ParentAt(ns: seq<Node>, k: nat)
    requires k < |ns|
  {
    exists j :: 0 <= j < k && ns[j].tree.Dir? && IsChild(ns[k].path, ns[j].path)
  }

  lemma ChildIs(path: string, name: string)
    requires name != "" && '/' !in name
    ensures IsChild(path + "/" + name, path)
  {
    var p := path + "/" + name;
    assert p[..|path| + 1] == path + "/" && p[|path| + 1..] == name;
  }

  lemma {:induction false} WalkHasParents(path: string, t: Tree)
    requires Sorted(t)
    ensures forall k | 0 < k < |Walk(path, t)| :: ParentAt(Walk(path, t), k)
    decreases t, 1
  {
    hide IsChild, SortedEntries, WalkEntries;
    if t.Dir? {
      var ns, rest := Walk(path, t), WalkEntries(path, t.entries);
      EntriesHaveParents(path, t.entries);
      forall k | 0 < k < |ns| ensures ParentAt(ns, k) {
        assert ns[k] == rest[k - 1] && ns[0] == Node(path, t);
        if !IsChild(ns[k].path, path) {
          assert ParentAt(rest, k - 1);
          var j :| 0 <= j < k - 1 && rest[j].tree.Dir? && IsChild(rest[k - 1].path, rest[j].path);
          assert ns[j + 1] == rest[j];
        }
      }
    }
  }

  lemma {:induction false} EntriesHaveParents(path: string, f: Forest)
    requires SortedEntries(f)
    ensures forall k | 0 <= k < |WalkEntries(path, f)| ::
              IsChild(WalkEntries(path, f)[k].path, path) || ParentAt(WalkEntries(path, f), k)
    decreases f, 0
  {
    hide IsChild, Sorted, Walk;
    if f.Cons? {
      var child := path + "/" + f.name;
      var here, there, ns := Walk(child, f.tree), WalkEntries(path, f.rest), WalkEntries(path, f);
      ChildIs(path, f.name);
      WalkHasParents(child, f.tree);
      WalkFirst(child, f.tree);
      EntriesHaveParents(path, f.rest);
      forall k | 0 <= k < |ns| ensures IsChild(ns[k].path, path) || ParentAt(ns, k) {
        if 0 < k < |here| {
          assert ParentAt(here, k);
          var j :| 0 <= j < k && here[j].tree.Dir? && IsChild(here[k].path, here[j].path);
          assert ns[j] == here[j] && ns[k] == here[k];
        } else if k >= |here| {
          var m := k - |here|;
          assert ns[k] == there[m];
          if !IsChild(there[m].path, path) {
            assert ParentAt(there, m);
            var j :| 0 <= j < m && there[j].tree.Dir? && IsChild(there[m].path, there[j].path);
            assert ns[j + |here|] == there[j];
          }
        }
      }
    }
  }

  lemma WalkFirst(path: string, t: Tree)
    ensures |Walk(path, t)| > 0 && Walk(path, t)[0] == Node(path, t)
  {
  }

  // ----- looking up a path -----------------------------------------------------------------------

  function Find(f: Forest, name: string): Option<Tree> {
    match f
    case Nil => None
    case Cons(n, t, rest) => if n == name then Some(t) else Find(rest, name)
  }

  function Lookup(t: Tree, parts: seq<string>): Option<Tree>
    decreases |parts|
  {
    if parts == [] then Some(t)
    else if !t.Dir? then None
    else
      match Find(t.entries, parts[0])
      case None => None
      case Some(u) => Lookup(u, parts[1..])
  }

  function PathOf(path: string, parts: seq<string>): string
    decreases |parts|
  {
    if parts == [] then path else PathOf(path + "/" + parts[0], parts[1..])
  }

  lemma {:induction false} LookupIsWalked(path: string, t: Tree, parts: seq<string>)
    requires Lookup(t, parts).Some?
    ensures Node(PathOf(path, parts), Lookup(t, parts).value) in Walk(path, t)
    decreases |parts|
  {
    if parts != [] {
      var u := Find(t.entries, parts[0]).value;
      LookupIsWalked(path + "/" + parts[0], u, parts[1..]);
      FindIsWalked(path, t.entries, parts[0]);
    }
  }

  lemma {:induction false} FindIsWalked(path: string, f: Forest, name: string)
    requires Find(f, name).Some?
    ensures forall n | n in Walk(path + "/" + name, Find(f, name).value) :: n in WalkEntries(path, f)
  {
    hide Walk;
    if f.name != name {
      FindIsWalked(path, f.rest, name);
    }
  }

  lemma {:induction false} WalkedIsLookup(path: string, t: Tree, n: Node) returns (parts: seq<string>)
    requires Sorted(t) && n in Walk(path, t)
    ensures Lookup(t, parts) == Some(n.tree) && PathOf(path, parts) == n.path
    decreases t, 1
  {
    if n == Node(path, t) {
      parts := [];
    } else {
      var name, rest := WalkedIsFound(path, t.entries, n);
      parts := [name] + rest;
      assert parts[1..] == rest;
    }
  }

  lemma {:induction false} WalkedIsFound(path: string, f: Forest, n: Node) returns (name: string, parts: seq<string>)
    requires SortedEntries(f) && n in WalkEntries(path, f)
    ensures Find(f, name).Some? && Lookup(Find(f, name).value, parts) == Some(n.tree)
    ensures PathOf(path + "/" + name, parts) == n.path && (name == f.name || Before(f.name, name))
    decreases f, 0
  {
    hide Walk, Lookup;
    if n in Walk(path + "/" + f.name, f.tree) {
      name := f.name;
      parts := WalkedIsLookup(path + "/" + f.name, f.tree, n);
    } else {
      assert n in WalkEntries(path, f.rest);
      name, parts := WalkedIsFound(path, f.rest, n);
      if name != f.rest.name {
        BeforeChains(f.name, f.rest.name, name);
      }
      var i := FirstDifference(f.name, name);
      assert f.name != name;
    }
  }

  // ----- exactly which trees are walked ------------------------------------------------------------

  lemma {:induction false} PathIsJoin(root: string, parts: seq<string>)
    ensures PathOf(root, parts) == Join([root] + parts)
    decreases |parts|
  {
    hide Join;
    if parts == [] {
      assert [root] + parts == [root];
      JoinOne(root);
    } else {
      PathIsJoin(root + "/" + parts[0], parts[1..]);
      JoinTwo(root, parts[0], parts[1..]);
      assert [parts[0]] + parts[1..] == parts;
    }
  }

  lemma {:induction false} JoinTwo(a: string, b: string, rest: seq<string>)
    ensures Join([a + "/" + b] + rest) == Join([a] + ([b] + rest))
    decreases |rest|
  {
    hide Join;
    if rest == [] {
      assert [a + "/" + b] + rest == [a + "/" + b] && [a] + ([b] + rest) == [a] + [b];
      JoinOne(a + "/" + b);
      JoinOne(a);
      JoinSnoc([a], b);
    } else {
      var init, last := rest[..|rest| - 1], rest[|rest| - 1];
      assert rest == init + [last];
      JoinTwo(a, b, init);
      JoinSnoc([a + "/" + b] + init, last);
      JoinSnoc([a] + ([b] + init), last);
      assert [a + "/" + b] + rest == ([a + "/" + b] + init) + [last];
      assert [a] + ([b] + rest) == ([a] + ([b] + init)) + [last];
    }
  }

  /** Names found in a sorted tree have no slashes. */
  lemma {:induction false} FoundAreNames(t: Tree, parts: seq<string>)
    requires Sorted(t) && Lookup(t, parts).Some?
    ensures forall k | 0 <= k < |parts| :: '/' !in parts[k]
    decreases |parts|
  {
    if parts != [] {
      FoundIsName(t.entries, parts[0]);
      FoundAreNames(Find(t.entries, parts[0]).value, parts[1..]);
      assert forall k | 0 < k < |parts| :: parts[k] == parts[1..][k - 1];
    }
  }

  lemma {:induction false} FoundIsName(f: Forest, name: string)
    requires SortedEntries(f) && Find(f, name).Some?
    ensures '/' !in name && Sorted(Find(f, name).value)
  {
    if f.name != name { FoundIsName(f.rest, name); }
  }

  /** The name of the folder and every name in it is safe, and nothing in it is special. */
  ghost predicate SafeTree(root: string, t: Tree) {
    SafePart(root) && forall parts | Lookup(t, parts).Some? :: !Lookup(t, parts).value.Special? && AllSafe(parts)
  }

  /**
   * A folder is walked to its end if and only if its own name and every name in it is safe on every platform, and
   * everything in it is a regular file or a directory.
   */
  lemma WalksExactly(root: string, t: Tree)
    requires Sorted(t) && '/' !in root
    ensures AllSendable(Walk(root, t)) <==> SafeTree(root, t)
  {
    hide AllSendable, SafeTree, Sorted;
    if AllSendable(Walk(root, t)) { WalkedIsSafe(root, t); }
    if SafeTree(root, t) { SafeIsWalked(root, t); }
  }

  lemma WalkedIsSafe(root: string, t: Tree)
    requires Sorted(t) && '/' !in root && AllSendable(Walk(root, t))
    ensures SafeTree(root, t)
  {
    hide Walk, ValidRelPath, Lookup, PathOf, Sorted, AllSendable, SafePart, AllSafe;
    LookupNothing(t);
    forall parts | Lookup(t, parts).Some? ensures SafePart(root) && !Lookup(t, parts).value.Special? && AllSafe(parts) {
      LookupIsWalked(root, t, parts);
      SendableIn(Walk(root, t), Node(PathOf(root, parts), Lookup(t, parts).value));
      NodeIsSafe(root, t, parts);
    }
    assert Lookup(t, []).Some?;
  }

  lemma SafeIsWalked(root: string, t: Tree)
    requires Sorted(t) && '/' !in root && SafeTree(root, t)
    ensures AllSendable(Walk(root, t))
  {
    hide Walk, ValidRelPath, Lookup, PathOf, Sorted, SafePart, AllSafe;
    var ns := Walk(root, t);
    forall k | 0 <= k < |ns| ensures Sendable(ns[k]) {
      assert ns[k] in ns;
      var parts := WalkedIsLookup(root, t, ns[k]);
      NodeIsSafe(root, t, parts);
    }
  }

  predicate AllSafe(parts: seq<string>) {
    forall k | 0 <= k < |parts| :: SafePart(parts[k])
  }

  lemma LookupNothing(t: Tree)
    ensures Lookup(t, []) == Some(t)
  {
  }

  lemma SendableIn(ns: seq<Node>, n: Node)
    requires AllSendable(ns) && n in ns
    ensures Sendable(n)
  {
    var k :| 0 <= k < |ns| && ns[k] == n;
  }

  lemma NodeIsSafe(root: string, t: Tree, parts: seq<string>)
    requires Sorted(t) && '/' !in root && Lookup(t, parts).Some?
    ensures ValidRelPath(PathOf(root, parts)) <==> SafePart(root) && AllSafe(parts)
  {
    hide Join, ValidRelPath, Lookup, PathOf, Sorted, SafePart;
    FoundAreNames(t, parts);
    PathIsJoin(root, parts);
    var all := [root] + parts;
    ValidWhenSafe(all);
    assert all[0] == root && forall k | 0 <= k < |parts| :: all[k + 1] == parts[k];
    if SafeParts(all) {
      assert SafePart(all[0]);
      forall k | 0 <= k < |parts| ensures SafePart(parts[k]) { assert SafePart(all[k + 1]); }
    }
  }

  // ----- what the entries say -----------------------------------------------------------------------

  /** An entry of a folder: the path of its node, the last component of that as its name, and what is there. */
  lemma EntryIs(h: Hash, ns: seq<Node>, k: nat)
    requires k < |ns|
    ensures var meta := Metas(h, ns)[k];
            && meta.relPath == ns[k].path && '/' !in meta.name
            && (meta.relPath == meta.name || EndsWith(meta.relPath, "/" + meta.name))
            && (meta.isDir <==> !ns[k].tree.File?)
            && (ns[k].tree.File? ==> Sources(ns)[k] == ns[k].tree.content
                                     && meta.size == |ns[k].tree.content| && meta.sha == h(ns[k].tree.content))
            && (!ns[k].tree.File? ==> meta.size == 0 && meta.sha == [])
  {
    hide Split;
    BaseIsLast(ns[k].path);
  }

  lemma BaseIsLast(p: string)
    ensures '/' !in BaseName(p) && (p == BaseName(p) || EndsWith(p, "/" + BaseName(p)))
  {
    hide Split, Join;
    JoinSplit(p);
    var parts := Split(p);
    var front, last := parts[..|parts| - 1], parts[|parts| - 1];
    assert front + [last] == parts;
    if front == [] {
      JoinOne(last);
    } else {
      JoinSnoc(front, last);
      assert p == Join(front) + ("/" + last);
    }
  }

  /** Where the entries of the k-th path given begin. */
  function StartOf(h: Hash, roots: seq<Root>, k: nat): nat
    requires k <= |roots|
  {
    |AllMetas(h, roots[..k])|
  }

  /**
   * A plain file among the paths given: its entry has its own base name, no relative path, its size and its digest,
   * and its source is its content. Among plain files only, the k-th entry is the k-th file.
   */
  lemma {:induction false} FileEntryIs(h: Hash, roots: seq<Root>, k: nat)
    requires k < |roots| && roots[k].tree.File?
    ensures var n, x := StartOf(h, roots, k), roots[k].tree.content;
            && n < |AllMetas(h, roots)| == |AllSources(roots)|
            && AllMetas(h, roots)[n] == FileMeta(false, roots[k].name, |x|, h(x), "") && AllSources(roots)[n] == x
    ensures (forall j | 0 <= j < |roots| :: roots[j].tree.File?) ==>
              |AllMetas(h, roots)| == |roots| && StartOf(h, roots, k) == k
  {
    hide RootMetas, RootSources;
    var last := |roots| - 1;
    AllDescribed(h, roots);
    AllDescribed(h, roots[..last]);
    FileRoot(h, roots[k]);
    if k < last {
      FileEntryIs(h, roots[..last], k);
      assert roots[..last][..k] == roots[..k];
      if forall j | 0 <= j < |roots| :: roots[j].tree.File? { FileRoot(h, roots[last]); }
    } else if forall j | 0 <= j < |roots| :: roots[j].tree.File? {
      if k > 0 { FileEntryIs(h, roots[..k], k - 1); } else { assert roots[..0] == []; }
    }
  }

  lemma FileRoot(h: Hash, r: Root)
    requires r.tree.File?
    ensures RootMetas(h, r) == [FileMeta(false, r.name, |r.tree.content|, h(r.tree.content), "")]
    ensures RootSources(r) == [r.tree.content]
  {
  }
}
