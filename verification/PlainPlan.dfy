/**
 * When nothing on the receiver's disk, and nothing in the manifest itself, is in the way of an entry: a condition on
 * these two alone, under which an undisturbed transfer succeeds and puts every entry where it asks to be.
 */
module PlainPlan {
  import opened Basics
  import opened Names
  import opened Receiver
  import opened ReceiverSafety
  import opened Confinement
  import opened Overwrites
  import opened FileTree
  import opened Removals
  import opened Attempts
  import opened Transfer
  import opened Undisturbed
  import Folders
  import R = Resume

  // ----- the condition ------------------------------------------------------------------------

  /** Where an entry asks to be. */
  function Goal(meta: FileMeta): Path {
    if meta.isDir || meta.relPath != "" then meta.relPath else SanitizeName(meta.name)
  }

  /** That path and the directories that lead to it. */
  ghost function Way(meta: FileMeta): set<Path> {
    Leading(Split(Goal(meta)))
  }

  /** The directories the entry makes. */
  ghost function DirsFor(meta: FileMeta): set<Path> {
    if meta.isDir then Way(meta) else Leading(Front(Goal(meta)))
  }

  /** A file's path and the two temporaries it uses. */
  function Spot(meta: FileMeta): set<Path> {
    {Goal(meta), Tmp(Goal(meta)), Sidecar(Goal(meta))}
  }

  /** Nothing on the disk is in the way of the entry. */
  ghost predicate FreeFor(s: State, meta: FileMeta) {
    && DirsFor(meta) !! s.files.Keys
    && if meta.isDir then ValidRelPath(meta.relPath)
       else WantedName(meta).Some? && Spot(meta) !! s.files.Keys + s.dirs && Tmp(Goal(meta)) !in s.claims
  }

  /** No file is on the way of another entry, nor its temporaries on that of an earlier one. */
  ghost predicate Apart(c: Plan) {
    forall j, k | 0 <= j < |c.manifest| && 0 <= k < |c.manifest| && j != k && !c.manifest[j].isDir ::
      Goal(c.manifest[j]) !in Way(c.manifest[k]) && (k < j ==> Spot(c.manifest[j]) !! Way(c.manifest[k]))
  }

  ghost predicate Plain(c: Plan, s: State) {
    (forall k | 0 <= k < |c.manifest| :: FreeFor(s, c.manifest[k])) && Apart(c)
  }

  // ----- what has been put in place so far ---------------------------------------------------------

  function FilesTo(c: Plan, k: nat): Files
    requires k <= |c.manifest| == |c.sources|
  {
    if k == 0 then map[]
    else if c.manifest[k - 1].isDir then FilesTo(c, k - 1)
    else FilesTo(c, k - 1)[Goal(c.manifest[k - 1]) := c.sources[k - 1]]
  }

  ghost function DirsTo(c: Plan, k: nat): set<Path>
    requires k <= |c.manifest|
  {
    if k == 0 then {} else DirsTo(c, k - 1) + DirsFor(c.manifest[k - 1])
  }

  function ClaimsTo(c: Plan, k: nat): set<Path>
    requires k <= |c.manifest|
  {
    if k == 0 then {}
    else if c.manifest[k - 1].isDir then ClaimsTo(c, k - 1)
    else ClaimsTo(c, k - 1) + {Tmp(Goal(c.manifest[k - 1]))}
  }

  lemma {:induction false} FilesToAre(c: Plan, k: nat, p: Path)
    requires k <= |c.manifest| == |c.sources|
    ensures p in FilesTo(c, k) <==> exists j :: 0 <= j < k && !c.manifest[j].isDir && Goal(c.manifest[j]) == p
  {
    hide Goal;
    if k > 0 {
      FilesToAre(c, k - 1, p);
      if p in FilesTo(c, k - 1) {
        var j :| 0 <= j < k - 1 && !c.manifest[j].isDir && Goal(c.manifest[j]) == p;
        assert 0 <= j < k;
      } else if !c.manifest[k - 1].isDir && Goal(c.manifest[k - 1]) == p {
        assert 0 <= k - 1 < k;
      }
    }
  }

  lemma {:induction false} DirsToAre(c: Plan, k: nat, p: Path)
    requires k <= |c.manifest| && p in DirsTo(c, k)
    ensures exists j :: 0 <= j < k && p in Way(c.manifest[j])
  {
    hide Way, Leading, Split, Front, Goal;
    if p in DirsTo(c, k - 1) {
      DirsToAre(c, k - 1, p);
      var j :| 0 <= j < k - 1 && p in Way(c.manifest[j]);
    } else {
      DirsAreOnTheWay(c.manifest[k - 1]);
      assert p in Way(c.manifest[k - 1]);
    }
  }

  lemma DirsAreOnTheWay(meta: FileMeta)
    ensures DirsFor(meta) <= Way(meta) && Goal(meta) in Way(meta)
  {
    hide Split, Goal, Leading;
    LeadingSnoc(Split(Goal(meta)));
    Folders.LeadingHasSelf(Goal(meta));
  }

  lemma {:induction false} ClaimsToAre(c: Plan, k: nat, t: Path)
    requires k <= |c.manifest| && t in ClaimsTo(c, k)
    ensures exists j :: 0 <= j < k && !c.manifest[j].isDir && t == Tmp(Goal(c.manifest[j]))
  {
    hide Goal, Tmp;
    if t in ClaimsTo(c, k - 1) {
      ClaimsToAre(c, k - 1, t);
      var j :| 0 <= j < k - 1 && !c.manifest[j].isDir && t == Tmp(Goal(c.manifest[j]));
      assert 0 <= j < k;
    } else {
      assert t == Tmp(Goal(c.manifest[k - 1]));
    }
  }

  /** The first k entries of the plan are in place, on top of s. */
  ghost predicate Reached(s: State, c: Plan, k: nat, now: State)
    requires k <= |c.manifest| == |c.sources|
  {
    && now.files == s.files + FilesTo(c, k) && now.dirs == s.dirs + DirsTo(c, k) && now.claims == s.claims + ClaimsTo(c, k)
    && c.sid in now.sessions
    && var sess := now.sessions[c.sid];
       && sess.phase == Idle && sess.resume && sess.manifest == c.manifest
       && (forall i | i in sess.slots :: i < k) && forall i | i in sess.completed :: i < k
  }

  // ----- one more entry ------------------------------------------------------------------------------

  lemma EntryIsFree(s: State, c: Plan, k: nat, now: State)
    requires |c.manifest| == |c.sources| && Plain(c, s) && k < |c.manifest| && Reached(s, c, k, now)
    ensures FreeFor(now, c.manifest[k])
  {
    hide Way, Goal, FilesTo, DirsTo, ClaimsTo, DirsFor, Spot, ValidRelPath, WantedName, Tmp;
    var meta := c.manifest[k];
    assert FreeFor(s, meta);
    DirsAreOnTheWay(meta);
    forall p | p in FilesTo(c, k) ensures p !in DirsFor(meta) && (!meta.isDir ==> p !in Spot(meta)) {
      FilesToAre(c, k, p);
      var j :| 0 <= j < k && !c.manifest[j].isDir && Goal(c.manifest[j]) == p;
      DirsAreOnTheWay(c.manifest[j]);
    }
    if !meta.isDir {
      forall p | p in DirsTo(c, k) ensures p !in Spot(meta) {
        DirsToAre(c, k, p);
      }
      forall j | 0 <= j < k && !c.manifest[j].isDir ensures Tmp(Goal(meta)) != Tmp(Goal(c.manifest[j])) {
        TempPathsDiffer(Goal(meta), Goal(c.manifest[j]));
        DirsAreOnTheWay(c.manifest[j]);
      }
      if Tmp(Goal(meta)) in ClaimsTo(c, k) { ClaimsToAre(c, k, Tmp(Goal(meta))); }
    }
  }

  /** A free file is granted the path it asks for. */
  lemma FreeIsGranted(s: State, meta: FileMeta)
    requires FreeFor(s, meta) && !meta.isDir
    ensures Reserve(s, meta) == Granted(Goal(meta), s.dirs + DirsFor(meta))
    ensures Spot(meta) !! s.dirs + DirsFor(meta)
  {
    hide FreeName, Candidate, MakeDirs, Split, Join, Leading, Legal, SanitizeName, ValidRelPath;
    var p := Goal(meta);
    assert p !in ClaimedNames(s.claims);
    assert p !in Occupied(s);
    NotLeading(p);
    if meta.relPath != "" {
      FreePathIsGranted(s, meta);
    } else {
      SanitizedIsLegal(meta.name);
      NothingLeads();
      CandidateZero(p);
      R.FreeNameIs(p, Occupied(s), 0);
    }
  }

  lemma DirIsTaken(h: Hash, s: State, c: Plan, k: nat, now: State)
    requires WellPlanned(h, c) && |c.manifest| == |c.sources| && Plain(c, s) && k < |c.manifest| && Reached(s, c, k, now)
    requires c.manifest[k].isDir
    ensures CanTake(h, now, c.sid, k, c.sources[k]) && Reached(s, c, k + 1, Taken(h, now, c.sid, k, c.sources[k]))
  {
    hide FilesTo, MakeDirs, Leading, Split, ValidRelPath, CleanManifest;
    var rel := c.manifest[k].relPath;
    EntryIsFree(s, c, k, now);
    MakeDirsExactly(now.files, now.dirs, Split(rel));
    assert CreateDirectory(now.files, now.dirs, rel) == DirResult(true, now.dirs + Way(c.manifest[k]));
    FilesToDir(c, k);
  }

  lemma FilesToDir(c: Plan, k: nat)
    requires k < |c.manifest| == |c.sources|
    ensures FilesTo(c, k + 1) == if c.manifest[k].isDir then FilesTo(c, k) else FilesTo(c, k)[Goal(c.manifest[k]) := c.sources[k]]
  {
  }

  /** What an attempt leaves at a free path. */
  lemma FreshResult(h: Hash, s: State, sid: Sid, i: nat, x: Bytes)
    requires Asked(s, sid, i)
    requires var meta := s.sessions[sid].manifest[i];
             && FreeFor(s, meta) && !meta.isDir && meta.size == |x| && meta.sha == h(x)
             && Reserve(s, meta) == Granted(Goal(meta), s.dirs + DirsFor(meta)) && Spot(meta) !! s.dirs + DirsFor(meta)
    ensures CanTake(h, s, sid, i, x)
    ensures var meta, sess, t := s.sessions[sid].manifest[i], s.sessions[sid], Taken(h, s, sid, i, x);
            && t.files == s.files[Goal(meta) := x] && t.dirs == s.dirs + DirsFor(meta) && t.claims == s.claims + {Tmp(Goal(meta))}
            && sid in t.sessions && t.sessions[sid] == sess.(slots := sess.slots[i := Goal(meta)],
                 completed := sess.completed + {i}, offers := sess.offers[i := 0])
  {
    hide Reserve, EqualFold, DirsFor, Goal, Swept, WantedName;
    var meta := s.sessions[sid].manifest[i];
    var p, dirs := Goal(meta), s.dirs + DirsFor(meta);
    assert Tmp(p) in Spot(meta) && p in Spot(meta) && Sidecar(p) in Spot(meta);
    assert Seed(s.files, p, meta) == [];
    assert [] + x[0..] == x;
    Folders.SameDigest(h, x);
    assert RemovePart(s.files, p) == s.files;
    NothingSwept(s.files, dirs, {Sidecar(p)});
  }

  lemma FileIsTaken(h: Hash, s: State, c: Plan, k: nat, now: State)
    requires WellPlanned(h, c) && |c.manifest| == |c.sources| && Plain(c, s) && k < |c.manifest| && Reached(s, c, k, now)
    requires !c.manifest[k].isDir
    ensures CanTake(h, now, c.sid, k, c.sources[k]) && Reached(s, c, k + 1, Taken(h, now, c.sid, k, c.sources[k]))
  {
    hide FilesTo, Reserve, CanTake, Taken, FreeFor, DirsFor, Spot, Goal, CleanManifest;
    EntryIsFree(s, c, k, now);
    FreeIsGranted(now, c.manifest[k]);
    FreshResult(h, now, c.sid, k, c.sources[k]);
    FilesToDir(c, k);
  }

  // ----- the whole transfer ---------------------------------------------------------------------------

  lemma {:induction false} EntriesAreTaken(h: Hash, s: State, c: Plan, k: nat, now: State)
    requires WellPlanned(h, c) && Plain(c, s) && k <= |c.manifest| == |c.sources| && Reached(s, c, k, now)
    ensures Grantable(h, now, c, k) && Reached(s, c, |c.manifest|, AllTaken(h, now, c, k))
    decreases |c.manifest| - k
  {
    hide WellPlanned, Plain, Reached, CanTake, Taken;
    if k < |c.manifest| {
      if c.manifest[k].isDir { DirIsTaken(h, s, c, k, now); } else { FileIsTaken(h, s, c, k, now); }
      EntriesAreTaken(h, s, c, k + 1, Taken(h, now, c.sid, k, c.sources[k]));
    }
  }

  lemma BeginReached(h: Hash, c: Plan, s: State)
    requires |c.manifest| == |c.sources| && c.manifest != [] && c.sid !in s.sessions
    ensures Reached(s, c, 0, Begin(h, c, s).recv)
  {
  }

  /**
   * A plain manifest is transferred by a run that nothing disturbs: SendFiles returns without an error, every file is
   * at the path it asks for, with its source's bytes, every directory is there, and nothing else has changed.
   */
  lemma PlainSucceeds(h: Hash, c: Plan, s: State) returns (events: seq<JointEvent>)
    requires Inv(h, s) && WellPlanned(h, c) && c.manifest != [] && c.sid !in s.sessions && |c.manifest| == |c.sources|
    requires Plain(c, s)
    ensures Smooth(events) && AllAllowed(events)
    ensures var j, n := JointRun(h, c, Begin(h, c, s), events), |c.manifest|;
            && j.pc == Done && j.recv.files == s.files + FilesTo(c, n) && j.recv.dirs == s.dirs + DirsTo(c, n)
            && forall k: nat | k < n :: InPlace(c, j.recv, k)
  {
    hide Inv, WellPlanned, Plain, JointRun, Begin, Grantable, AllTaken, Smooth, AllAllowed, FilesTo, DirsTo, InPlace;
    BeginReached(h, c, s);
    EntriesAreTaken(h, s, c, 0, Begin(h, c, s).recv);
    events := UndisturbedSucceeds(h, c, s);
    var n := |c.manifest|;
    forall k: nat | k < n ensures InPlace(c, JointRun(h, c, Begin(h, c, s), events).recv, k) {
      GoalReached(c, s, JointRun(h, c, Begin(h, c, s), events).recv, n, k);
    }
  }

  /** Entry k is at the path it asks for. */
  predicate InPlace(c: Plan, s: State, k: nat)
    requires k < |c.manifest| == |c.sources|
  {
    var p := Goal(c.manifest[k]);
    if c.manifest[k].isDir then p in s.dirs else p in s.files && s.files[p] == c.sources[k]
  }

  lemma GoalReached(c: Plan, s: State, now: State, n: nat, k: nat)
    requires Plain(c, s) && k < n <= |c.manifest| == |c.sources|
    requires now.files == s.files + FilesTo(c, n) && now.dirs == s.dirs + DirsTo(c, n)
    ensures InPlace(c, now, k)
  {
    hide FreeFor, Way, DirsFor, Spot, Goal;
    if c.manifest[k].isDir { DirIsThere(c, n, k); } else { FileIsThere(c, n, k); }
  }

  lemma {:induction false} FileIsThere(c: Plan, n: nat, k: nat)
    requires Apart(c) && k < n <= |c.manifest| == |c.sources| && !c.manifest[k].isDir
    ensures Goal(c.manifest[k]) in FilesTo(c, n) && FilesTo(c, n)[Goal(c.manifest[k])] == c.sources[k]
  {
    hide Way, Spot, Goal;
    if k < n - 1 {
      FileIsThere(c, n - 1, k);
      DirsAreOnTheWay(c.manifest[n - 1]);
    }
  }

  lemma {:induction false} DirIsThere(c: Plan, n: nat, k: nat)
    requires k < n <= |c.manifest| && c.manifest[k].isDir
    ensures Goal(c.manifest[k]) in DirsTo(c, n)
  {
    hide Way, Goal;
    if k < n - 1 { DirIsThere(c, n - 1, k); } else { DirsAreOnTheWay(c.manifest[k]); }
  }

  // ----- the theorems about successful transfers are about runs that exist -------------------------------------

  /** Any content can be sent to an empty disk: a run in which SendFiles returns without an error. */
  lemma SuccessIsReachable(h: Hash, x: Bytes)
    ensures exists c: Plan, s: State, events: seq<JointEvent> ::
              && Inv(h, s) && WellNamed(s) && Tree(s.files, s.dirs) && WellPlanned(h, c) && c.manifest != []
              && c.sid !in s.sessions && AllAllowed(events) && c.sources == [x]
              && JointRun(h, c, Begin(h, c, s), events).pc == Done
  {
    hide JointRun, Begin, AllAllowed, Smooth;
    var c, s := Plan(0, [FileMeta(false, "f", |x|, h(x), "")], [x]), State(map[], {}, {}, map[], map[]);
    OneFileIsPlain(h, x, c, s);
    var events := PlainSucceeds(h, c, s);
    assert JointRun(h, c, Begin(h, c, s), events).pc == Done;
  }

  lemma OneFileIsPlain(h: Hash, x: Bytes, c: Plan, s: State)
    requires c == Plan(0, [FileMeta(false, "f", |x|, h(x), "")], [x]) && s == State(map[], {}, {}, map[], map[])
    ensures WellPlanned(h, c) && Plain(c, s) && Inv(h, s) && WellNamed(s) && Tree(s.files, s.dirs)
  {
    hide Split, Join, Leading;
    PlainIsClean("f");
  }
}
