/**
 * Partials across attempts: what a dropped connection leaves, when the next attempt continues
 * from it, why it is a prefix of the source, and how a bad partial heals itself.
 */
module Resume {
  import opened Basics
  import opened Names
  import opened Receiver
  import opened ReceiverSafety
  import opened ReceiverRuns
  import opened Confinement
  import opened FileTree
  import A = Attempts

  // ----- the same name again ------------------------------------------------------

  /** A reservation yields candidate k exactly when it is free and every earlier candidate is not. */
  lemma FreeNameIs(name: string, occupied: set<string>, k: nat)
    ensures FreeName(name, occupied) == Candidate(name, k)
       <==> Candidate(name, k) !in occupied && forall j: nat | j < k :: Candidate(name, j) in occupied
  {
    hide Candidate;
    var m := FirstFree(name, occupied, 0);
    if FreeName(name, occupied) == Candidate(name, k) {
      CandidateInjective(name, m, k);
    }
    if Candidate(name, k) !in occupied && forall j: nat | j < k :: Candidate(name, j) in occupied {
      FirstFreeUnique(name, occupied, k);
    }
  }

  /** Nothing under construction is in the way of a granted destination but a directory at its temporary. */
  lemma GrantedIsClear(s: State, meta: FileMeta)
    requires Reserve(s, meta).Granted? && Tmp(Reserve(s, meta).dest) !in s.dirs
    ensures A.ClearOfDirs(s, meta)
    ensures Reserve(s, meta).dirs == s.dirs || (WantedName(meta).Some? && |Split(WantedName(meta).value)| > 1
              && Reserve(s, meta).dirs == s.dirs + Leading(Split(WantedName(meta).value)[..|Split(WantedName(meta).value)| - 1]))
  {
    hide Candidate, Split, Join, Legal, SanitizeName, ValidRelPath, MakeDirs;
    var name := WantedName(meta).value;
    var d := Reserve(s, meta).dest;
    var parts := Split(name);
    if meta.relPath != "" && |parts| > 1 {
      RelIsLegal(name);
      ParentFacts(name);
      var front := parts[..|parts| - 1];
      var parent := Join(front);
      assert CreateDirectory(s.files, s.dirs, parent) == MakeDirs(s.files, s.dirs, front);
      MakeDirsExactly(s.files, s.dirs, front);
      LeadingIsShorter(s, meta);
    }
  }

  /** The directories that lead to a destination are neither it nor one of its temporaries. */
  lemma LeadingIsShorter(s: State, meta: FileMeta)
    requires Reserve(s, meta).Granted? && meta.relPath != "" && |Split(meta.relPath)| > 1
    ensures forall p | p in Leading(Front(meta.relPath)) :: |p| < |Reserve(s, meta).dest|
  {
    hide Candidate, Split, Join, Legal, SanitizeName, ValidRelPath, MakeDirs;
    var name, d := meta.relPath, Reserve(s, meta).dest;
    RelIsLegal(name);
    var k := FirstFree(name, Occupied(s), 0);
    assert d == Candidate(name, k);
    CandidateIsLegal(name, k);
    LongerThanParent(name, d);
    forall p | p in Leading(Front(name)) ensures |p| < |d| {
      var m :| 1 <= m <= |Front(name)| && p == Join(Front(name)[..m]);
      JoinGrows(Front(name), m);
    }
  }

  lemma LongerThanParent(name: string, d: string)
    requires Legal(name) && Legal(d) && |Split(name)| == |Split(d)| > 1
    requires Split(d)[..|Split(d)| - 1] == Split(name)[..|Split(name)| - 1]
    ensures |Join(Split(name)[..|Split(name)| - 1])| < |d|
  {
    ParentFacts(d);
  }

  // ----- self-healing ----------------------------------------------------------------

  /** The source x is described by its manifest entry. */
  predicate Declares(h: Hash, meta: FileMeta, x: Bytes) {
    !meta.isDir && meta.size == |x| && meta.sha == h(x)
  }

  lemma PrefixDecides(h: Hash, x: Bytes, seed: Bytes)
    requires CollisionFree(h) && |seed| <= |x|
    ensures EqualFold(h(seed + x[|seed|..]), h(x)) <==> seed <= x
    ensures seed <= x ==> seed + x[|seed|..] == x
  {
    if seed <= x {
      assert seed + x[|seed|..] == x;
    } else {
      var y := seed + x[|seed|..];
      assert y[..|seed|] == seed;
      assert y != x;
    }
  }

  /** A session for one file, just started. */
  function Started(s: State, sid: Sid, meta: FileMeta): State {
    With(s, sid, Session([meta], true, map[], {}, {}, map[], Idle))
  }

  /** One attempt of a one-file session, from session_start to the last frame of the file. */
  function Attempt(sid: Sid, meta: FileMeta, items: seq<A.Item>): seq<Event> {
    [Start(sid, [meta], true)] + A.AttemptEvents(sid, 0, items)
  }

  /** The state after an uninterrupted attempt of a one-file session. */
  predicate AttemptLeaves(s: State, s': State, sid: Sid, meta: FileMeta, x: Bytes)
    requires Reserve(s, meta).Granted?
  {
    var r := Reserve(s, meta);
    && s'.sessions.Keys == s.sessions.Keys + {sid}
    && s'.dirs == Swept(s.files, r.dirs, {Sidecar(r.dest)}) && s'.claims == s.claims + {Tmp(r.dest)}
    && var sess := s'.sessions[sid];
       && sess.slots == map[0 := r.dest] && sess.released == {} && sess.manifest == [meta]
       && if A.Seed(s.files, r.dest, meta) <= x
          then sess.completed == {0} && sess.phase.Idle? && s'.files == RemovePart(s.files, r.dest)[r.dest := x]
          else sess.completed == {} && sess.phase == Ended(false) && s'.files == RemovePart(s.files, r.dest)
  }

  lemma AttemptOutcome(h: Hash, s: State, sid: Sid, meta: FileMeta, x: Bytes, items: seq<A.Item>)
    requires CollisionFree(h) && Declares(h, meta, x)
    requires sid !in s.sessions && Reserve(s, meta).Granted? && Tmp(Reserve(s, meta).dest) !in s.dirs
    requires A.FileTail(items, 0, x, PartialLen(s.files, Reserve(s, meta).dest, meta))
    ensures AttemptLeaves(s, Run(h, s, Attempt(sid, meta, items)), sid, meta, x)
  {
    var r := Reserve(s, meta);
    var s1 := Started(s, sid, meta);
    hide Reserve, Run, A.FileTail, A.Arrivals, EqualFold, PartialLen;
    A.RunCons(h, s, Start(sid, [meta], true), A.AttemptEvents(sid, 0, items));
    A.ReserveIgnoresSessions(s, s1, meta);
    assert Step(h, s, Start(sid, [meta], true)).state == s1;
    GrantedIsClear(s1, meta);
    A.AttemptRuns(h, s1, sid, 0, x, items);
    A.SeedLength(s.files, r.dest, meta);
    A.TailBound(items, 0, x, PartialLen(s.files, r.dest, meta));
    PrefixDecides(h, x, A.Seed(s.files, r.dest, meta));
    AttemptOutcomeShape(h, s, sid, meta, x);
  }

  lemma AttemptOutcomeShape(h: Hash, s: State, sid: Sid, meta: FileMeta, x: Bytes)
    requires sid !in s.sessions && !meta.isDir && Reserve(s, meta).Granted?
    requires Reserve(Started(s, sid, meta), meta) == Reserve(s, meta)
    requires var seed := A.Seed(s.files, Reserve(s, meta).dest, meta);
             |seed| <= |x| && (EqualFold(h(seed + x[|seed|..]), meta.sha) <==> seed <= x) && (seed <= x ==> seed + x[|seed|..] == x)
    requires Tmp(Reserve(s, meta).dest) !in Reserve(s, meta).dirs
    ensures AttemptLeaves(s, A.AttemptResult(h, Started(s, sid, meta), sid, 0, x), sid, meta, x)
  {
    hide Reserve, EqualFold, A.Seed, PartialLen, Probe, Swept;
    var r := Reserve(s, meta);
    A.SweptWithout(s.files, r.dirs, Tmp(r.dest), Sidecar(r.dest));
  }

  /**
   * Self-healing. Whatever is on disk, a partial with wrong bytes and a matching sidecar included, an
   * uninterrupted attempt delivers exactly the source or fails, and it fails exactly when the bytes it
   * continued from are not a prefix of the source. After a failure the next uninterrupted attempt is
   * offered zero and delivers the source under the same name.
   */
  lemma SelfHealing(h: Hash, s: State, a: Sid, b: Sid, meta: FileMeta, x: Bytes, first: seq<A.Item>, second: seq<A.Item>)
    requires CollisionFree(h) && Declares(h, meta, x)
    requires a !in s.sessions && b !in s.sessions && a != b
    requires WantedName(meta).Some? && !Reserved(WantedName(meta).value)
    requires Reserve(s, meta).Granted? && Tmp(Reserve(s, meta).dest) !in s.dirs
    requires A.FileTail(first, 0, x, PartialLen(s.files, Reserve(s, meta).dest, meta))
    requires A.FileTail(second, 0, x, 0)
    ensures var d := Reserve(s, meta).dest;
            var s1 := Run(h, s, Attempt(a, meta, first));
            && a in s1.sessions
            && (s1.sessions[a].completed == {0} <==> A.Seed(s.files, d, meta) <= x)
            && (s1.sessions[a].completed == {0} ==> d in s1.files && s1.files[d] == x)
            && (s1.sessions[a].completed != {0} ==>
                  var s2 := Run(h, Step(h, s1, Release(a, 0)).state, Attempt(b, meta, second));
                  b in s2.sessions && s2.sessions[b].completed == {0} && d in s2.files && s2.files[d] == x)
  {
    hide Run, Reserve, A.FileTail, A.Seed, PartialLen, Attempt, Reserved, SanitizeName, ValidRelPath;
    var r := Reserve(s, meta);
    var s1 := Run(h, s, Attempt(a, meta, first));
    AttemptOutcome(h, s, a, meta, x, first);
    if !(A.Seed(s.files, r.dest, meta) <= x) {
      var t := Step(h, s1, Release(a, 0)).state;
      HealedReserve(s, t, meta);
      NoPartial(t.files, r.dest, meta);
      AttemptOutcome(h, t, b, meta, x, second);
    }
  }

  lemma NoPartial(files: Files, d: Path, meta: FileMeta)
    requires Tmp(d) !in files
    ensures PartialLen(files, d, meta) == 0 && A.Seed(files, d, meta) == []
  {
  }

  /** Once the failed slot is released and its partial is gone, the same name is reserved again. */
  lemma HealedReserve(s: State, t: State, meta: FileMeta)
    requires WantedName(meta).Some? && !Reserved(WantedName(meta).value)
    requires Reserve(s, meta).Granted? && Tmp(Reserve(s, meta).dest) !in s.dirs
    requires t.files == RemovePart(s.files, Reserve(s, meta).dest)
    requires t.dirs == Swept(s.files, Reserve(s, meta).dirs, {Sidecar(Reserve(s, meta).dest)})
    requires t.claims == s.claims + {Tmp(Reserve(s, meta).dest)} - {Tmp(Reserve(s, meta).dest)}
    ensures Reserve(t, meta) == Granted(Reserve(s, meta).dest, t.dirs)
    ensures Tmp(Reserve(s, meta).dest) !in t.files && Tmp(Reserve(s, meta).dest) !in t.dirs
  {
    hide Candidate, Split, Join, Legal, SanitizeName, MakeDirs, Reserved, TempName;
    var r := Reserve(s, meta);
    var name, d := WantedName(meta).value, r.dest;
    GrantedIsFree(s, meta);
    GrantedIsClear(s, meta);
    assert t.claims == s.claims;
    assert t.files.Keys <= s.files.Keys;
    var k := FirstFree(name, Occupied(s), 0);
    TempPathsAreTempNames(d);
    forall j: nat | j < k ensures Candidate(name, j) in Occupied(t) {
      UnreservedStaysUnreserved(name, j);
      assert Candidate(name, j) in Occupied(s);
      assert Candidate(name, j) in s.dirs ==> Candidate(name, j) in t.dirs;
    }
    assert d !in Occupied(t);
    FreeNameIs(name, Occupied(t), k);
    HealedDirs(s, t, meta);
  }

  lemma HealedDirs(s: State, t: State, meta: FileMeta)
    requires Reserve(s, meta).Granted? && t.files.Keys <= s.files.Keys
    requires t.dirs == Swept(s.files, Reserve(s, meta).dirs, {Sidecar(Reserve(s, meta).dest)})
    requires WantedName(meta).Some? && FreeName(WantedName(meta).value, Occupied(t)) == Reserve(s, meta).dest
    ensures Reserve(t, meta) == Granted(Reserve(s, meta).dest, t.dirs)
  {
    hide Candidate, FreeName, Split, Join, Legal, SanitizeName, MakeDirs, Occupied;
    var name := WantedName(meta).value;
    var parts := Split(name);
    if meta.relPath != "" && |parts| > 1 {
      RelIsLegal(name);
      ParentFacts(name);
      var front := parts[..|parts| - 1];
      MakeDirsExactly(s.files, s.dirs, front);
      MakeDirsExactly(t.files, t.dirs, front);
      LeadingIsShorter(s, meta);
    }
  }

  // ----- what a drop leaves behind ------------------------------------------------------

  /** An ended session only gives slots back. */
  lemma EndedStays(h: Hash, s: State, e: Event, sid: Sid)
    requires sid in s.sessions && s.sessions[sid].phase.Ended?
    ensures var s' := Step(h, s, e).state;
            && sid in s'.sessions
            && (e.sid == sid ==> s'.files == s.files && s'.dirs == s.dirs)
            && s'.sessions[sid] == s.sessions[sid].(released := s'.sessions[sid].released)
            && s.sessions[sid].released <= s'.sessions[sid].released
  {
    if e.sid != sid {
      hide Step;
      StepTouches(h, s, e);
    }
  }

  /** While the slot of a dropped transfer is not released, no run of other sessions touches its partial. */
  lemma {:induction false} PartialSurvives(h: Hash, s: State, sid: Sid, i: nat, events: seq<Event>)
    requires Inv(h, s) && AllAdmissible(events)
    requires sid in s.sessions && s.sessions[sid].phase.Ended? && i in s.sessions[sid].slots
    ensures var s' := Run(h, s, events);
            && Inv(h, s') && sid in s'.sessions && s'.sessions[sid].phase.Ended?
            && s'.sessions[sid].slots == s.sessions[sid].slots
            && (Live(s', sid, i) ==> Live(s, sid, i) && Untouched(s, s', s.sessions[sid].slots[i]))
  {
    hide Inv, Step;
    if events != [] {
      var before, e := events[..|events| - 1], events[|events| - 1];
      PartialSurvives(h, s, sid, i, before);
      var m := Run(h, s, before);
      EndedStays(h, m, e, sid);
      StepKeepsInv(h, m, e);
      if Live(m, sid, i) && e.sid != sid { StepFrame(h, m, e, sid, i); }
    }
  }

  /** The digest is printed the way the sidecar is compared: no surrounding white space. */
  predicate PlainDigest(meta: FileMeta) {
    EqualFold(TrimSpace(Lower(meta.sha)), meta.sha)
  }

  /** Hex digests are plain. */
  lemma HexDigestIsPlain(h: Hash, meta: FileMeta, x: Bytes)
    requires HexDigests(h) && meta.sha == h(x)
    ensures PlainDigest(meta) && TrimSpace(Lower(meta.sha)) == h(x)
  {
    HexIsStable(h, x);
  }

  /**
   * A transfer of a file drops with some of its bytes on disk, any sessions do anything while its slot is
   * held, the slot is released, and a new session starts whose entry j is the same.
   */
  ghost predicate Interrupted(h: Hash, s: State, sid: Sid, events: seq<Event>, next: Sid, manifest: seq<FileMeta>, j: nat) {
    && Inv(h, s) && AllAdmissible(events) && sid in s.sessions && s.sessions[sid].phase.Body?
    && (var s1 := Run(h, Step(h, s, Drop(sid)).state, events);
        Live(s1, sid, s.sessions[sid].phase.index) && next !in s1.sessions)
    && var meta := Unfinished(s, sid);
       && PlainDigest(meta) && 0 < |s.sessions[sid].phase.hashed| < meta.size
       && j < |manifest| && manifest[j] == meta && !meta.isDir
  }

  /** The entry whose body the session is receiving. */
  ghost function Unfinished(s: State, sid: Sid): FileMeta
    requires sid in s.sessions && s.sessions[sid].phase.Body?
  {
    var sess := s.sessions[sid];
    if sess.phase.index < |sess.manifest| then sess.manifest[sess.phase.index] else FileMeta(true, "", 0, [], "")
  }

  /** The states before and after the restart, and what has stayed at the slot in between. */
  lemma RestartKeeps(h: Hash, s: State, sid: Sid, events: seq<Event>, next: Sid, manifest: seq<FileMeta>, j: nat)
    requires Interrupted(h, s, sid, events, next, manifest, j)
    ensures var i := s.sessions[sid].phase.index;
            && i in s.sessions[sid].slots && Unfinished(s, sid) == s.sessions[sid].manifest[i]
            && var d := s.sessions[sid].slots[i];
               var s3 := Restarted(h, s, sid, events, next, manifest);
               && A.Asked(s3, next, j) && s3.sessions[next].manifest == manifest
               && Untouched(s, s3, d) && d !in s3.files && Tmp(d) !in s3.claims
               && Tmp(d) in s.files && s.files[Tmp(d)] == s.sessions[sid].phase.hashed
               && (Sidecar(d) in s.dirs || IsRecorded(s.files, d, manifest[j]))
  {
    hide Inv, Run, Reserve, Legal, TempName, SessOk;
    var sess := s.sessions[sid];
    var i := sess.phase.index;
    Facts(h, s, sid);
    WorkingIsLive(h, s, sid, i);
    var s0 := Step(h, s, Drop(sid)).state;
    assert s0 == With(s, sid, sess.(phase := Ended(false)));
    StepKeepsInv(h, s, Drop(sid));
    PartialSurvives(h, s0, sid, i, events);
    var s1 := Run(h, s0, events);
    EndedIsFinal(h, s0, sid, events);
    SlotFacts(h, s1, sid, i);
    RestartedFacts(h, s1, sid, i, next, manifest);
  }

  /** What an ended session had completed stays as it was. */
  lemma {:induction false} EndedIsFinal(h: Hash, s: State, sid: Sid, events: seq<Event>)
    requires sid in s.sessions && s.sessions[sid].phase.Ended?
    ensures var s' := Run(h, s, events);
            sid in s'.sessions && s'.sessions[sid] == s.sessions[sid].(released := s'.sessions[sid].released)
  {
    hide Step;
    if events != [] {
      EndedIsFinal(h, s, sid, events[..|events| - 1]);
      EndedStays(h, Run(h, s, events[..|events| - 1]), events[|events| - 1], sid);
    }
  }

  /**
   * The same name again. When the slot was candidate k of the entry's name and the new session is granted any
   * slot at all, it is granted the same one if and only if no directory has taken the name and every earlier
   * candidate is still taken.
   */
  lemma SameNameAgain(h: Hash, s: State, sid: Sid, events: seq<Event>, next: Sid, manifest: seq<FileMeta>, j: nat, k: nat)
    requires Interrupted(h, s, sid, events, next, manifest, j)
    requires s.sessions[sid].phase.index in s.sessions[sid].slots && WantedName(manifest[j]).Some?
    requires s.sessions[sid].slots[s.sessions[sid].phase.index] == Candidate(WantedName(manifest[j]).value, k)
    requires Reserve(Restarted(h, s, sid, events, next, manifest), manifest[j]).Granted?
    ensures var s3 := Restarted(h, s, sid, events, next, manifest);
            var name, d := WantedName(manifest[j]).value, s.sessions[sid].slots[s.sessions[sid].phase.index];
            Reserve(s3, manifest[j]).dest == d
            <==> d !in s3.dirs && forall m: nat | m < k :: Candidate(name, m) in Occupied(s3)
  {
    hide Candidate, Run, Step, Restarted, WantedName, CreateDirectory, Inv;
    RestartKeeps(h, s, sid, events, next, manifest, j);
    FreeNameIs(WantedName(manifest[j]).value, Occupied(Restarted(h, s, sid, events, next, manifest)), k);
  }

  /** What can be continued later of the body that is being received: all of it, if it has a sidecar. */
  function KeptAcross(s: State, sid: Sid): nat
    requires sid in s.sessions && s.sessions[sid].phase.Body? && s.sessions[sid].phase.index in s.sessions[sid].slots
  {
    var phase := s.sessions[sid].phase;
    if Sidecar(s.sessions[sid].slots[phase.index]) in s.dirs then 0 else |phase.hashed|
  }

  /**
   * Resuming. Under that condition the new session gets the same name, and it is offered exactly the bytes
   * that were on disk at the drop, unless a directory was in the place of the sidecar: then it is offered zero.
   */
  lemma InterruptedTransferResumes(h: Hash, s: State, sid: Sid, events: seq<Event>, next: Sid, manifest: seq<FileMeta>, j: nat, k: nat)
    requires Interrupted(h, s, sid, events, next, manifest, j)
    requires s.sessions[sid].phase.index in s.sessions[sid].slots && WantedName(manifest[j]).Some?
    requires s.sessions[sid].slots[s.sessions[sid].phase.index] == Candidate(WantedName(manifest[j]).value, k)
    requires s.files.Keys !! s.dirs
    requires var s3 := Restarted(h, s, sid, events, next, manifest);
             && Reserve(s3, manifest[j]).Granted? && Candidate(WantedName(manifest[j]).value, k) !in s3.dirs
             && forall m: nat | m < k :: Candidate(WantedName(manifest[j]).value, m) in Occupied(s3)
    ensures var s3 := Restarted(h, s, sid, events, next, manifest);
            && Reserve(s3, manifest[j]).dest == s.sessions[sid].slots[s.sessions[sid].phase.index]
            && Step(h, Run(h, s3, A.QueryEvents(next, j)[..2]), Advance(next)).replies
               == [Offer(j, KeptAcross(s, sid))]
  {
    hide Candidate, Run, Step, Restarted, WantedName, Reserve, PartialLen, Inv, Occupied;
    var s3 := Restarted(h, s, sid, events, next, manifest);
    RestartKeeps(h, s, sid, events, next, manifest, j);
    SameNameAgain(h, s, sid, events, next, manifest, j, k);
    A.QueryRuns(h, s3, next, j);
    KeptPartial(s, s3, s.sessions[sid].slots[s.sessions[sid].phase.index], manifest[j]);
  }

  /** A file that was being received under its own name is resumed under it, unless a directory took the name. */
  lemma FirstNameResumes(h: Hash, s: State, sid: Sid, events: seq<Event>, next: Sid, manifest: seq<FileMeta>, j: nat)
    requires Interrupted(h, s, sid, events, next, manifest, j)
    requires s.sessions[sid].phase.index in s.sessions[sid].slots
    requires WantedName(manifest[j]) == Some(s.sessions[sid].slots[s.sessions[sid].phase.index])
    requires s.files.Keys !! s.dirs
    requires var s3 := Restarted(h, s, sid, events, next, manifest);
             Reserve(s3, manifest[j]).Granted? && WantedName(manifest[j]).value !in s3.dirs
    ensures var s3 := Restarted(h, s, sid, events, next, manifest);
            && Reserve(s3, manifest[j]).dest == WantedName(manifest[j]).value
            && Step(h, Run(h, s3, A.QueryEvents(next, j)[..2]), Advance(next)).replies
               == [Offer(j, KeptAcross(s, sid))]
  {
    hide Candidate, Run, Step, Restarted, WantedName, Reserve, Inv, Occupied;
    CandidateZero(WantedName(manifest[j]).value);
    InterruptedTransferResumes(h, s, sid, events, next, manifest, j, 0);
  }

  /** The slot of the dropped session is released and the next session starts. */
  ghost function Restarted(h: Hash, s: State, sid: Sid, events: seq<Event>, next: Sid, manifest: seq<FileMeta>): State
    requires sid in s.sessions && s.sessions[sid].phase.Body?
  {
    var s1 := Run(h, Step(h, s, Drop(sid)).state, events);
    Step(h, Step(h, s1, Release(sid, s.sessions[sid].phase.index)).state, Start(next, manifest, true)).state
  }

  lemma RestartedFacts(h: Hash, s1: State, sid: Sid, i: nat, next: Sid, manifest: seq<FileMeta>)
    requires Live(s1, sid, i) && s1.sessions[sid].phase.Ended? && next !in s1.sessions
    ensures var s3 := Step(h, Step(h, s1, Release(sid, i)).state, Start(next, manifest, true)).state;
            && s3.files == s1.files && next in s3.sessions && Tmp(s1.sessions[sid].slots[i]) !in s3.claims
            && s3.sessions[next] == Session(manifest, true, map[], {}, {}, map[], if manifest == [] then Ended(false) else Idle)
  {
  }

  lemma KeptPartial(s: State, s3: State, d: Path, meta: FileMeta)
    requires Untouched(s, s3, d) && Tmp(d) in s.files && 0 < |s.files[Tmp(d)]| < meta.size && PlainDigest(meta)
    requires Sidecar(d) in s.dirs || IsRecorded(s.files, d, meta)
    requires s.files.Keys !! s.dirs
    ensures PartialLen(s3.files, d, meta) == if Sidecar(d) in s.dirs then 0 else |s.files[Tmp(d)]|
  {
  }

  // ----- partials of honest senders are prefixes ------------------------------------------

  /** If the sidecar at d records the digest of x, the partial is a prefix of x. */
  ghost predicate PrefixAt(h: Hash, files: Files, d: Path) {
    Tmp(d) in files && Sidecar(d) in files ==>
      forall x: Bytes | EqualFold(TrimSpace(files[Sidecar(d)]), h(x)) :: files[Tmp(d)] <= x
  }

  ghost predicate PartialsArePrefixes(h: Hash, s: State) {
    forall d | Legal(d) :: PrefixAt(h, s.files, d)
  }

  /** Whoever declares the digest of x sends, at each position, the bytes x has there. */
  ghost predicate HonestData(h: Hash, s: State, e: Event) {
    e.Data? && Ready(s, e.sid) && s.sessions[e.sid].phase.Body? ==>
      HonestBytes(h, s.sessions[e.sid].manifest[s.sessions[e.sid].phase.index], s.sessions[e.sid].phase.hashed, e.bytes)
  }

  ghost predicate HonestBytes(h: Hash, meta: FileMeta, hashed: Bytes, bytes: Bytes) {
    forall x: Bytes | EqualFold(TrimSpace(Lower(meta.sha)), h(x)) && hashed <= x :: hashed + bytes <= x
  }

  // Trimming and lower-casing commute on what a sidecar holds.

  predicate NoEdgeSpace(d: Bytes) {
    d != [] ==> !IsSpace(d[0]) && !IsSpace(d[|d| - 1])
  }

  lemma {:induction false} TrimmedHasNoEdge(d: Bytes)
    ensures NoEdgeSpace(TrimSpace(d))
    decreases |d|
  {
    if d != [] && IsSpace(d[0]) { TrimmedHasNoEdge(d[1..]); }
    else if d != [] && IsSpace(d[|d| - 1]) { TrimmedHasNoEdge(d[..|d| - 1]); }
  }

  /** If the recorded digest matched the declared one, so does what is recorded now. */
  lemma MatchedDigestIsPlain(recorded: Bytes, sha: Bytes)
    requires EqualFold(TrimSpace(recorded), sha)
    ensures TrimSpace(Lower(sha)) == Lower(sha)
  {
    TrimmedHasNoEdge(recorded);
    var t := TrimSpace(recorded);
    hide TrimSpace;
    assert |t| == |Lower(t)| == |Lower(sha)|;
    if t != [] {
      assert Lower(sha)[0] == LowerByte(t[0]) && Lower(sha)[|t| - 1] == LowerByte(t[|t| - 1]);
    }
    NoEdgeIsTrimmed(Lower(sha));
  }

  lemma NoEdgeIsTrimmed(d: Bytes)
    requires NoEdgeSpace(d)
    ensures TrimSpace(d) == d
  {
  }

  lemma PrefixFrame(h: Hash, s: State, s': State, d: Path)
    requires Untouched(s, s', d) && PrefixAt(h, s.files, d)
    ensures PrefixAt(h, s'.files, d)
  {
    hide EqualFold, TrimSpace;
  }

  /** Opening a partial to continue it, or emptying it, keeps it a prefix. */
  lemma OpenKeepsPrefix(h: Hash, s: State, sid: Sid, sess: Session, i: nat, offset: nat)
    requires i in sess.slots && i < |sess.manifest| && PrefixAt(h, s.files, sess.slots[i])
    requires offset > 0 ==> SidecarMatches(s.files, sess.slots[i], sess.manifest[i])
    ensures PrefixAt(h, OpenPart(s, sid, sess, i, offset).state.files, sess.slots[i])
  {
    var d, meta := sess.slots[i], sess.manifest[i];
    TempPathsDiffer(d, d);
    hide HasParent, EqualFold, TrimSpace;
    var o := OpenPart(s, sid, sess, i, offset).state.files;
    if o != s.files && Sidecar(d) in o {
      forall x: Bytes | EqualFold(TrimSpace(o[Sidecar(d)]), h(x)) ensures o[Tmp(d)] <= x {
        if offset > 0 {
          SameFold(s.files[Sidecar(d)], meta.sha, h(x));
          assert o[Tmp(d)] == s.files[Tmp(d)];
        } else {
          assert o[Tmp(d)] == [];
        }
      }
    }
  }

  /** A digest that matches what is recorded for a matching sidecar matches the sidecar. */
  lemma SameFold(recorded: Bytes, sha: Bytes, digest: Bytes)
    requires EqualFold(TrimSpace(recorded), sha)
    ensures EqualFold(TrimSpace(Lower(sha)), digest) ==> EqualFold(TrimSpace(recorded), digest)
  {
    MatchedDigestIsPlain(recorded, sha);
    LowerIdempotent(sha);
  }

  /** Honest bytes keep the partial a prefix. */
  lemma DataKeepsPrefix(h: Hash, s: State, sid: Sid, bytes: Bytes)
    requires Ready(s, sid) && s.sessions[sid].phase.Body? && |bytes| <= s.sessions[sid].phase.left
    requires PhaseOk(h, s, s.sessions[sid]) && s.files.Keys !! s.dirs
    requires var sess := s.sessions[sid];
             && PrefixAt(h, s.files, sess.slots[sess.phase.index])
             && HonestBytes(h, sess.manifest[sess.phase.index], sess.phase.hashed, bytes)
    ensures PrefixAt(h, BodyData(s, sid, s.sessions[sid], bytes).state.files, s.sessions[sid].slots[s.sessions[sid].phase.index])
  {
    hide EqualFold, TrimSpace, Lower;
    var d := s.sessions[sid].slots[s.sessions[sid].phase.index];
    TempPathsDiffer(d, d);
  }

  lemma AdvanceKeepsPrefix(h: Hash, s: State, sid: Sid, d: Path)
    requires Ready(s, sid) && PhaseOk(h, s, s.sessions[sid]) && WorkingOn(s, sid) == Some(d) && PrefixAt(h, s.files, d)
    ensures PrefixAt(h, AdvanceStep(s, sid, s.sessions[sid]).state.files, d)
  {
    hide EqualFold, TrimSpace, Lower, PartialLen, SidecarMatches, HasPartial, OpenPart;
    var sess := s.sessions[sid];
    TempPathsDiffer(d, d);
    assert |Tmp(d)| > |d|;
    if sess.phase.Opening? { OpenKeepsPrefix(h, s, sid, sess, sess.phase.index, sess.phase.offset); }
  }

  lemma ProbeDirKeepsPrefix(h: Hash, s: State, sid: Sid, size: nat, d: Path)
    requires Ready(s, sid) && WorkingOn(s, sid) == Some(d) && PrefixAt(h, s.files, d)
    ensures PrefixAt(h, ProbeDirStep(s, sid, s.sessions[sid], size).state.files, d)
  {
    hide EqualFold, TrimSpace, Swept;
  }

  lemma FrameKeepsPrefix(h: Hash, s: State, sid: Sid, frame: Frame, d: Path)
    requires Ready(s, sid) && WorkingOn(s, sid) == Some(d) && PrefixAt(h, s.files, d)
    ensures PrefixAt(h, FrameStep(h, s, sid, s.sessions[sid], frame).state.files, d)
  {
    hide EqualFold, TrimSpace;
  }

  /** The step keeps the partial of the slot it works on a prefix. */
  lemma OwnKeepsPrefix(h: Hash, s: State, e: Event, d: Path)
    requires Inv(h, s) && s.files.Keys !! s.dirs && HonestData(h, s, e)
    requires WorkingOn(s, e.sid) == Some(d) && PrefixAt(h, s.files, d)
    ensures PrefixAt(h, Step(h, s, e).state.files, d)
  {
    hide Inv, AdvanceStep, FrameStep, BodyData, PrefixAt, HonestBytes;
    Facts(h, s, e.sid);
    match e
    case Advance(sid) => AdvanceKeepsPrefix(h, s, sid, d);
    case ProbeDir(sid, size) => ProbeDirKeepsPrefix(h, s, sid, size, d);
    case Recv(sid, frame) => FrameKeepsPrefix(h, s, sid, frame, d);
    case Data(sid, bytes) =>
      if s.sessions[sid].phase.Body? && 0 < |bytes| <= s.sessions[sid].phase.left { DataKeepsPrefix(h, s, sid, bytes); }
    case _ =>
  }

  lemma StepKeepsPrefixes(h: Hash, s: State, e: Event)
    requires Inv(h, s) && s.files.Keys !! s.dirs && PartialsArePrefixes(h, s) && HonestData(h, s, e)
    ensures PartialsArePrefixes(h, Step(h, s, e).state)
  {
    hide Inv, Step, Legal, TempName, PrefixAt, HonestData, SlotOk;
    var s' := Step(h, s, e).state;
    StepTouches(h, s, e);
    forall d | Legal(d) ensures PrefixAt(h, s'.files, d) {
      assert PrefixAt(h, s.files, d);
      if WorkingOn(s, e.sid) == Some(d) {
        OwnKeepsPrefix(h, s, e, d);
      } else {
        if WorkingOn(s, e.sid).Some? {
          var w := WorkingOn(s, e.sid).value;
          WorkingIsLive(h, s, e.sid, s.sessions[e.sid].phase.index);
          OtherTemps(s, s.sessions[e.sid], s.sessions[e.sid].phase.index, s', w, d);
        }
        PrefixFrame(h, s, s', d);
      }
    }
  }

  lemma OtherTemps(s: State, sess: Session, i: nat, s': State, w: Path, d: Path)
    requires i in sess.slots && SlotOk(s, sess, i) && w == sess.slots[i] && Legal(d) && d != w && OnlyPaths(s, s', w)
    ensures Untouched(s, s', d)
  {
    hide Legal, TempName;
    TempPathsDiffer(w, d);
    TempPathsDiffer(d, w);
    TempPathsAreTempNames(d);
    assert SameAt(s.files, s'.files, Tmp(d)) && SameAt(s.files, s'.files, Sidecar(d));
  }

  /** Every chunk of the run is sent by a sender that sends what it declared. */
  ghost predicate HonestRun(h: Hash, s: State, events: seq<Event>) {
    forall k | 0 <= k < |events| :: HonestData(h, Run(h, s, events[..k]), events[k])
  }

  /**
   * With honest senders, in every interleaving and across every drop, each partial whose sidecar
   * records the digest of x is a prefix of x.
   */
  lemma {:induction false} HonestPartialsArePrefixes(h: Hash, s: State, events: seq<Event>)
    requires Inv(h, s) && Tree(s.files, s.dirs) && PartialsArePrefixes(h, s) && AllAdmissible(events) && HonestRun(h, s, events)
    ensures PartialsArePrefixes(h, Run(h, s, events))
  {
    hide Inv, Step, PartialsArePrefixes, HonestData, HasParent;
    if events != [] {
      var before := events[..|events| - 1];
      forall k | 0 <= k < |before| ensures HonestData(h, Run(h, s, before[..k]), before[k]) {
        assert before[..k] == events[..k];
      }
      HonestPartialsArePrefixes(h, s, before);
      RunKeepsInv(h, s, before);
      RunIsTree(h, s, before);
      StepKeepsPrefixes(h, Run(h, s, before), events[|events| - 1]);
    }
  }

  /** So an uninterrupted attempt after any honest run succeeds at once. */
  lemma HonestSeedIsPrefix(h: Hash, s: State, d: Path, meta: FileMeta, x: Bytes)
    requires PartialsArePrefixes(h, s) && Legal(d) && Declares(h, meta, x)
    ensures A.Seed(s.files, d, meta) <= x
  {
    assert PrefixAt(h, s.files, d);
  }
}
