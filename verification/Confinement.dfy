/** Everything the receiver creates lies strictly below the download directory. */
module Confinement {
  import opened Basics
  import opened Names
  import opened Receiver

  // ----- directories, in closed form -------------------------------------------

  lemma {:induction false} SplitJoin(parts: seq<string>)
    requires parts != [] && forall k | 0 <= k < |parts| :: '/' !in parts[k]
    ensures Split(Join(parts)) == parts
  {
    hide Split;
    if |parts| == 1 {
      SplitPlain(parts[0]);
      assert parts == [parts[0]];
    } else {
      var front, last := parts[..|parts| - 1], parts[|parts| - 1];
      SplitJoin(front);
      assert front + [last] == parts;
      JoinSnoc(front, last);
      SplitSlash(Join(front), last);
    }
  }

  /** The directories that lead to the one named by parts, itself included. */
  ghost function Leading(parts: seq<string>): set<Path> {
    set k | 1 <= k <= |parts| :: Join(parts[..k])
  }

  lemma LeadingSnoc(parts: seq<string>)
    requires parts != []
    ensures Leading(parts) == Leading(parts[..|parts| - 1]) + {Join(parts)}
  {
    hide Join;
    var front := parts[..|parts| - 1];
    assert parts[..|parts|] == parts;
    forall k | 1 <= k <= |front| ensures front[..k] == parts[..k] {}
    assert Leading(parts) <= Leading(front) + {Join(parts)};
    forall p | p in Leading(front) + {Join(parts)} ensures p in Leading(parts) {
      if p == Join(parts) {
        assert p == Join(parts[..|parts|]);
      } else {
        var k :| 1 <= k <= |front| && p == Join(front[..k]);
        assert p == Join(parts[..k]);
      }
    }
  }

  /** Making a path of directories works unless a file is in the way, and makes exactly those on the path. */
  lemma {:induction false} MakeDirsExactly(files: Files, dirs: set<Path>, parts: seq<string>)
    ensures var r := MakeDirs(files, dirs, parts);
            && (r.ok <==> Leading(parts) !! files.Keys)
            && (r.ok ==> r.dirs == dirs + Leading(parts))
            && dirs <= r.dirs <= dirs + Leading(parts)
  {
    hide Join;
    if parts == [] {
      assert Leading(parts) == {};
    } else {
      MakeDirsExactly(files, dirs, parts[..|parts| - 1]);
      LeadingSnoc(parts);
    }
  }

  lemma {:induction false} JoinGrows(parts: seq<string>, k: nat)
    requires k <= |parts|
    ensures |Join(parts[..k])| <= |Join(parts)|
    decreases |parts|
  {
    if k == |parts| {
      assert parts[..k] == parts;
    } else {
      var front := parts[..|parts| - 1];
      assert front[..k] == parts[..k];
      JoinGrows(front, k);
    }
  }

  // ----- exactly which relative paths are taken -----------------------------------

  /** A component that is safe on every platform. */
  predicate SafePart(part: string) {
    part != "" && part != "." && part != ".." && '/' !in part && '\\' !in part && ':' !in part && '\0' !in part
  }

  predicate SafeParts(parts: seq<string>) {
    parts != [] && forall k | 0 <= k < |parts| :: SafePart(parts[k])
  }

  lemma {:induction false} SplitChars(p: string, k: nat, ch: char)
    requires k < |Split(p)| && ch in Split(p)[k]
    ensures ch in p
  {
    if p != "" {
      var t, r := p[..|p| - 1], Split(p[..|p| - 1]);
      assert p == t + [p[|p| - 1]];
      if k < |r| - 1 || (p[|p| - 1] == '/' && k < |r|) || (k == |r| - 1 && ch in r[k]) { SplitChars(t, k, ch); }
    }
  }

  lemma {:induction false} JoinChars(parts: seq<string>, ch: char)
    requires ch in Join(parts) && ch != '/'
    ensures exists k :: 0 <= k < |parts| && ch in parts[k]
  {
    if |parts| == 1 {
      assert ch in parts[0];
    } else {
      var front, last := parts[..|parts| - 1], parts[|parts| - 1];
      if ch in last {
        assert ch in parts[|parts| - 1];
      } else {
        assert ch in Join(front) by { assert Join(parts) == Join(front) + "/" + last; }
        JoinChars(front, ch);
        var k :| 0 <= k < |front| && ch in front[k];
        assert ch in parts[k];
      }
    }
  }

  /** Components without slashes make a path that is taken exactly when each of them is safe. */
  lemma ValidWhenSafe(parts: seq<string>)
    requires parts != [] && forall k | 0 <= k < |parts| :: '/' !in parts[k]
    ensures ValidRelPath(Join(parts)) <==> SafeParts(parts)
  {
    hide Split, Join;
    var p := Join(parts);
    SplitJoin(parts);
    if SafeParts(parts) { SafeIsValid(parts); }
    if ValidRelPath(p) {
      forall k | 0 <= k < |parts| ensures SafePart(parts[k]) {
        assert LegalPart(parts[k]);
        forall ch | ch in parts[k] ensures ch in p { SplitChars(p, k, ch); }
      }
    }
  }

  lemma SafeIsValid(parts: seq<string>)
    requires SafeParts(parts) && Split(Join(parts)) == parts
    ensures ValidRelPath(Join(parts))
  {
    hide Split, Join;
    var p := Join(parts);
    EmptySplits();
    assert SafePart(parts[0]);
    if '\\' in p { JoinChars(parts, '\\'); }
    if ':' in p { JoinChars(parts, ':'); }
    if '\0' in p { JoinChars(parts, '\0'); }
    forall k | 0 <= k < |parts| ensures LegalPart(parts[k]) {
      assert SafePart(parts[k]);
    }
  }

  lemma EmptySplits()
    ensures Split("") == [""]
  {
  }

  /**
   * A relative path is taken if and only if it is one or more components, joined by slashes, each of them not empty,
   * "." or "..", and free of slash, backslash, colon and NUL.
   */
  lemma ValidIs(p: string)
    ensures ValidRelPath(p) <==> exists parts: seq<string> :: SafeParts(parts) && p == Join(parts)
  {
    hide Split, Join, ValidRelPath;
    JoinSplit(p);
    if ValidRelPath(p) {
      ValidWhenSafe(Split(p));
    }
    forall parts: seq<string> | SafeParts(parts) && p == Join(parts) ensures ValidRelPath(p) {
      assert forall k | 0 <= k < |parts| :: SafePart(parts[k]);
      ValidWhenSafe(parts);
    }
  }

  /** No character that a platform could read as a separator, a drive or the end of the name. */
  predicate Portable(p: Path) {
    '\\' !in p && ':' !in p && '\0' !in p
  }

  lemma ValidIsPortable(p: string)
    requires ValidRelPath(p)
    ensures Portable(p)
  {
    hide Join;
    ValidIs(p);
    var parts: seq<string> :| SafeParts(parts) && p == Join(parts);
    forall ch | ch in p && ch != '/' ensures ch != '\\' && ch != ':' && ch != '\0' {
      JoinChars(parts, ch);
      var k :| 0 <= k < |parts| && ch in parts[k];
      assert SafePart(parts[k]);
    }
  }

  lemma LeadingIsPortable(p: string, q: Path)
    requires ValidRelPath(p) && q in Leading(Split(p))
    ensures Portable(q)
  {
    hide Split, Join;
    ValidIsPortable(p);
    JoinSplit(p);
    var k :| 1 <= k <= |Split(p)| && q == Join(Split(p)[..k]);
    forall ch | ch in q && ch != '/' ensures ch in p {
      JoinChars(Split(p)[..k], ch);
      var m :| 0 <= m < k && ch in Split(p)[..k][m];
      SplitChars(p, m, ch);
    }
  }

  // ----- legality ----------------------------------------------------------------

  lemma LeadingIsLegal(parts: seq<string>)
    requires LegalParts(parts) && forall k | 0 <= k < |parts| :: '/' !in parts[k]
    ensures forall p | p in Leading(parts) :: Legal(p)
  {
    hide Split, Join;
    forall p | p in Leading(parts) ensures Legal(p) {
      var k :| 1 <= k <= |parts| && p == Join(parts[..k]);
      SplitJoin(parts[..k]);
    }
  }

  lemma TempsAreLegal(d: Path)
    requires Legal(d)
    ensures Legal(Tmp(d)) && Legal(Sidecar(d))
  {
    LongerIsLegal(d, PART);
    LongerIsLegal(d, PART + META);
    ConcatAssoc(d, PART, META);
  }

  lemma LongerIsLegal(d: Path, suffix: string)
    requires Legal(d) && '/' !in suffix && |suffix| > 2
    ensures Legal(d + suffix)
  {
    hide Split;
    SplitAppend(d, suffix);
    var r, q := Split(d), Split(d + suffix);
    forall k | 0 <= k < |q| ensures LegalPart(q[k]) {
      if k < |r| - 1 { assert q[k] == r[k]; }
    }
  }

  lemma ParentFacts(name: string)
    requires Legal(name) && |Split(name)| > 1
    ensures var parts := Split(name);
            var parent := Join(parts[..|parts| - 1]);
            && Split(parent) == parts[..|parts| - 1] && Legal(parent) && |parent| < |name|
  {
    JoinSplit(name);
    var parts := Split(name);
    var front, last := parts[..|parts| - 1], parts[|parts| - 1];
    hide Split, Join;
    SplitJoin(front);
    assert front + [last] == parts;
    JoinSnoc(front, last);
  }

  /** A granted destination is a legal path, whatever the entry. */
  lemma GrantedIsLegal(s: State, meta: FileMeta)
    requires Reserve(s, meta).Granted?
    ensures Legal(Reserve(s, meta).dest)
  {
    hide Legal, Candidate;
    var name := WantedName(meta).value;
    if meta.relPath == "" { SanitizedIsLegal(meta.name); } else { RelIsLegal(meta.relPath); }
    CandidateIsLegal(name, FirstFree(name, Occupied(s), 0));
  }

  lemma RelIsLegal(p: string)
    requires ValidRelPath(p)
    ensures Legal(p)
  {
  }

  lemma CreateDirectoryIsConfined(files: Files, dirs: set<Path>, rel: string)
    ensures forall p | p in CreateDirectory(files, dirs, rel).dirs && p !in dirs :: Legal(p)
  {
    hide Legal, MakeDirs;
    if ValidRelPath(rel) {
      JoinSplit(rel);
      RelIsLegalParts(rel);
      MakeDirsExactly(files, dirs, Split(rel));
      LeadingIsLegal(Split(rel));
    }
  }

  lemma RelIsLegalParts(p: string)
    requires ValidRelPath(p)
    ensures LegalParts(Split(p))
  {
  }

  // ----- every step, every run -------------------------------------------------------

  ghost predicate SlotsLegal(s: State) {
    forall a, i | a in s.sessions && i in s.sessions[a].slots :: Legal(s.sessions[a].slots[i])
  }

  /** Every file and directory that is new in s' is legal. */
  predicate NewIsLegal(s: State, s': State) {
    && (forall p | p in s'.files && p !in s.files :: Legal(p))
    && (forall p | p in s'.dirs && p !in s.dirs :: Legal(p))
  }

  lemma ReserveDirsConfined(s: State, meta: FileMeta)
    ensures forall p | p in Reserve(s, meta).dirs && p !in s.dirs :: Legal(p)
  {
    hide Legal, CreateDirectory, FreeName, Occupied, Join, SanitizeName, ValidRelPath, Split;
    var name := WantedName(meta);
    if name.Some? {
      var parts := Split(name.value);
      CreateDirectoryIsConfined(s.files, s.dirs, Join(parts[..|parts| - 1]));
    }
  }

  lemma SlotForConfined(s: State, sid: Sid, i: nat)
    requires SlotsLegal(s) && sid in s.sessions && i < |s.sessions[sid].manifest|
    ensures var (s1, sess1, ok) := SlotFor(s, sid, s.sessions[sid], i);
            && s1.files == s.files && s1.sessions == s.sessions
            && (forall p | p in s1.dirs && p !in s.dirs :: Legal(p))
            && (forall j | j in sess1.slots :: Legal(sess1.slots[j]))
  {
    hide Legal, Reserve;
    ReserveDirsConfined(s, s.sessions[sid].manifest[i]);
    if Reserve(s, s.sessions[sid].manifest[i]).Granted? { GrantedIsLegal(s, s.sessions[sid].manifest[i]); }
  }

  lemma AdvanceConfined(s: State, sid: Sid)
    requires SlotsLegal(s) && Ready(s, sid)
    ensures var s' := AdvanceStep(s, sid, s.sessions[sid]).state; SlotsLegal(s') && NewIsLegal(s, s')
  {
    hide Legal, SlotFor, PartialLen, HasPartial, SidecarMatches, Lower;
    var sess := s.sessions[sid];
    match sess.phase
    case QueryReserve(i) => SlotForConfined(s, sid, i);
    case Reserving(i) => SlotForConfined(s, sid, i);
    case Opening(i, _) => TempsAreLegal(sess.slots[i]);
    case _ =>
  }

  lemma FrameConfined(h: Hash, s: State, sid: Sid, frame: Frame)
    requires SlotsLegal(s) && Ready(s, sid)
    ensures var s' := FrameStep(h, s, sid, s.sessions[sid], frame).state; SlotsLegal(s') && NewIsLegal(s, s')
  {
    hide IdleFrame, DirFrame, BodyFrame;
    var sess := s.sessions[sid];
    if sess.phase.DirEntry? {
      DirConfined(s, sid, frame);
    } else if sess.phase.Body? && sess.phase.left == 0 {
      BodyConfined(h, s, sid, frame);
    } else if sess.phase.Idle? {
      IdleConfined(s, sid, frame);
    }
  }

  lemma DirConfined(s: State, sid: Sid, frame: Frame)
    requires SlotsLegal(s) && Ready(s, sid) && s.sessions[sid].phase.DirEntry?
    ensures var sess := s.sessions[sid];
            var s' := DirFrame(s, sid, sess, sess.phase.index, frame).state;
            SlotsLegal(s') && NewIsLegal(s, s')
  {
    hide Legal, CreateDirectory;
    var sess := s.sessions[sid];
    CreateDirectoryIsConfined(s.files, s.dirs, sess.manifest[sess.phase.index].relPath);
  }

  lemma BodyConfined(h: Hash, s: State, sid: Sid, frame: Frame)
    requires SlotsLegal(s) && Ready(s, sid) && s.sessions[sid].phase.Body?
    ensures var s' := BodyFrame(h, s, sid, s.sessions[sid], frame).state; SlotsLegal(s') && NewIsLegal(s, s')
  {
    hide Legal, EqualFold;
    assert BodyFrame(h, s, sid, s.sessions[sid], frame).state.dirs <= s.dirs;
  }

  lemma IdleConfined(s: State, sid: Sid, frame: Frame)
    requires SlotsLegal(s) && Ready(s, sid)
    ensures var s' := IdleFrame(s, sid, s.sessions[sid], frame).state; SlotsLegal(s') && NewIsLegal(s, s')
  {
    hide Legal;
    var s' := IdleFrame(s, sid, s.sessions[sid], frame).state;
    assert s'.files == s.files && s'.dirs == s.dirs && s'.sessions[sid].slots == s.sessions[sid].slots;
  }

  lemma StepConfined(h: Hash, s: State, e: Event)
    requires SlotsLegal(s)
    ensures var s' := Step(h, s, e).state; SlotsLegal(s') && NewIsLegal(s, s')
  {
    hide Legal, AdvanceStep, FrameStep;
    match e
    case Start(_, _, _) =>
    case Release(_, _) =>
    case Drop(_) =>
    case Data(sid, bytes) =>
      if Ready(s, sid) && s.sessions[sid].phase.Body? { TempsAreLegal(s.sessions[sid].slots[s.sessions[sid].phase.index]); }
    case Recv(sid, frame) => if Ready(s, sid) { FrameConfined(h, s, sid, frame); }
    case Advance(sid) => if Ready(s, sid) { AdvanceConfined(s, sid); }
    case ProbeDir(_, _) =>
  }

  /**
   * Confinement. Over every run, with any manifests at all, each path the receiver creates has only
   * components other than "", "." and "..", through name cleaning, relative paths and auto-renaming.
   */
  lemma {:induction false} EverythingIsConfined(h: Hash, s: State, events: seq<Event>)
    requires SlotsLegal(s)
    ensures var s' := Run(h, s, events); SlotsLegal(s') && NewIsLegal(s, s')
  {
    hide Legal, Step;
    if events != [] {
      var before := events[..|events| - 1];
      EverythingIsConfined(h, s, before);
      StepConfined(h, Run(h, s, before), events[|events| - 1]);
    }
  }
}
