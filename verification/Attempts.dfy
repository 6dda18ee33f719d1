/**
 * One uninterrupted attempt at a file, in closed form: the frames the sender emits for an
 * entry, and the exact state they leave at the receiver.
 */
module Attempts {
  import opened Basics
  import opened Names
  import opened Receiver

  const CHUNK_SIZE := 256 * 1024

  /** What travels from the sender: a frame, or payload bytes of the chunk frame before it. */
  datatype Item = Hdr(frame: Frame) | Payload(bytes: Bytes)

  /**
   * The frames from position pos of source x to the end of file i: chunks of 1 to CHUNK_SIZE
   * bytes that carry x in order, advisory progress frames anywhere between, then file_end.
   */
  predicate FileTail(items: seq<Item>, i: nat, x: Bytes, pos: nat) {
    && pos <= |x|
    && items != []
    && if items[0] == Hdr(Progress) then FileTail(items[1..], i, x, pos)
       else if items[0] == Hdr(FileEnd(i, 0)) then |items| == 1 && pos == |x|
       else
         && |items| >= 2 && items[0].Hdr? && items[0].frame.Chunk? && items[1].Payload?
         && var n := items[0].frame.length;
            && 0 < n <= CHUNK_SIZE && pos + n <= |x|
            && items[1].bytes == x[pos..pos + n]
            && FileTail(items[2..], i, x, pos + n)
  }

  /** The payload of a chunk is never empty, and at most 256 KiB. */
  lemma {:induction false} ChunksAreShort(items: seq<Item>, i: nat, x: Bytes, pos: nat, k: nat)
    requires FileTail(items, i, x, pos) && k < |items| && items[k].Payload?
    ensures 1 <= |items[k].bytes| <= 262144
    decreases |items|
  {
    if items[0] == Hdr(Progress) {
      ChunksAreShort(items[1..], i, x, pos, k - 1);
    } else if items[0] != Hdr(FileEnd(i, 0)) && k >= 2 {
      ChunksAreShort(items[2..], i, x, pos + items[0].frame.length, k - 2);
    }
  }

  /** The frames from position pos of x to its end, in chunks of one byte. */
  function Script(i: nat, x: Bytes, pos: nat): seq<Item>
    requires pos <= |x|
    decreases |x| - pos
  {
    if pos == |x| then [Hdr(FileEnd(i, 0))] else [Hdr(Chunk(1)), Payload(x[pos..pos + 1])] + Script(i, x, pos + 1)
  }

  lemma {:induction false} ScriptIsTail(i: nat, x: Bytes, pos: nat)
    requires pos <= |x|
    ensures FileTail(Script(i, x, pos), i, x, pos)
    decreases |x| - pos
  {
    if pos < |x| {
      ScriptIsTail(i, x, pos + 1);
      assert Script(i, x, pos)[2..] == Script(i, x, pos + 1);
    }
  }

  /** The receiver events when the items arrive undisturbed. */
  function Arrivals(sid: Sid, items: seq<Item>): seq<Event> {
    seq(|items|, k requires 0 <= k < |items| =>
      match items[k] case Hdr(f) => Recv(sid, f) case Payload(b) => Data(sid, b))
  }

  lemma {:induction false} RunConcat(h: Hash, s: State, a: seq<Event>, b: seq<Event>)
    ensures Run(h, s, a + b) == Run(h, Run(h, s, a), b)
  {
    hide Step;
    if b == [] {
      assert a + b == a;
    } else {
      var b0 := b[..|b| - 1];
      RunConcat(h, s, a, b0);
      assert (a + b)[..|a + b| - 1] == a + b0;
    }
  }

  lemma RunOne(h: Hash, s: State, e: Event)
    ensures Run(h, s, [e]) == Step(h, s, e).state
  {
    hide Step;
    assert [e][..0] == [];
    assert Run(h, s, []) == s;
  }

  lemma RunCons(h: Hash, s: State, e: Event, rest: seq<Event>)
    ensures Run(h, s, [e] + rest) == Run(h, Step(h, s, e).state, rest)
  {
    hide Step, Run;
    RunConcat(h, s, [e], rest);
    RunOne(h, s, e);
  }

  // ----- the body ----------------------------------------------------------

  /** Session sid is receiving file i, between two frames, with the given bytes on disk. */
  predicate Receiving(s: State, sid: Sid, i: nat, onDisk: Bytes) {
    && sid in s.sessions
    && var sess := s.sessions[sid];
       && i < |sess.manifest| && i in sess.slots
       && sess.phase == Body(i, |onDisk|, 0, 0, onDisk)
       && Tmp(sess.slots[i]) in s.files && s.files[Tmp(sess.slots[i])] == onDisk
  }

  /** The same state with more bytes on disk. */
  function Extended(s: State, sid: Sid, i: nat, bytes: Bytes): State
    requires sid in s.sessions && i in s.sessions[sid].slots
  {
    var sess := s.sessions[sid];
    With(s.(files := s.files[Tmp(sess.slots[i]) := bytes]), sid, sess.(phase := Body(i, |bytes|, 0, 0, bytes)))
  }

  lemma RunTwo(h: Hash, s: State, a: Event, b: Event)
    ensures Run(h, s, [a, b]) == Step(h, Step(h, s, a).state, b).state
  {
    hide Step, Run;
    assert [a, b] == [a] + [b];
    RunCons(h, s, a, [b]);
    RunOne(h, Step(h, s, a).state, b);
  }

  /** Session sid waits for the payload of a chunk of n bytes. */
  function Announced(s: State, sid: Sid, i: nat, onDisk: Bytes, n: nat): State
    requires sid in s.sessions
  {
    With(s, sid, s.sessions[sid].(phase := Body(i, |onDisk|, n, n, onDisk)))
  }

  lemma ChunkHeaderStep(h: Hash, s: State, sid: Sid, i: nat, onDisk: Bytes, n: nat)
    requires Receiving(s, sid, i, onDisk) && |onDisk| + n <= s.sessions[sid].manifest[i].size
    ensures Step(h, s, Recv(sid, Chunk(n))).state == Announced(s, sid, i, onDisk, n)
  {
    assert Ready(s, sid);
  }

  lemma ChunkDataStep(h: Hash, s: State, sid: Sid, i: nat, onDisk: Bytes, b: Bytes)
    requires Receiving(s, sid, i, onDisk) && 0 < |b|
    ensures Step(h, Announced(s, sid, i, onDisk, |b|), Data(sid, b)).state == Extended(s, sid, i, onDisk + b)
  {
    var s1 := Announced(s, sid, i, onDisk, |b|);
    var sess := s.sessions[sid];
    assert Ready(s1, sid);
    var s2, t := BodyData(s1, sid, s1.sessions[sid], b).state, Extended(s, sid, i, onDisk + b);
    assert s2.sessions == t.sessions && s2.files == t.files;
  }

  lemma ExtendedReceives(s: State, sid: Sid, i: nat, onDisk: Bytes, b: Bytes)
    requires Receiving(s, sid, i, onDisk)
    ensures Receiving(Extended(s, sid, i, onDisk + b), sid, i, onDisk + b)
    ensures Extended(s, sid, i, onDisk + b).sessions[sid].manifest == s.sessions[sid].manifest
    ensures Extended(s, sid, i, onDisk + b).sessions[sid].slots == s.sessions[sid].slots
    ensures Extended(s, sid, i, onDisk + b).dirs == s.dirs
  {
  }

  lemma ChunkArrives(h: Hash, s: State, sid: Sid, i: nat, onDisk: Bytes, b: Bytes)
    requires Receiving(s, sid, i, onDisk) && 0 < |b| && |onDisk| + |b| <= s.sessions[sid].manifest[i].size
    ensures Run(h, s, [Recv(sid, Chunk(|b|)), Data(sid, b)]) == Extended(s, sid, i, onDisk + b)
    ensures Receiving(Extended(s, sid, i, onDisk + b), sid, i, onDisk + b)
    ensures Extended(s, sid, i, onDisk + b).sessions[sid].manifest == s.sessions[sid].manifest
  {
    hide Step, Run, Extended, Announced;
    ExtendedReceives(s, sid, i, onDisk, b);
    RunTwo(h, s, Recv(sid, Chunk(|b|)), Data(sid, b));
    ChunkHeaderStep(h, s, sid, i, onDisk, |b|);
    ChunkDataStep(h, s, sid, i, onDisk, b);
  }

  /** All items up to file_end arrive: the disk holds the old bytes followed by the rest of the source. */
  lemma {:induction false} BodyArrives(h: Hash, s: State, sid: Sid, i: nat, x: Bytes, pos: nat, items: seq<Item>, onDisk: Bytes)
    requires Receiving(s, sid, i, onDisk) && FileTail(items, i, x, pos)
    requires |onDisk| == pos && |x| == s.sessions[sid].manifest[i].size
    ensures Run(h, s, Arrivals(sid, items))
         == Step(h, Extended(s, sid, i, onDisk + x[pos..]), Recv(sid, FileEnd(i, 0))).state
    decreases |items|
  {
    hide Step, Run, Extended, Arrivals;
    if items[0] == Hdr(Progress) {
      ArrivalsFirst(sid, items);
      RunCons(h, s, Recv(sid, Progress), Arrivals(sid, items[1..]));
      ProgressIsIgnored(h, s, sid, i, onDisk);
      BodyArrives(h, s, sid, i, x, pos, items[1..], onDisk);
    } else if items[0] == Hdr(FileEnd(i, 0)) {
      ArrivalsFirst(sid, items);
      assert items[1..] == [];
      RunCons(h, s, Recv(sid, FileEnd(i, 0)), Arrivals(sid, items[1..]));
      RunNone(h, Step(h, s, Recv(sid, FileEnd(i, 0))).state, sid);
      ExtendedSame(s, sid, i, onDisk, x[pos..]);
    } else {
      BodyChunk(h, s, sid, i, x, pos, items, onDisk);
      var b := items[1].bytes;
      BodyArrives(h, Extended(s, sid, i, onDisk + b), sid, i, x, pos + |b|, items[2..], onDisk + b);
      ExtendedTwice(s, sid, i, onDisk, b, x[pos + |b|..]);
      assert b + x[pos + |b|..] == x[pos..];
    }
  }

  lemma ArrivalsFirst(sid: Sid, items: seq<Item>)
    requires items != []
    ensures items[0].Hdr? ==> Arrivals(sid, items) == [Recv(sid, items[0].frame)] + Arrivals(sid, items[1..])
    ensures items[0].Payload? ==> Arrivals(sid, items) == [Data(sid, items[0].bytes)] + Arrivals(sid, items[1..])
  {
  }

  lemma RunNone(h: Hash, s: State, sid: Sid)
    ensures Run(h, s, Arrivals(sid, [])) == s
  {
  }

  lemma ProgressIsIgnored(h: Hash, s: State, sid: Sid, i: nat, onDisk: Bytes)
    requires Receiving(s, sid, i, onDisk)
    ensures Step(h, s, Recv(sid, Progress)).state == s
  {
    assert Ready(s, sid);
  }

  lemma BodyChunk(h: Hash, s: State, sid: Sid, i: nat, x: Bytes, pos: nat, items: seq<Item>, onDisk: Bytes)
    requires Receiving(s, sid, i, onDisk) && FileTail(items, i, x, pos)
    requires |onDisk| == pos && |x| == s.sessions[sid].manifest[i].size
    requires items[0] != Hdr(Progress) && items[0] != Hdr(FileEnd(i, 0))
    ensures var b := items[1].bytes;
            var s1 := Extended(s, sid, i, onDisk + b);
            && Receiving(s1, sid, i, onDisk + b) && s1.sessions[sid].manifest == s.sessions[sid].manifest
            && FileTail(items[2..], i, x, pos + |b|)
            && Run(h, s, Arrivals(sid, items)) == Run(h, s1, Arrivals(sid, items[2..]))
  {
    hide Step, Run, Extended, Arrivals, Receiving;
    var b := items[1].bytes;
    var rest := Arrivals(sid, items[2..]);
    var head := [Recv(sid, Chunk(|b|)), Data(sid, b)];
    ArrivalsFirst(sid, items);
    ArrivalsFirst(sid, items[1..]);
    assert items[1..][1..] == items[2..];
    assert Arrivals(sid, items) == head + rest;
    RunConcat(h, s, head, rest);
    ChunkArrives(h, s, sid, i, onDisk, b);
  }

  lemma ExtendedSame(s: State, sid: Sid, i: nat, onDisk: Bytes, rest: Bytes)
    requires Receiving(s, sid, i, onDisk) && rest == []
    ensures Extended(s, sid, i, onDisk + rest) == s
  {
    assert onDisk + rest == onDisk;
    var t := Extended(s, sid, i, onDisk);
    assert t.files == s.files && t.sessions == s.sessions;
  }

  lemma ExtendedTwice(s: State, sid: Sid, i: nat, a: Bytes, b: Bytes, c: Bytes)
    requires Receiving(s, sid, i, a)
    ensures Extended(Extended(s, sid, i, a + b), sid, i, a + b + c) == Extended(s, sid, i, a + (b + c))
  {
    assert a + b + c == a + (b + c);
    var t, u := Extended(Extended(s, sid, i, a + b), sid, i, a + b + c), Extended(s, sid, i, a + (b + c));
    assert t.files == u.files && t.sessions == u.sessions;
  }

  // ----- query, header, open -----------------------------------------------

  /** An idle session asked about a file it has no slot for yet. */
  predicate Asked(s: State, sid: Sid, i: nat) {
    && sid in s.sessions
    && var sess := s.sessions[sid];
       && sess.phase.Idle? && sess.resume && i < |sess.manifest|
       && !sess.manifest[i].isDir && i !in sess.slots && i !in sess.completed
  }

  /** The session holds slot d for file i and a probe has been answered. */
  function Queried(s: State, sid: Sid, i: nat, d: Path, dirs: set<Path>): State
    requires Asked(s, sid, i)
  {
    var sess := s.sessions[sid];
    var meta := sess.manifest[i];
    With(s.(files := Probe(s.files, d, meta), dirs := ProbeDirs(s.files, dirs, d, meta), claims := s.claims + {Tmp(d)}), sid,
         sess.(slots := sess.slots[i := d], offers := sess.offers[i := PartialLen(s.files, d, meta)]))
  }

  function QueryEvents(sid: Sid, i: nat): seq<Event> {
    [Recv(sid, ResumeQuery(i)), Advance(sid), Advance(sid)]
  }

  function OpenEvents(sid: Sid, i: nat): seq<Event> {
    [Recv(sid, FileHeader(i)), Advance(sid), Advance(sid), Advance(sid)]
  }

  lemma RunThree(h: Hash, s: State, a: Event, b: Event, c: Event)
    ensures Run(h, s, [a, b, c]) == Step(h, Step(h, Step(h, s, a).state, b).state, c).state
  {
    hide Step, Run;
    assert [a, b, c] == [a] + ([b] + [c]);
    RunCons(h, s, a, [b] + [c]);
    RunCons(h, Step(h, s, a).state, b, [c]);
    RunOne(h, Step(h, Step(h, s, a).state, b).state, c);
  }

  /** The session has reserved d for file i and will probe it. */
  function Granted1(s: State, sid: Sid, i: nat, d: Path, dirs: set<Path>): State
    requires sid in s.sessions
  {
    var sess := s.sessions[sid];
    With(s.(dirs := dirs, claims := s.claims + {Tmp(d)}), sid, sess.(slots := sess.slots[i := d], phase := QueryProbe(i)))
  }

  lemma QueryFrameStep(h: Hash, s: State, sid: Sid, i: nat)
    requires Asked(s, sid, i)
    ensures Step(h, s, Recv(sid, ResumeQuery(i))).state == With(s, sid, s.sessions[sid].(phase := QueryReserve(i)))
  {
    assert Ready(s, sid);
  }

  lemma QueryReserveStep(h: Hash, s: State, sid: Sid, i: nat)
    requires Asked(s, sid, i) && Reserve(s, s.sessions[sid].manifest[i]).Granted?
    ensures var r := Reserve(s, s.sessions[sid].manifest[i]);
            var s1 := With(s, sid, s.sessions[sid].(phase := QueryReserve(i)));
            Step(h, s1, Advance(sid)).state == Granted1(s, sid, i, r.dest, r.dirs)
  {
    hide Reserve;
    var sess := s.sessions[sid];
    var s1 := With(s, sid, sess.(phase := QueryReserve(i)));
    ReserveIgnoresSessions(s, s1, sess.manifest[i]);
    var r := Reserve(s, sess.manifest[i]);
    assert Ready(s1, sid);
    var s2, t := AdvanceStep(s1, sid, s1.sessions[sid]).state, Granted1(s, sid, i, r.dest, r.dirs);
    assert s2.sessions == t.sessions;
  }

  lemma QueryProbeStep(h: Hash, s: State, sid: Sid, i: nat, d: Path, dirs: set<Path>)
    requires Asked(s, sid, i)
    ensures var o := Step(h, Granted1(s, sid, i, d, dirs), Advance(sid));
            && o.state == Queried(s, sid, i, d, dirs)
            && o.replies == [Offer(i, PartialLen(s.files, d, s.sessions[sid].manifest[i]))]
  {
    hide Probe, PartialLen;
    var s2 := Granted1(s, sid, i, d, dirs);
    assert Ready(s2, sid);
    var s3, t := AdvanceStep(s2, sid, s2.sessions[sid]).state, Queried(s, sid, i, d, dirs);
    assert s3.sessions == t.sessions;
  }

  /** A resume_query reserves the slot and is answered with the bytes on disk that can be kept. */
  lemma QueryRuns(h: Hash, s: State, sid: Sid, i: nat)
    requires Asked(s, sid, i) && Reserve(s, s.sessions[sid].manifest[i]).Granted?
    ensures var r := Reserve(s, s.sessions[sid].manifest[i]);
            && Run(h, s, QueryEvents(sid, i)) == Queried(s, sid, i, r.dest, r.dirs)
            && Step(h, Run(h, s, QueryEvents(sid, i)[..2]), Advance(sid)).replies
               == [Offer(i, PartialLen(s.files, r.dest, s.sessions[sid].manifest[i]))]
  {
    hide Reserve, Probe, PartialLen, Step, Run, Granted1, Queried;
    var r := Reserve(s, s.sessions[sid].manifest[i]);
    RunThree(h, s, Recv(sid, ResumeQuery(i)), Advance(sid), Advance(sid));
    QueryFrameStep(h, s, sid, i);
    QueryReserveStep(h, s, sid, i);
    QueryProbeStep(h, s, sid, i, r.dest, r.dirs);
    assert QueryEvents(sid, i)[..2] == [Recv(sid, ResumeQuery(i)), Advance(sid)];
    RunTwo(h, s, Recv(sid, ResumeQuery(i)), Advance(sid));
  }

  lemma ReserveIgnoresSessions(s: State, s1: State, meta: FileMeta)
    requires s1.files == s.files && s1.dirs == s.dirs && s1.claims == s.claims
    ensures Reserve(s1, meta) == Reserve(s, meta)
  {
  }

  /** The session holds slot d for the unfinished file i and is idle. */
  predicate Held(s: State, sid: Sid, i: nat, d: Path) {
    && sid in s.sessions
    && var sess := s.sessions[sid];
       && sess.phase.Idle? && sess.resume && i < |sess.manifest|
       && !sess.manifest[i].isDir && i in sess.slots && sess.slots[i] == d && i !in sess.completed
  }

  /** The bytes a transfer continues from. */
  function Seed(files: Files, d: Path, meta: FileMeta): Bytes {
    if PartialLen(files, d, meta) > 0 then files[Tmp(d)] else []
  }

  /** The part file of slot d is open with the seed in it. */
  function PartOpened(s: State, sid: Sid, i: nat, d: Path): State
    requires Held(s, sid, i, d)
  {
    var sess := s.sessions[sid];
    var meta := sess.manifest[i];
    var seed := Seed(s.files, d, meta);
    var dirs := ProbeDirs(s.files, s.dirs, d, meta);
    With(s.(files := Recorded(Probe(s.files, d, meta)[Tmp(d) := seed], dirs, d, meta), dirs := dirs), sid,
         sess.(phase := Body(i, |seed|, 0, 0, seed)))
  }

  lemma HeaderSteps(h: Hash, s: State, sid: Sid, i: nat, d: Path)
    requires Held(s, sid, i, d)
    ensures var s1 := With(s, sid, s.sessions[sid].(phase := Reserving(i)));
            && Step(h, s, Recv(sid, FileHeader(i))).state == s1
            && Step(h, s1, Advance(sid)).state == With(s, sid, s.sessions[sid].(phase := Probing(i)))
  {
    var sess := s.sessions[sid];
    var s1, t := With(s, sid, sess.(phase := Reserving(i))), With(s, sid, sess.(phase := Probing(i)));
    assert Ready(s, sid) && Ready(s1, sid);
    var s2 := AdvanceStep(s1, sid, s1.sessions[sid]).state;
    assert s2.sessions == t.sessions;
  }

  lemma OpenRuns(h: Hash, s: State, sid: Sid, i: nat, d: Path)
    requires Held(s, sid, i, d) && Tmp(d) !in s.dirs && HasParent(s.dirs, d)
    ensures Run(h, s, OpenEvents(sid, i)) == PartOpened(s, sid, i, d)
    ensures Receiving(PartOpened(s, sid, i, d), sid, i, Seed(s.files, d, s.sessions[sid].manifest[i]))
  {
    hide Step, Run, PartOpened, Seed, Receiving;
    TempPathsDiffer(d, d);
    var a, z := Recv(sid, FileHeader(i)), Advance(sid);
    assert OpenEvents(sid, i) == [a] + [z, z, z];
    RunCons(h, s, a, [z, z, z]);
    RunThree(h, Step(h, s, a).state, z, z, z);
    HeaderSteps(h, s, sid, i, d);
    OpenRunsLast(h, s, With(s, sid, s.sessions[sid].(phase := Probing(i))), sid, i, d);
  }

  /** The directory of a slot is not one of its temporaries, so no removal of these touches it. */
  lemma SweptKeepsParent(files: Files, dirs: set<Path>, d: Path, paths: set<Path>)
    requires HasParent(dirs, d) && paths <= {Tmp(d), Sidecar(d)}
    ensures HasParent(Swept(files, dirs, paths), d)
  {
    hide Split, Join;
    if |Split(d)| > 1 {
      ParentIsShorter(d);
      assert Join(Front(d)) !in paths;
    }
  }

  lemma ParentIsShorter(d: Path)
    requires |Split(d)| > 1
    ensures |Join(Front(d))| < |d|
  {
    hide Split, Join;
    JoinSplit(d);
    assert Front(d) + [Split(d)[|Split(d)| - 1]] == Split(d);
    JoinSnoc(Front(d), Split(d)[|Split(d)| - 1]);
  }

  lemma ProbeKeepsParent(files: Files, dirs: set<Path>, d: Path, meta: FileMeta)
    ensures HasParent(dirs, d) ==> HasParent(ProbeDirs(files, dirs, d, meta), d)
    ensures Tmp(d) !in dirs ==> Tmp(d) !in ProbeDirs(files, dirs, d, meta)
  {
    hide HasParent, EqualFold, TrimSpace;
    if HasParent(dirs, d) { SweptKeepsParent(files, dirs, d, {Tmp(d), Sidecar(d)}); }
  }

  /** Whether a temporary's path is an empty directory does not depend on the slot's own files. */
  lemma EmptyStays(files: Files, dirs: set<Path>, files': Files, dirs': set<Path>, d: Path, p: Path)
    requires p == Tmp(d) || p == Sidecar(d)
    requires files'.Keys + {d, Tmp(d), Sidecar(d)} == files.Keys + {d, Tmp(d), Sidecar(d)}
    requires dirs' + {Tmp(d), Sidecar(d)} == dirs + {Tmp(d), Sidecar(d)}
    requires p in dirs <==> p in dirs'
    ensures EmptyDir(files, dirs, p) <==> EmptyDir(files', dirs', p)
  {
    var own := {d, Tmp(d), Sidecar(d)};
    assert forall q | q in own :: !(p + "/" <= q) by {
      OwnIsNotBelow(d, p);
    }
    forall q | q !in own ensures q in files.Keys + dirs <==> q in files'.Keys + dirs' {
      assert q in files.Keys <==> q in files.Keys + {d, Tmp(d), Sidecar(d)};
      assert q in files'.Keys <==> q in files'.Keys + {d, Tmp(d), Sidecar(d)};
      assert q in dirs <==> q in dirs + {Tmp(d), Sidecar(d)};
      assert q in dirs' <==> q in dirs' + {Tmp(d), Sidecar(d)};
    }
  }

  lemma OwnIsNotBelow(d: Path, p: Path)
    requires p == Tmp(d) || p == Sidecar(d)
    ensures !(p + "/" <= d) && !(p + "/" <= Tmp(d)) && !(p + "/" <= Sidecar(d))
  {
    assert Sidecar(d)[|Tmp(d)|] == '.';
    assert (p + "/")[|p|] == '/';
  }

  /** Sweeping the temporaries of a slot once is enough, whatever its own files are. */
  lemma SweptOnce(files: Files, dirs: set<Path>, files': Files, dirs': set<Path>, d: Path, paths: set<Path>)
    requires paths <= {Tmp(d), Sidecar(d)}
    requires files'.Keys + {d, Tmp(d), Sidecar(d)} == files.Keys + {d, Tmp(d), Sidecar(d)}
    requires dirs' == dirs || dirs' == Swept(files, dirs, paths)
    ensures Swept(files', dirs', paths) == Swept(files, dirs, paths)
  {
    hide EmptyDir;
    assert forall p | EmptyDir(files, dirs, p) :: p in dirs by { IsDir(files, dirs); }
    assert forall p | EmptyDir(files', dirs', p) :: p in dirs' by { IsDir(files', dirs'); }
    forall p | p in paths && p in dirs && p in dirs'
      ensures EmptyDir(files, dirs, p) <==> EmptyDir(files', dirs', p)
    {
      EmptyStays(files, dirs, files', dirs', d, p);
    }
  }

  lemma IsDir(files: Files, dirs: set<Path>)
    ensures forall p | EmptyDir(files, dirs, p) :: p in dirs
  {
  }

  /** Paths that are no directories can be left out. */
  lemma SweptWithout(files: Files, dirs: set<Path>, p: Path, q: Path)
    requires p !in dirs
    ensures Swept(files, dirs, {p, q}) == Swept(files, dirs, {q})
  {
  }

  lemma OpenRunsLast(h: Hash, s: State, s2: State, sid: Sid, i: nat, d: Path)
    requires Held(s, sid, i, d) && Tmp(d) !in s.dirs && HasParent(s.dirs, d) && Tmp(d) != Sidecar(d)
    requires s2 == With(s, sid, s.sessions[sid].(phase := Probing(i)))
    ensures Step(h, Step(h, s2, Advance(sid)).state, Advance(sid)).state == PartOpened(s, sid, i, d)
    ensures Receiving(PartOpened(s, sid, i, d), sid, i, Seed(s.files, d, s.sessions[sid].manifest[i]))
  {
    hide Lower, EqualFold, TrimSpace, Swept, HasParent;
    var sess := s.sessions[sid];
    var meta := sess.manifest[i];
    var n := PartialLen(s.files, d, meta);
    var s3 := Step(h, s2, Advance(sid)).state;
    ProbeKeepsParent(s.files, s.dirs, d, meta);
    assert s3.dirs == ProbeDirs(s.files, s.dirs, d, meta);
    assert s3.sessions == s.sessions[sid := sess.(phase := Opening(i, n))];
    assert n > 0 ==> s3.files == s.files && |s.files[Tmp(d)]| == n;
    var s4, t := Step(h, s3, Advance(sid)).state, PartOpened(s, sid, i, d);
    assert s4.sessions == t.sessions;
    assert s4.files == t.files;
  }

  // ----- the end --------------------------------------------------------------

  /** The file is in place under d; nothing of its temporaries is left. */
  function Placed(s: State, sid: Sid, i: nat, d: Path, content: Bytes): State
    requires sid in s.sessions && i < |s.sessions[sid].manifest|
  {
    var sess := s.sessions[sid];
    With(s.(files := RemovePart(s.files, d)[d := content], dirs := Swept(s.files, s.dirs, {Sidecar(d)}),
            delivered := s.delivered[d := sess.manifest[i]]), sid,
         sess.(phase := Idle, completed := sess.completed + {i}))
  }

  /** The attempt failed its check: the partial is gone and the session has ended. */
  function Rejected(s: State, sid: Sid, d: Path): State
    requires sid in s.sessions
  {
    With(Removed(s, d), sid, s.sessions[sid].(phase := Ended(false)))
  }

  lemma EndRuns(h: Hash, s: State, sid: Sid, i: nat, d: Path, content: Bytes)
    requires Receiving(s, sid, i, content) && s.sessions[sid].slots[i] == d && d !in s.dirs
    requires |content| == s.sessions[sid].manifest[i].size
    ensures var s1 := Step(h, s, Recv(sid, FileEnd(i, 0))).state;
            var s' := Run(h, s1, [Advance(sid), Advance(sid)]);
            s' == if EqualFold(h(content), s.sessions[sid].manifest[i].sha)
                  then Placed(s, sid, i, d, content) else Rejected(s, sid, d)
  {
    hide EqualFold;
    var sess := s.sessions[sid];
    var z := Advance(sid);
    var s1 := Step(h, s, Recv(sid, FileEnd(i, 0))).state;
    assert [z, z] == [z] + [z];
    RunCons(h, s1, z, [z]);
    var s2 := Step(h, s1, z).state;
    RunOne(h, s2, z);
    if EqualFold(h(content), sess.manifest[i].sha) {
      assert s1 == With(s, sid, sess.(phase := Renaming(i)));
      EndPlaces(h, s, s1, sid, i, d, content);
    } else {
      assert s1 == Rejected(s, sid, d);
    }
  }

  lemma EndPlaces(h: Hash, s: State, s1: State, sid: Sid, i: nat, d: Path, content: Bytes)
    requires Receiving(s, sid, i, content) && s.sessions[sid].slots[i] == d && d !in s.dirs
    requires s1 == With(s, sid, s.sessions[sid].(phase := Renaming(i)))
    ensures Step(h, Step(h, s1, Advance(sid)).state, Advance(sid)).state == Placed(s, sid, i, d, content)
  {
    var sess := s.sessions[sid];
    TempPathsDiffer(d, d);
    assert |Sidecar(d)| > |d|;
    hide Swept;
    var s2 := Step(h, s1, Advance(sid)).state;
    assert s2.sessions == s.sessions[sid := sess.(phase := Cleaning(i))];
    var s3, t := Step(h, s2, Advance(sid)).state, Placed(s, sid, i, d, content);
    assert s3.sessions == t.sessions;
    assert s3.files == t.files;
    SweptOnce(s.files, s.dirs, s2.files, s.dirs, d, {Sidecar(d)});
  }

  // ----- the whole attempt -------------------------------------------------------

  /** Everything that happens for entry i when nothing interrupts it. */
  function AttemptEvents(sid: Sid, i: nat, items: seq<Item>): seq<Event> {
    QueryEvents(sid, i) + (OpenEvents(sid, i) + (Arrivals(sid, items) + [Advance(sid), Advance(sid)]))
  }

  /** What the attempt leaves: the file in place, or a rejection with the partial removed. */
  function AttemptResult(h: Hash, s: State, sid: Sid, i: nat, x: Bytes): State
    requires Asked(s, sid, i) && Reserve(s, s.sessions[sid].manifest[i]).Granted?
  {
    var meta := s.sessions[sid].manifest[i];
    var r := Reserve(s, meta);
    var seed := Seed(s.files, r.dest, meta);
    var q := Queried(s, sid, i, r.dest, r.dirs).(files := s.files, dirs := r.dirs);
    if |seed| <= |x| && EqualFold(h(seed + x[|seed|..]), meta.sha)
    then Placed(q, sid, i, r.dest, seed + x[|seed|..])
    else Rejected(q, sid, r.dest)
  }

  /** Nothing but files can be in the way: no directory sits at the destination or its temporary. */
  predicate ClearOfDirs(s: State, meta: FileMeta) {
    var r := Reserve(s, meta);
    r.Granted? && r.dest !in r.dirs && Tmp(r.dest) !in r.dirs
  }

  lemma QueriedHolds(s: State, sid: Sid, i: nat, d: Path, dirs: set<Path>)
    requires Asked(s, sid, i)
    ensures var q := Queried(s, sid, i, d, dirs);
            var meta := s.sessions[sid].manifest[i];
            && Held(q, sid, i, d) && q.dirs == ProbeDirs(s.files, dirs, d, meta)
            && q.sessions[sid].manifest == s.sessions[sid].manifest
            && PartialLen(q.files, d, meta) == PartialLen(s.files, d, meta)
            && Seed(q.files, d, meta) == Seed(s.files, d, meta)
            && ProbeDirs(q.files, q.dirs, d, meta) == q.dirs
            && Probe(q.files, d, meta) == q.files
  {
    hide Swept;
  }

  /** A slot is only granted once its directory exists. */
  lemma GrantedHasParent(s: State, meta: FileMeta)
    requires Reserve(s, meta).Granted?
    ensures HasParent(Reserve(s, meta).dirs, Reserve(s, meta).dest)
  {
    hide Split, Join, FirstFree, MakeDirs, ValidRelPath, SanitizeName, Candidate, Occupied;
    var name := WantedName(meta).value;
    WantedIsLegal(meta);
    var k := FirstFree(name, Occupied(s), 0);
    assert Reserve(s, meta).dest == Candidate(name, k);
    CandidateIsLegal(name, k);
    if |Split(name)| > 1 {
      DirectoryIsMade(s.files, s.dirs, Join(Front(name)));
    }
  }

  lemma WantedIsLegal(meta: FileMeta)
    requires WantedName(meta).Some?
    ensures Legal(WantedName(meta).value)
    ensures meta.relPath == "" ==> |Split(WantedName(meta).value)| == 1
  {
    hide SanitizeName, Split, LegalParts;
    if meta.relPath == "" { SanitizedIsLegal(meta.name); }
  }

  lemma DirectoryIsMade(files: Files, dirs: set<Path>, rel: string)
    requires CreateDirectory(files, dirs, rel).ok
    ensures rel in CreateDirectory(files, dirs, rel).dirs
  {
    hide Split, Join, ValidRelPath;
    JoinSplit(rel);
  }

  /**
   * An uninterrupted attempt. The part file ends up holding the kept partial followed by the
   * source from the offered offset; it is put in place exactly when that has the declared digest.
   */
  lemma AttemptRuns(h: Hash, s: State, sid: Sid, i: nat, x: Bytes, items: seq<Item>)
    requires Asked(s, sid, i) && ClearOfDirs(s, s.sessions[sid].manifest[i])
    requires |x| == s.sessions[sid].manifest[i].size
    requires FileTail(items, i, x, PartialLen(s.files, Reserve(s, s.sessions[sid].manifest[i]).dest, s.sessions[sid].manifest[i]))
    ensures Run(h, s, AttemptEvents(sid, i, items)) == AttemptResult(h, s, sid, i, x)
  {
    hide Step, Run, Reserve, Queried, PartOpened, Receiving, Extended, Placed, Rejected, Arrivals, Seed, PartialLen, EqualFold, FileTail;
    var meta := s.sessions[sid].manifest[i];
    var r := Reserve(s, meta);
    var d := r.dest;
    var q := Queried(s, sid, i, d, r.dirs);
    QueryRuns(h, s, sid, i);
    QueriedHolds(s, sid, i, d, r.dirs);
    GrantedHasParent(s, meta);
    ProbeKeepsParent(s.files, r.dirs, d, meta);
    var o, seed := PartOpened(q, sid, i, d), Seed(s.files, d, meta);
    SeedLength(s.files, d, meta);
    TailBound(items, i, x, |seed|);
    OpenRuns(h, q, sid, i, d);
    var tail := [Advance(sid), Advance(sid)];
    RunConcat(h, s, QueryEvents(sid, i), OpenEvents(sid, i) + (Arrivals(sid, items) + tail));
    RunConcat(h, q, OpenEvents(sid, i), Arrivals(sid, items) + tail);
    RunConcat(h, o, Arrivals(sid, items), tail);
    OpenedFacts(q, sid, i, d);
    var content := seed + x[|seed|..];
    BodyArrives(h, o, sid, i, x, |seed|, items, seed);
    ExtendedReceives(o, sid, i, seed, x[|seed|..]);
    EndRuns(h, Extended(o, sid, i, content), sid, i, d, content);
    AttemptShape(h, s, sid, i, d, r.dirs, content);
  }

  lemma TailBound(items: seq<Item>, i: nat, x: Bytes, pos: nat)
    requires FileTail(items, i, x, pos)
    ensures pos <= |x|
  {
  }

  lemma SeedLength(files: Files, d: Path, meta: FileMeta)
    ensures |Seed(files, d, meta)| == PartialLen(files, d, meta)
  {
  }

  lemma OpenedFacts(q: State, sid: Sid, i: nat, d: Path)
    requires Held(q, sid, i, d)
    ensures var o := PartOpened(q, sid, i, d);
            && sid in o.sessions && o.sessions[sid].manifest == q.sessions[sid].manifest
            && o.sessions[sid].slots == q.sessions[sid].slots
            && o.dirs == ProbeDirs(q.files, q.dirs, d, q.sessions[sid].manifest[i])
  {
  }

  /** After opening, receiving and ending, only d and its temporaries differ from the query's state. */
  lemma AttemptShape(h: Hash, s: State, sid: Sid, i: nat, d: Path, dirs: set<Path>, content: Bytes)
    requires Asked(s, sid, i) && Tmp(d) !in dirs
    ensures var q := Queried(s, sid, i, d, dirs);
            && Held(q, sid, i, d)
            && var e, q' := Extended(PartOpened(q, sid, i, d), sid, i, content), q.(files := s.files, dirs := dirs);
               && Placed(e, sid, i, d, content) == Placed(q', sid, i, d, content)
               && Rejected(e, sid, d) == Rejected(q', sid, d)
  {
    hide Seed, PartialLen, Lower, Swept, ProbeDirs;
    var q := Queried(s, sid, i, d, dirs);
    var meta := s.sessions[sid].manifest[i];
    QueriedHolds(s, sid, i, d, dirs);
    var e := Extended(PartOpened(q, sid, i, d), sid, i, content);
    var q' := q.(files := s.files, dirs := dirs);
    assert RemovePart(e.files, d) == RemovePart(s.files, d);
    assert e.dirs == q.dirs;
    assert Placed(e, sid, i, d, content).sessions == Placed(q', sid, i, d, content).sessions;
    assert Rejected(e, sid, d).sessions == Rejected(q', sid, d).sessions;
    ProbedThenSwept(s.files, dirs, e.files, d, meta);
  }

  /** What a probe of a slot removes, the sweep at the end of the attempt would remove as well. */
  lemma ProbedThenSwept(files: Files, dirs: set<Path>, files': Files, d: Path, meta: FileMeta)
    requires Tmp(d) !in dirs
    requires files'.Keys + {d, Tmp(d), Sidecar(d)} == files.Keys + {d, Tmp(d), Sidecar(d)}
    ensures var dirs' := ProbeDirs(files, dirs, d, meta);
            && Swept(files', dirs', {Sidecar(d)}) == Swept(files, dirs, {Sidecar(d)})
            && Swept(files', dirs', {Tmp(d), Sidecar(d)}) == Swept(files, dirs, {Tmp(d), Sidecar(d)})
  {
    hide Swept, HasPartial, SidecarMatches;
    var dirs' := ProbeDirs(files, dirs, d, meta);
    ProbeKeepsParent(files, dirs, d, meta);
    SweptWithout(files, dirs, Tmp(d), Sidecar(d));
    SweptWithout(files', dirs', Tmp(d), Sidecar(d));
    SweptOnce(files, dirs, files', dirs', d, {Sidecar(d)});
  }
}
