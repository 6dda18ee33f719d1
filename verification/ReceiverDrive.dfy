/** A session of the step machine driven by the messages of one connection, and what each message comes to. */
module ReceiverDrive {
  import opened Basics
  import opened Names
  import opened Receiver
  import A = Attempts

  /**
   * A message as it arrives: a chunk's payload may have been cut short by the end of the connection. dirSize is what
   * the file system says is the size of a directory, should the probe that follows find one in place of the partial.
   */
  datatype Message = Message(frame: Frame, payload: Bytes, dirSize: nat)

  // ----- a session driven by what arrives ------------------------------------------------

  /** Steps left before the session reads from its connection again, at most. */
  function Rank(p: Phase): nat {
    match p
    case Reserving(_) => 3
    case QueryReserve(_) | Probing(_) | Renaming(_) => 2
    case QueryProbe(_) | Opening(_, _) | Cleaning(_) => 1
    case _ => 0
  }

  /** The session can take steps in s. */
  predicate Serving(s: State, sid: Sid) {
    Ready(s, sid) && (s.sessions[sid].phase.Body? ==> s.sessions[sid].phase.left == 0)
  }

  /** It waits for a frame, or has ended. */
  predicate Reads(s: State, sid: Sid) {
    Serving(s, sid) && Rank(s.sessions[sid].phase) == 0
  }

  function Then(o: Outcome, next: Outcome): Outcome {
    Outcome(next.state, o.replies + next.replies)
  }

  lemma SlotForKeeps(s: State, sid: Sid, sess: Session, i: nat)
    requires i < |sess.manifest|
    ensures var (s1, sess1, ok) := SlotFor(s, sid, sess, i);
            sess1.manifest == sess.manifest && sess1.resume == sess.resume && (ok ==> i in sess1.slots)
  {
    hide Reserve;
  }

  lemma OpenKeeps(s: State, sid: Sid, sess: Session, i: nat, offset: nat)
    requires i in sess.slots && i < |sess.manifest|
    ensures var s1 := OpenPart(s, sid, sess, i, offset).state;
            Reads(s1, sid)
  {
    hide Lower;
  }

  lemma RenameKeeps(s: State, sid: Sid, sess: Session, i: nat)
    requires i in sess.slots && i < |sess.manifest|
    ensures var s1 := RenamePart(s, sid, sess, i).state;
            Serving(s1, sid) && Rank(s1.sessions[sid].phase) <= 1
  {
  }

  /** The session is about to probe, and finds a directory that may pass for a partial. */
  predicate FindsDir(s: State, sid: Sid, size: nat)
    requires Ready(s, sid)
  {
    var sess := s.sessions[sid];
    (sess.phase.QueryProbe? || sess.phase.Probing?)
    && Tmp(sess.slots[sess.phase.index]) in s.dirs && 0 < size < sess.manifest[sess.phase.index].size
  }

  /** The next step of a session that does not read. */
  function Next(s: State, sid: Sid, size: nat): Event
    requires Ready(s, sid)
  {
    if FindsDir(s, sid, size) then ProbeDir(sid, size) else Advance(sid)
  }

  lemma NextLowersRank(h: Hash, s: State, sid: Sid, size: nat)
    requires Serving(s, sid) && Rank(s.sessions[sid].phase) > 0
    ensures var s1 := Step(h, s, Next(s, sid, size)).state;
            Serving(s1, sid) && Rank(s1.sessions[sid].phase) < Rank(s.sessions[sid].phase)
  {
    hide SlotFor, OpenPart, RenamePart, Probe, PartialLen, Swept, SidecarMatches;
    var sess := s.sessions[sid];
    match sess.phase
    case QueryReserve(i) => SlotForKeeps(s, sid, sess, i);
    case Reserving(i) => SlotForKeeps(s, sid, sess, i);
    case Opening(i, offset) => OpenKeeps(s, sid, sess, i, offset);
    case Renaming(i) => RenameKeeps(s, sid, sess, i);
    case _ =>
  }

  /** The session works until it reads again. */
  function Work(h: Hash, o: Outcome, sid: Sid, size: nat): (r: Outcome)
    requires Serving(o.state, sid)
    ensures Reads(r.state, sid)
    decreases Rank(o.state.sessions[sid].phase)
  {
    if Rank(o.state.sessions[sid].phase) == 0 then o
    else
      NextLowersRank(h, o.state, sid, size);
      Work(h, Then(o, Step(h, o.state, Next(o.state, sid, size))), sid, size)
  }

  lemma IdleIsLive(s: State, sid: Sid, sess: Session, frame: Frame)
    requires sid in s.sessions && s.sessions[sid] == sess && PhaseInRange(sess)
    ensures Ready(IdleFrame(s, sid, sess, frame).state, sid)
  {
    hide PhaseInRange, With;
    forall p: Phase | p.Ended? || (p.QueryReserve? && p.index < |sess.manifest|)
                      || (p.DirEntry? && p.index < |sess.manifest|) || (p.Reserving? && p.index < |sess.manifest|)
      ensures Ready(With(s, sid, sess.(phase := p)), sid)
    {
      PhaseIsReady(s, sid, sess, p);
    }
    match frame
    case _ =>
  }

  lemma PhaseIsReady(s: State, sid: Sid, sess: Session, p: Phase)
    requires p.Ended? || (p.QueryReserve? && p.index < |sess.manifest|)
             || (p.DirEntry? && p.index < |sess.manifest|) || (p.Reserving? && p.index < |sess.manifest|)
    ensures Ready(With(s, sid, sess.(phase := p)), sid)
  {
  }

  lemma BodyIsLive(h: Hash, s: State, sid: Sid, sess: Session, frame: Frame)
    requires sess.phase.Body? && sess.phase.index in sess.slots && sess.phase.index < |sess.manifest|
    requires sid in s.sessions && s.sessions[sid] == sess
    ensures Ready(BodyFrame(h, s, sid, sess, frame).state, sid)
  {
    hide EqualFold;
  }

  lemma DirIsLive(s: State, sid: Sid, sess: Session, i: nat, frame: Frame)
    requires i < |sess.manifest|
    ensures Reads(DirFrame(s, sid, sess, i, frame).state, sid)
  {
    hide CreateDirectory;
  }

  lemma RecvIsLive(h: Hash, s: State, sid: Sid, m: Message)
    requires Reads(s, sid)
    ensures Ready(Step(h, s, Recv(sid, m.frame)).state, sid)
  {
    hide IdleFrame, BodyFrame, DirFrame, PhaseInRange;
    var sess := s.sessions[sid];
    if sess.phase.Idle? { IdleIsLive(s, sid, sess, m.frame); }
    else if sess.phase.DirEntry? { InRange(sess); DirIsLive(s, sid, sess, sess.phase.index, m.frame); }
    else if sess.phase.Body? { InRange(sess); BodyIsLive(h, s, sid, sess, m.frame); }
  }

  lemma InRange(sess: Session)
    requires PhaseInRange(sess)
    ensures sess.phase.DirEntry? ==> sess.phase.index < |sess.manifest|
    ensures sess.phase.Body? ==> sess.phase.index < |sess.manifest| && sess.phase.index in sess.slots
  {
  }

  /** The payload of an announced chunk, as far as it arrived; short of its length the connection is gone. */
  function TakePayload(h: Hash, o: Outcome, sid: Sid, payload: Bytes): (r: Outcome)
    requires Ready(o.state, sid) && o.state.sessions[sid].phase.Body? && o.state.sessions[sid].phase.left > 0
    ensures Reads(r.state, sid)
  {
    var left := o.state.sessions[sid].phase.left;
    var o1 := if payload == [] then o else Then(o, Step(h, o.state, Data(sid, payload[..Min(left, |payload|)])));
    if |payload| < left then Then(o1, Step(h, o1.state, Drop(sid))) else o1
  }

  /** One message and all that follows from it before the next read. */
  function Handle(h: Hash, o: Outcome, sid: Sid, m: Message): (r: Outcome)
    requires Reads(o.state, sid)
    ensures Reads(r.state, sid)
  {
    RecvIsLive(h, o.state, sid, m);
    var o1 := Then(o, Step(h, o.state, Recv(sid, m.frame)));
    if o1.state.sessions[sid].phase.Body? && o1.state.sessions[sid].phase.left > 0
    then TakePayload(h, o1, sid, m.payload)
    else Work(h, o1, sid, m.dirSize)
  }

  /** The whole connection: every message until the session ends, or the drop at the end of input. */
  function Drive(h: Hash, o: Outcome, sid: Sid, input: seq<Message>): (r: Outcome)
    requires Reads(o.state, sid)
    ensures sid in r.state.sessions
    decreases |input|
  {
    if o.state.sessions[sid].phase.Ended? then o
    else if input == [] then Then(o, Step(h, o.state, Drop(sid)))
    else Drive(h, Handle(h, o, sid, input[0]), sid, input[1..])
  }

  /** The deferred release of every slot. */
  function ReleaseAll(s: State, sid: Sid): State
    requires sid in s.sessions
  {
    var sess := s.sessions[sid];
    With(s.(claims := s.claims - (set i | i in sess.slots :: Tmp(sess.slots[i]))), sid, sess.(released := sess.slots.Keys))
  }

  // ----- what each message comes to ------------------------------------------------------------

  lemma DriveEnded(h: Hash, o: Outcome, sid: Sid, input: seq<Message>)
    requires Reads(o.state, sid) && o.state.sessions[sid].phase.Ended?
    ensures Drive(h, o, sid, input) == o
  {
  }

  lemma DriveNext(h: Hash, o: Outcome, sid: Sid, input: seq<Message>, k: nat)
    requires Reads(o.state, sid) && !o.state.sessions[sid].phase.Ended? && k < |input|
    ensures Drive(h, o, sid, input[k..]) == Drive(h, Handle(h, o, sid, input[k]), sid, input[k + 1..])
  {
    hide Handle;
    assert input[k..][1..] == input[k + 1..];
  }

  lemma DriveOver(h: Hash, o: Outcome, sid: Sid, input: seq<Message>)
    requires Reads(o.state, sid) && !o.state.sessions[sid].phase.Ended?
    ensures Drive(h, o, sid, input[|input|..]) == Then(o, Step(h, o.state, Drop(sid)))
  {
    hide Handle;
  }

  /** Session sid is idle in s, as sess. */
  predicate IdleAs(s: State, sid: Sid, sess: Session) {
    sid in s.sessions && s.sessions[sid] == sess && sess.phase == Idle
  }

  lemma WorkDone(h: Hash, o: Outcome, sid: Sid, size: nat)
    requires Reads(o.state, sid)
    ensures Work(h, o, sid, size) == o
  {
  }

  lemma WorkOn(h: Hash, o: Outcome, sid: Sid, size: nat)
    requires Serving(o.state, sid) && Rank(o.state.sessions[sid].phase) > 0 && !FindsDir(o.state, sid, size)
    ensures var o1 := Then(o, AdvanceStep(o.state, sid, o.state.sessions[sid]));
            Serving(o1.state, sid) && Work(h, o, sid, size) == Work(h, o1, sid, size)
  {
    hide AdvanceStep;
    NextLowersRank(h, o.state, sid, size);
  }

  lemma WorkOnDir(h: Hash, o: Outcome, sid: Sid, size: nat)
    requires Serving(o.state, sid) && FindsDir(o.state, sid, size)
    ensures var o1 := Then(o, ProbeDirStep(o.state, sid, o.state.sessions[sid], size));
            Serving(o1.state, sid) && Work(h, o, sid, size) == Work(h, o1, sid, size)
  {
    hide ProbeDirStep;
    NextLowersRank(h, o.state, sid, size);
  }

  /** Frames an idle session answers at once. */
  lemma PlainHandled(h: Hash, o: Outcome, sid: Sid, sess: Session, m: Message)
    requires IdleAs(o.state, sid, sess)
    requires Reads(IdleFrame(o.state, sid, sess, m.frame).state, sid)
    requires !IdleFrame(o.state, sid, sess, m.frame).state.sessions[sid].phase.Body?
    ensures Reads(o.state, sid) && Handle(h, o, sid, m) == Then(o, IdleFrame(o.state, sid, sess, m.frame))
  {
    hide IdleFrame;
    RecvIsLive(h, o.state, sid, m);
    WorkDone(h, Then(o, IdleFrame(o.state, sid, sess, m.frame)), sid, m.dirSize);
  }

  /** partialBytes on the whole disk: what stays, and the bytes that can be kept. */
  function ProbedAt(s: State, dest: Path, meta: FileMeta, size: nat): (State, nat) {
    if Tmp(dest) in s.dirs && 0 < size < meta.size
    then (if SidecarMatches(s.files, dest, meta) then (s, size) else (Removed(s, dest), 0))
    else (Probed(s, dest, meta), PartialLen(s.files, dest, meta))
  }

  /** A resume_query about a file: its slot, then its probe. */
  function QueryResult(s: State, sid: Sid, sess: Session, i: nat, size: nat): Outcome
    requires i < |sess.manifest|
  {
    var (s1, sess1, ok) := SlotFor(s, sid, sess, i);
    if !ok then Outcome(With(s1, sid, sess1.(phase := Idle)), [Offer(i, 0)])
    else
      SlotForKeeps(s, sid, sess, i);
      var dest, meta := sess1.slots[i], sess.manifest[i];
      var (s2, n) := ProbedAt(s1, dest, meta, size);
      Outcome(With(s2, sid, sess1.(phase := Idle, offers := sess1.offers[i := n])), [Offer(i, n)])
  }

  lemma WithTwice(s: State, sid: Sid, a: Session, b: Session)
    ensures With(With(s, sid, a), sid, b) == With(s, sid, b)
  {
    assert s.sessions[sid := a][sid := b] == s.sessions[sid := b];
  }

  /** A reservation does not depend on what the sessions are doing. */
  lemma SlotForShift(s: State, sid: Sid, a: Session, sess: Session, p: Phase, i: nat)
    requires i < |sess.manifest|
    ensures var (s1, sess1, ok) := SlotFor(s, sid, sess, i);
            SlotFor(With(s, sid, a), sid, sess.(phase := p), i) == (With(s1, sid, a), sess1.(phase := p), ok)
  {
    hide Reserve;
    assert Reserve(With(s, sid, a), sess.manifest[i]) == Reserve(s, sess.manifest[i]) by {
      ReserveShift(s, sid, a, sess.manifest[i]);
    }
  }

  lemma ReserveShift(s: State, sid: Sid, a: Session, meta: FileMeta)
    ensures Reserve(With(s, sid, a), meta) == Reserve(s, meta)
  {
  }

  predicate Queries(sess: Session, i: int) {
    sess.resume && 0 <= i < |sess.manifest| && !sess.manifest[i].isDir
  }

  lemma QueryHandled(h: Hash, o: Outcome, sid: Sid, sess: Session, i: nat, m: Message)
    requires IdleAs(o.state, sid, sess) && m.frame == ResumeQuery(i) && Queries(sess, i)
    ensures Reads(o.state, sid) && Handle(h, o, sid, m) == Then(o, QueryResult(o.state, sid, sess, i, m.dirSize))
  {
    hide SlotFor, ProbedAt, Work;
    var s := o.state;
    var a := sess.(phase := QueryReserve(i));
    RecvIsLive(h, s, sid, m);
    var o1 := Then(o, IdleFrame(s, sid, sess, m.frame));
    assert o1 == Outcome(With(s, sid, a), o.replies);
    WorkOn(h, o1, sid, m.dirSize);
    SlotForShift(s, sid, a, sess, QueryReserve(i), i);
    SlotForKeeps(s, sid, sess, i);
    var (s1, sess1, ok) := SlotFor(s, sid, sess, i);
    var o2 := Then(o1, AdvanceStep(o1.state, sid, o1.state.sessions[sid]));
    if ok {
      var b := sess1.(phase := QueryProbe(i));
      WithTwice(s1, sid, a, b);
      assert o2 == Outcome(With(s1, sid, b), o.replies);
      QueryProbed(h, o2, o, s1, sid, sess1, i, m.dirSize);
    } else {
      WithTwice(s1, sid, a, sess1.(phase := Idle));
      WorkDone(h, o2, sid, m.dirSize);
    }
  }

  lemma QueryProbed(h: Hash, o2: Outcome, o: Outcome, s1: State, sid: Sid, sess1: Session, i: nat, size: nat)
    requires i < |sess1.manifest| && i in sess1.slots
    requires o2 == Outcome(With(s1, sid, sess1.(phase := QueryProbe(i))), o.replies)
    ensures var (s2, n) := ProbedAt(s1, sess1.slots[i], sess1.manifest[i], size);
            Serving(o2.state, sid) && Work(h, o2, sid, size)
            == Then(o, Outcome(With(s2, sid, sess1.(phase := Idle, offers := sess1.offers[i := n])), [Offer(i, n)]))
  {
    hide Probe, PartialLen, Work, Swept, SidecarMatches, ProbeDirs;
    var b := sess1.(phase := QueryProbe(i));
    var (s2, n) := ProbedAt(s1, sess1.slots[i], sess1.manifest[i], size);
    WithTwice(s2, sid, b, sess1.(phase := Idle, offers := sess1.offers[i := n]));
    var o3;
    if FindsDir(o2.state, sid, size) {
      WorkOnDir(h, o2, sid, size);
      o3 := Then(o2, ProbeDirStep(o2.state, sid, b, size));
    } else {
      WorkOn(h, o2, sid, size);
      o3 := Then(o2, AdvanceStep(o2.state, sid, b));
    }
    WorkDone(h, o3, sid, size);
  }

  /** A file_header: its slot, its probe when resuming, and the part file opened. */
  function HeaderResult(s: State, sid: Sid, sess: Session, i: nat, size: nat): Outcome
    requires i < |sess.manifest|
  {
    var (s1, sess1, ok) := SlotFor(s, sid, sess, i);
    if !ok then Refuse(s1, sid, sess1, i)
    else
      SlotForKeeps(s, sid, sess, i);
      var dest, meta := sess1.slots[i], sess.manifest[i];
      if sess.resume
      then
        var (s2, n) := ProbedAt(s1, dest, meta, size);
        OpenPart(s2, sid, sess1, i, n)
      else OpenPart(s1, sid, sess1, i, 0)
  }

  lemma OpenShift(s: State, sid: Sid, a: Session, sess: Session, p: Phase, i: nat, offset: nat)
    requires i in sess.slots && i < |sess.manifest|
    ensures OpenPart(With(s, sid, a), sid, sess.(phase := p), i, offset) == OpenPart(s, sid, sess, i, offset)
  {
    hide Lower, HasParent;
    var dest, meta := sess.slots[i], sess.manifest[i];
    WithTwice(s, sid, a, sess.(phase := Ended(false)));
    if offset == 0 || Tmp(dest) in s.files {
      var seed := if offset > 0 then s.files[Tmp(dest)] else [];
      WithTwice(s.(files := Recorded(s.files[Tmp(dest) := seed], s.dirs, dest, meta)), sid, a,
                sess.(phase := Body(i, offset, 0, 0, seed)));
    }
  }

  lemma HeaderHandled(h: Hash, o: Outcome, sid: Sid, sess: Session, i: nat, m: Message)
    requires IdleAs(o.state, sid, sess) && m.frame == FileHeader(i)
    requires i < |sess.manifest| && i !in sess.completed && !sess.manifest[i].isDir
    ensures Reads(o.state, sid) && Handle(h, o, sid, m) == Then(o, HeaderResult(o.state, sid, sess, i, m.dirSize))
  {
    hide SlotFor, ProbedAt, Work, OpenPart;
    var s := o.state;
    var a := sess.(phase := Reserving(i));
    RecvIsLive(h, s, sid, m);
    var o1 := Then(o, IdleFrame(s, sid, sess, m.frame));
    assert o1 == Outcome(With(s, sid, a), o.replies);
    WorkOn(h, o1, sid, m.dirSize);
    SlotForShift(s, sid, a, sess, Reserving(i), i);
    SlotForKeeps(s, sid, sess, i);
    var (s1, sess1, ok) := SlotFor(s, sid, sess, i);
    var o2 := Then(o1, AdvanceStep(o1.state, sid, o1.state.sessions[sid]));
    if !ok {
      WithTwice(s1, sid, a, sess1.(phase := Ended(false)));
      WorkDone(h, o2, sid, m.dirSize);
    } else if sess.resume {
      WithTwice(s1, sid, a, sess1.(phase := Probing(i)));
      assert o2 == Outcome(With(s1, sid, sess1.(phase := Probing(i))), o.replies);
      HeaderProbed(h, o2, o, s1, sid, sess1, i, m.dirSize);
    } else {
      WithTwice(s1, sid, a, sess1.(phase := Opening(i, 0)));
      assert o2 == Outcome(With(s1, sid, sess1.(phase := Opening(i, 0))), o.replies);
      HeaderOpened(h, o2, o, s1, sid, sess1, i, 0, m.dirSize);
    }
  }

  lemma HeaderProbed(h: Hash, o2: Outcome, o: Outcome, s1: State, sid: Sid, sess1: Session, i: nat, size: nat)
    requires i < |sess1.manifest| && i in sess1.slots
    requires o2 == Outcome(With(s1, sid, sess1.(phase := Probing(i))), o.replies)
    ensures var (s2, n) := ProbedAt(s1, sess1.slots[i], sess1.manifest[i], size);
            Serving(o2.state, sid) && Work(h, o2, sid, size) == Then(o, OpenPart(s2, sid, sess1, i, n))
  {
    hide Probe, PartialLen, Work, OpenPart, Swept, SidecarMatches, ProbeDirs;
    var b := sess1.(phase := Probing(i));
    var (s2, n) := ProbedAt(s1, sess1.slots[i], sess1.manifest[i], size);
    WithTwice(s2, sid, b, sess1.(phase := Opening(i, n)));
    assert o.replies + [] == o.replies;
    if FindsDir(o2.state, sid, size) {
      WorkOnDir(h, o2, sid, size);
      assert ProbeDirStep(o2.state, sid, b, size) == Outcome(With(s2, sid, sess1.(phase := Opening(i, n))), []);
    } else {
      WorkOn(h, o2, sid, size);
      assert AdvanceStep(o2.state, sid, b) == Outcome(With(s2, sid, sess1.(phase := Opening(i, n))), []);
    }
    HeaderOpened(h, Outcome(With(s2, sid, sess1.(phase := Opening(i, n))), o.replies), o, s2, sid, sess1, i, n, size);
  }

  lemma HeaderOpened(h: Hash, o3: Outcome, o: Outcome, s2: State, sid: Sid, sess1: Session, i: nat, n: nat, size: nat)
    requires i < |sess1.manifest| && i in sess1.slots
    requires o3 == Outcome(With(s2, sid, sess1.(phase := Opening(i, n))), o.replies)
    ensures Serving(o3.state, sid) && Work(h, o3, sid, size) == Then(o, OpenPart(s2, sid, sess1, i, n))
  {
    hide Work, OpenPart;
    var a := sess1.(phase := Opening(i, n));
    WorkOn(h, o3, sid, size);
    OpenShift(s2, sid, a, sess1, Opening(i, n), i, n);
    OpenKeeps(s2, sid, sess1, i, n);
    WorkDone(h, Then(o, OpenPart(s2, sid, sess1, i, n)), sid, size);
  }

  // ----- frames inside a file ------------------------------------------------------------------

  /** Session sid receives file i into dest, between two frames. */
  predicate BodyAs(s: State, sid: Sid, sess: Session, i: nat) {
    && sid in s.sessions && s.sessions[sid] == sess && i < |sess.manifest| && i in sess.slots
    && sess.phase.Body? && sess.phase.index == i && sess.phase.left == 0
  }

  /** Frames that leave no payload to read and nothing to do. */
  lemma BodyHandled(h: Hash, o: Outcome, sid: Sid, sess: Session, i: nat, m: Message)
    requires BodyAs(o.state, sid, sess, i) && Reads(o.state, sid)
    requires Reads(BodyFrame(h, o.state, sid, sess, m.frame).state, sid)
    ensures Handle(h, o, sid, m) == Then(o, BodyFrame(h, o.state, sid, sess, m.frame))
  {
    hide BodyFrame;
    RecvIsLive(h, o.state, sid, m);
    WorkDone(h, Then(o, BodyFrame(h, o.state, sid, sess, m.frame)), sid, m.dirSize);
  }

  /** The state after n bytes of a chunk of length n arrived whole. */
  function Grown(s: State, sid: Sid, sess: Session, i: nat, bytes: Bytes): State
    requires BodyAs(s, sid, sess, i)
  {
    var tmp := Tmp(sess.slots[i]);
    var was := if tmp in s.files then s.files[tmp] else [];
    With(s.(files := s.files[tmp := was + bytes]), sid,
         sess.(phase := Body(i, sess.phase.got + |bytes|, 0, 0, sess.phase.hashed + bytes)))
  }

  lemma ChunkHandled(h: Hash, o: Outcome, sid: Sid, sess: Session, i: nat, m: Message)
    requires BodyAs(o.state, sid, sess, i) && Reads(o.state, sid)
    requires m.frame.Chunk? && 0 < m.frame.length <= |m.payload| && sess.phase.got + m.frame.length <= sess.manifest[i].size
    ensures Handle(h, o, sid, m) == Outcome(Grown(o.state, sid, sess, i, m.payload[..m.frame.length]), o.replies)
  {
    var n := m.frame.length;
    var bytes := m.payload[..n];
    RecvIsLive(h, o.state, sid, m);
    var a := sess.(phase := sess.phase.(length := n, left := n));
    assert BodyFrame(h, o.state, sid, sess, m.frame) == Outcome(With(o.state, sid, a), []);
    assert o.replies + [] == o.replies;
    var tmp := Tmp(sess.slots[i]);
    var was := if tmp in o.state.files then o.state.files[tmp] else [];
    WithTwice(o.state.(files := o.state.files[tmp := was + bytes]), sid, a,
              sess.(phase := Body(i, sess.phase.got + n, 0, 0, sess.phase.hashed + bytes)));
  }

  /** The session ends without success, leaving these files. */
  function Stopped(s: State, sid: Sid, sess: Session, files: Files): State {
    With(s.(files := files), sid, sess.(phase := Ended(false)))
  }

  /** The session ends without success, and the temporaries of the slot are gone. */
  function Discarded(s: State, sid: Sid, sess: Session, dest: Path): State {
    With(Removed(s, dest), sid, sess.(phase := Ended(false)))
  }

  /** A chunk cut short: what arrived is kept on disk, and the session ends. */
  lemma ShortChunkHandled(h: Hash, o: Outcome, sid: Sid, sess: Session, i: nat, m: Message)
    requires BodyAs(o.state, sid, sess, i) && Reads(o.state, sid)
    requires m.frame.Chunk? && m.frame.length > |m.payload| && sess.phase.got + m.frame.length <= sess.manifest[i].size
    ensures var tmp := Tmp(sess.slots[i]);
            var was := if tmp in o.state.files then o.state.files[tmp] else [];
            var files := if m.payload == [] then o.state.files else o.state.files[tmp := was + m.payload];
            Handle(h, o, sid, m) == Outcome(Stopped(o.state, sid, sess, files), o.replies + [Ack(i, false)])
  {
    var n := m.frame.length;
    RecvIsLive(h, o.state, sid, m);
    var a := sess.(phase := sess.phase.(length := n, left := n));
    assert BodyFrame(h, o.state, sid, sess, m.frame) == Outcome(With(o.state, sid, a), []);
    assert o.replies + [] == o.replies;
    var end := sess.(phase := Ended(false));
    WithTwice(o.state, sid, a, end);
    if m.payload != [] {
      var tmp := Tmp(sess.slots[i]);
      var was := if tmp in o.state.files then o.state.files[tmp] else [];
      var s1 := o.state.(files := o.state.files[tmp := was + m.payload]);
      var b := a.(phase := a.phase.(left := n - |m.payload|, hashed := a.phase.hashed + m.payload));
      assert m.payload[..|m.payload|] == m.payload;
      WithTwice(s1, sid, a, b);
      WithTwice(s1, sid, b, end);
    }
  }

  /** os.Remove of the sidecar. */
  function Cleaned(s: State, dest: Path): State {
    s.(files := s.files - {Sidecar(dest)}, dirs := Swept(s.files, s.dirs, {Sidecar(dest)}))
  }

  /** A good file_end: renamed into place, its sidecar removed. */
  lemma EndHandled(h: Hash, o: Outcome, sid: Sid, sess: Session, i: nat, m: Message)
    requires BodyAs(o.state, sid, sess, i) && Reads(o.state, sid)
    requires m.frame.FileEnd? && sess.phase.got == sess.manifest[i].size && EqualFold(h(sess.phase.hashed), sess.manifest[i].sha)
    ensures var dest := sess.slots[i];
            var r := RenamePart(o.state, sid, sess, i);
            Handle(h, o, sid, m)
            == if r.replies != [] then Then(o, r)
               else Then(o, Outcome(With(Cleaned(r.state, dest), sid, sess.(phase := Idle, completed := sess.completed + {i})),
                                    [Ack(i, true)]))
  {
    hide EqualFold, Work, Swept, Cleaned;
    RecvIsLive(h, o.state, sid, m);
    var a := sess.(phase := Renaming(i));
    assert BodyFrame(h, o.state, sid, sess, m.frame) == Outcome(With(o.state, sid, a), []);
    assert o.replies + [] == o.replies;
    var o1 := Outcome(With(o.state, sid, a), o.replies);
    WorkOn(h, o1, sid, m.dirSize);
    RenameShift(o.state, sid, a, sess, Renaming(i), i);
    RenameKeeps(o.state, sid, sess, i);
    var r := RenamePart(o.state, sid, sess, i);
    if r.replies != [] {
      WorkDone(h, Then(o, r), sid, m.dirSize);
    } else {
      CleanHandled(h, o, r.state, sid, sess, i, m.dirSize);
    }
  }

  lemma RenameShift(s: State, sid: Sid, a: Session, sess: Session, p: Phase, i: nat)
    requires i in sess.slots && i < |sess.manifest|
    ensures RenamePart(With(s, sid, a), sid, sess.(phase := p), i) == RenamePart(s, sid, sess, i)
    ensures var r := RenamePart(s, sid, sess, i);
            r.replies == [] ==> r.state.sessions == s.sessions[sid := sess.(phase := Cleaning(i))]
  {
    hide Swept;
    var dest, tmp := sess.slots[i], Tmp(sess.slots[i]);
    WithTwice(Removed(s, dest), sid, a, sess.(phase := Ended(false)));
    if tmp in s.files && dest !in s.dirs {
      WithTwice(s.(files := (s.files - {tmp})[dest := s.files[tmp]], delivered := s.delivered[dest := sess.manifest[i]]),
                sid, a, sess.(phase := Cleaning(i)));
    }
  }

  lemma CleanHandled(h: Hash, o: Outcome, s1: State, sid: Sid, sess: Session, i: nat, size: nat)
    requires i in sess.slots && i < |sess.manifest| && sid in s1.sessions && s1.sessions[sid] == sess.(phase := Cleaning(i))
    ensures var o1 := Outcome(s1, o.replies);
            Serving(s1, sid) && Work(h, o1, sid, size)
            == Then(o, Outcome(With(Cleaned(s1, sess.slots[i]), sid, sess.(phase := Idle, completed := sess.completed + {i})),
                               [Ack(i, true)]))
  {
    hide Work, Swept;
    var o1 := Outcome(s1, o.replies);
    WorkOn(h, o1, sid, size);
    WorkDone(h, Then(o1, AdvanceStep(s1, sid, s1.sessions[sid])), sid, size);
  }

  // ----- the same, for a connection from its k-th message on -------------------------------------

  /** A frame that does not belong into a file, or does not fit it. */
  predicate BadFrame(h: Hash, sess: Session, i: nat, frame: Frame)
    requires sess.phase.Body? && i < |sess.manifest|
  {
    var meta := sess.manifest[i];
    match frame
    case Chunk(n) => n < 0 || sess.phase.got + n > meta.size
    case Progress => false
    case FileEnd(_, _) => sess.phase.got != meta.size || !EqualFold(h(sess.phase.hashed), meta.sha)
    case _ => true
  }

  lemma RemovedKeepsSessions(s: State, d: Path)
    ensures Removed(s, d).sessions == s.sessions
  {
  }

  lemma DriveBad(h: Hash, o: Outcome, sid: Sid, sess: Session, i: nat, input: seq<Message>, k: nat)
    requires BodyAs(o.state, sid, sess, i) && Reads(o.state, sid) && k < |input| && BadFrame(h, sess, i, input[k].frame)
    ensures Drive(h, o, sid, input[k..])
            == Outcome(Discarded(o.state, sid, sess, sess.slots[i]), o.replies + [Ack(i, false)])
  {
    hide EqualFold, Removed, Handle;
    RemovedKeepsSessions(o.state, sess.slots[i]);
    var end := Discarded(o.state, sid, sess, sess.slots[i]);
    assert BodyFrame(h, o.state, sid, sess, input[k].frame) == Outcome(end, [Ack(i, false)]);
    DriveNext(h, o, sid, input, k);
    BodyHandled(h, o, sid, sess, i, input[k]);
    DriveEnded(h, Outcome(end, o.replies + [Ack(i, false)]), sid, input[k + 1..]);
  }

  lemma DriveShort(h: Hash, o: Outcome, sid: Sid, sess: Session, i: nat, input: seq<Message>, k: nat)
    requires BodyAs(o.state, sid, sess, i) && Reads(o.state, sid) && k < |input| && input[k].frame.Chunk?
    requires input[k].frame.length > |input[k].payload| && sess.phase.got + input[k].frame.length <= sess.manifest[i].size
    ensures var tmp, p := Tmp(sess.slots[i]), input[k].payload;
            var was := if tmp in o.state.files then o.state.files[tmp] else [];
            var files := if p == [] then o.state.files else o.state.files[tmp := was + p];
            Drive(h, o, sid, input[k..]) == Outcome(Stopped(o.state, sid, sess, files), o.replies + [Ack(i, false)])
  {
    hide Handle;
    DriveNext(h, o, sid, input, k);
    ShortChunkHandled(h, o, sid, sess, i, input[k]);
    DriveEnded(h, Handle(h, o, sid, input[k]), sid, input[k + 1..]);
  }

  lemma DriveChunk(h: Hash, o: Outcome, sid: Sid, sess: Session, i: nat, input: seq<Message>, k: nat)
    requires BodyAs(o.state, sid, sess, i) && Reads(o.state, sid) && k < |input| && input[k].frame.Chunk?
    requires 0 < input[k].frame.length <= |input[k].payload| && sess.phase.got + input[k].frame.length <= sess.manifest[i].size
    ensures var s1 := Grown(o.state, sid, sess, i, input[k].payload[..input[k].frame.length]);
            Reads(s1, sid) && Drive(h, o, sid, input[k..]) == Drive(h, Outcome(s1, o.replies), sid, input[k + 1..])
  {
    hide Handle;
    DriveNext(h, o, sid, input, k);
    ChunkHandled(h, o, sid, sess, i, input[k]);
  }

  /** Progress frames and empty chunks change nothing. */
  lemma DriveSkip(h: Hash, o: Outcome, sid: Sid, sess: Session, i: nat, input: seq<Message>, k: nat)
    requires BodyAs(o.state, sid, sess, i) && Reads(o.state, sid) && k < |input| && sess.phase.length == 0
    requires input[k].frame == Progress || (input[k].frame == Chunk(0) && sess.phase.got <= sess.manifest[i].size)
    ensures Drive(h, o, sid, input[k..]) == Drive(h, o, sid, input[k + 1..])
  {
    hide Handle;
    DriveNext(h, o, sid, input, k);
    assert o.state.sessions[sid := sess] == o.state.sessions;
    assert BodyFrame(h, o.state, sid, sess, input[k].frame) == Outcome(o.state, []);
    BodyHandled(h, o, sid, sess, i, input[k]);
    assert o.replies + [] == o.replies;
  }

  /** The state after a good file_end. */
  function Finished(s: State, sid: Sid, sess: Session, i: nat): State
    requires i in sess.slots && i < |sess.manifest| && Tmp(sess.slots[i]) in s.files
  {
    var dest, tmp := sess.slots[i], Tmp(sess.slots[i]);
    With(Cleaned(s.(files := (s.files - {tmp})[dest := s.files[tmp]], delivered := s.delivered[dest := sess.manifest[i]]), dest),
         sid, sess.(phase := Idle, completed := sess.completed + {i}))
  }

  lemma DriveEnd(h: Hash, o: Outcome, sid: Sid, sess: Session, i: nat, input: seq<Message>, k: nat)
    requires BodyAs(o.state, sid, sess, i) && Reads(o.state, sid) && k < |input| && input[k].frame.FileEnd?
    requires !BadFrame(h, sess, i, input[k].frame)
    ensures var dest := sess.slots[i];
            var s := o.state;
            if Tmp(dest) !in s.files || dest in s.dirs
            then Drive(h, o, sid, input[k..])
                 == Outcome(Discarded(s, sid, sess, dest), o.replies + [Ack(i, false)])
            else Reads(Finished(s, sid, sess, i), sid)
                 && Drive(h, o, sid, input[k..])
                    == Drive(h, Outcome(Finished(s, sid, sess, i), o.replies + [Ack(i, true)]), sid, input[k + 1..])
  {
    hide Handle, EqualFold, Swept;
    DriveNext(h, o, sid, input, k);
    EndHandled(h, o, sid, sess, i, input[k]);
    var dest, s := sess.slots[i], o.state;
    if Tmp(dest) !in s.files || dest in s.dirs {
      var end := Discarded(s, sid, sess, dest);
      assert RenamePart(s, sid, sess, i) == Outcome(end, [Ack(i, false)]);
      DriveEnded(h, Outcome(end, o.replies + [Ack(i, false)]), sid, input[k + 1..]);
    } else {
      var r := RenamePart(s, sid, sess, i);
      WithTwice(Cleaned(r.state, dest).(sessions := s.sessions), sid,
                sess.(phase := Cleaning(i)), sess.(phase := Idle, completed := sess.completed + {i}));
    }
  }

  lemma DriveGone(h: Hash, o: Outcome, sid: Sid, sess: Session, i: nat, input: seq<Message>)
    requires BodyAs(o.state, sid, sess, i) && Reads(o.state, sid)
    ensures Drive(h, o, sid, input[|input|..])
            == Outcome(Stopped(o.state, sid, sess, o.state.files), o.replies + [Ack(i, false)])
  {
    DriveOver(h, o, sid, input);
  }

  /** The end of a directory entry, when a frame arrives for it. */
  lemma DirHandled(h: Hash, o: Outcome, sid: Sid, sess: Session, i: nat, m: Message)
    requires sid in o.state.sessions && o.state.sessions[sid] == sess && sess.phase == DirEntry(i) && i < |sess.manifest|
    ensures Reads(o.state, sid) && Handle(h, o, sid, m) == Then(o, DirFrame(o.state, sid, sess, i, m.frame))
  {
    hide DirFrame;
    RecvIsLive(h, o.state, sid, m);
    DirIsLive(o.state, sid, sess, i, m.frame);
    DirNotBody(o.state, sid, sess, i, m.frame);
    WorkDone(h, Then(o, DirFrame(o.state, sid, sess, i, m.frame)), sid, m.dirSize);
  }

  lemma DirNotBody(s: State, sid: Sid, sess: Session, i: nat, frame: Frame)
    requires i < |sess.manifest|
    ensures var s1 := DirFrame(s, sid, sess, i, frame).state;
            sid in s1.sessions && !s1.sessions[sid].phase.Body?
  {
    hide CreateDirectory;
  }

  // ----- a driven session is a run ---------------------------------------------------------------

  /** Steps of session sid, after its start and before its releases. */
  predicate AllOf(events: seq<Event>, sid: Sid) {
    forall e | e in events :: e.sid == sid && !e.Release? && !e.Start?
  }

  lemma WorkIsRun(h: Hash, o: Outcome, sid: Sid, size: nat) returns (events: seq<Event>)
    requires Serving(o.state, sid)
    ensures Run(h, o.state, events) == Work(h, o, sid, size).state && AllOf(events, sid)
    decreases Rank(o.state.sessions[sid].phase)
  {
    hide Step;
    if Rank(o.state.sessions[sid].phase) == 0 {
      events := [];
    } else {
      NextLowersRank(h, o.state, sid, size);
      var e := Next(o.state, sid, size);
      var rest := WorkIsRun(h, Then(o, Step(h, o.state, e)), sid, size);
      events := [e] + rest;
      A.RunConcat(h, o.state, [e], rest);
      A.RunOne(h, o.state, e);
    }
  }

  lemma PayloadIsRun(h: Hash, o: Outcome, sid: Sid, payload: Bytes) returns (events: seq<Event>)
    requires Ready(o.state, sid) && o.state.sessions[sid].phase.Body? && o.state.sessions[sid].phase.left > 0
    ensures Run(h, o.state, events) == TakePayload(h, o, sid, payload).state && AllOf(events, sid)
  {
    hide Step;
    var left := o.state.sessions[sid].phase.left;
    var data, drop := Data(sid, payload[..Min(left, |payload|)]), Drop(sid);
    var first := if payload == [] then [] else [data];
    var second := if |payload| < left then [drop] else [];
    events := first + second;
    A.RunConcat(h, o.state, first, second);
    A.RunOne(h, o.state, data);
    var s1 := Run(h, o.state, first);
    A.RunOne(h, s1, drop);
  }

  lemma HandleIsRun(h: Hash, o: Outcome, sid: Sid, m: Message) returns (events: seq<Event>)
    requires Reads(o.state, sid)
    ensures Run(h, o.state, events) == Handle(h, o, sid, m).state && AllOf(events, sid)
  {
    hide Step, Work, TakePayload;
    RecvIsLive(h, o.state, sid, m);
    var o1 := Then(o, Step(h, o.state, Recv(sid, m.frame)));
    var rest;
    if o1.state.sessions[sid].phase.Body? && o1.state.sessions[sid].phase.left > 0 {
      rest := PayloadIsRun(h, o1, sid, m.payload);
    } else {
      rest := WorkIsRun(h, o1, sid, m.dirSize);
    }
    events := [Recv(sid, m.frame)] + rest;
    A.RunConcat(h, o.state, [Recv(sid, m.frame)], rest);
    A.RunOne(h, o.state, Recv(sid, m.frame));
  }

  /** What serving a connection does is a run of the step machine, by steps of that session only. */
  lemma DriveIsRun(h: Hash, o: Outcome, sid: Sid, input: seq<Message>) returns (events: seq<Event>)
    requires Reads(o.state, sid)
    ensures Run(h, o.state, events) == Drive(h, o, sid, input).state && AllOf(events, sid)
    decreases |input|
  {
    hide Step, Handle;
    if o.state.sessions[sid].phase.Ended? {
      events := [];
    } else if input == [] {
      events := [Drop(sid)];
      A.RunOne(h, o.state, Drop(sid));
    } else {
      var first := HandleIsRun(h, o, sid, input[0]);
      var o1 := Handle(h, o, sid, input[0]);
      var rest := DriveIsRun(h, o1, sid, input[1..]);
      events := first + rest;
      A.RunConcat(h, o.state, first, rest);
    }
  }

  /** A connection is served to its end. */
  lemma {:induction false} DriveEnds(h: Hash, o: Outcome, sid: Sid, input: seq<Message>)
    requires Reads(o.state, sid)
    ensures var s := Drive(h, o, sid, input).state;
            Ready(s, sid) && s.sessions[sid].phase.Ended?
    decreases |input|
  {
    hide Handle;
    if !o.state.sessions[sid].phase.Ended? && input != [] {
      DriveEnds(h, Handle(h, o, sid, input[0]), sid, input[1..]);
    }
  }

  /** Letting go of the slots one by one. */
  lemma ReleaseIsRun(h: Hash, s: State, sid: Sid, todo: set<nat>) returns (events: seq<Event>)
    requires sid in s.sessions && s.sessions[sid].phase.Ended?
    requires todo <= s.sessions[sid].slots.Keys && todo !! s.sessions[sid].released
    ensures forall e | e in events :: e.sid == sid && e.Release?
    ensures var sess := s.sessions[sid];
            Run(h, s, events)
            == With(s.(claims := s.claims - (set i | i in todo :: Tmp(sess.slots[i]))), sid,
                    sess.(released := sess.released + todo))
    decreases |todo|
  {
    hide Tmp;
    var sess := s.sessions[sid];
    if todo == {} {
      events := [];
      assert sess.released + todo == sess.released;
      assert sess.(released := sess.released + todo) == sess;
      assert s.sessions[sid := sess] == s.sessions;
    } else {
      var i :| i in todo;
      assert i !in sess.released;
      var s1 := Step(h, s, Release(sid, i)).state;
      var sess1 := sess.(released := sess.released + {i});
      assert s1 == With(s.(claims := s.claims - {Tmp(sess.slots[i])}), sid, sess1);
      var rest := ReleaseIsRun(h, s1, sid, todo - {i});
      events := [Release(sid, i)] + rest;
      A.RunConcat(h, s, [Release(sid, i)], rest);
      A.RunOne(h, s, Release(sid, i));
      ReleaseOne(s, sid, i, todo);
    }
  }

  lemma ReleaseOne(s: State, sid: Sid, i: nat, todo: set<nat>)
    requires sid in s.sessions && todo <= s.sessions[sid].slots.Keys && i in todo
    ensures var sess := s.sessions[sid];
            var sess1 := sess.(released := sess.released + {i});
            var s1 := With(s.(claims := s.claims - {Tmp(sess.slots[i])}), sid, sess1);
            With(s1.(claims := s1.claims - (set j | j in todo - {i} :: Tmp(sess.slots[j]))), sid,
                 sess1.(released := sess1.released + (todo - {i})))
            == With(s.(claims := s.claims - (set j | j in todo :: Tmp(sess.slots[j]))), sid,
                    sess.(released := sess.released + todo))
  {
    hide Tmp;
    var sess := s.sessions[sid];
    var sess1 := sess.(released := sess.released + {i});
    assert {Tmp(sess.slots[i])} + (set j | j in todo - {i} :: Tmp(sess.slots[j])) == (set j | j in todo :: Tmp(sess.slots[j]));
    assert sess.released + {i} + (todo - {i}) == sess.released + todo;
    assert s.claims - {Tmp(sess.slots[i])} - (set j | j in todo - {i} :: Tmp(sess.slots[j]))
        == s.claims - (set j | j in todo :: Tmp(sess.slots[j]));
    WithTwice(s.(claims := s.claims - (set j | j in todo :: Tmp(sess.slots[j]))), sid, sess1, sess.(released := sess.released + todo));
  }
}
