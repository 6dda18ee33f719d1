/**
 * Sender and receiver together. One sender drives its session of the receiver over a connection
 * that delivers in order and may be cut anywhere, while any other sessions of the receiver do
 * anything in between. The sender waits for the offer before it streams a file and for the
 * acknowledgement before it goes on to the next.
 */
module Transfer {
  import opened Basics
  import opened Names
  import opened Receiver
  import opened ReceiverSafety
  import opened ReceiverRuns
  import opened Attempts

  /** What one call of SendFiles works from. */
  datatype Plan = Plan(sid: Sid, manifest: seq<FileMeta>, sources: seq<Bytes>)

  /** Where SendFiles is in its loop. */
  datatype Pc =
    | AtQuery(index: nat)
    | AwaitOffer(index: nat)
    | AwaitAck(index: nat)
    | AwaitFinal
    | Done
    | Failed

  datatype Joint = Joint(recv: State, pc: Pc, toR: seq<Item>, toS: seq<Reply>)

  datatype JointEvent =
    | Send(items: seq<Item>)         // the sender takes its next step, streaming these items after a file_header
    | Deliver(bytes: nat)            // the receiver reads the next frame, or this many bytes of the next payload
    | Work                           // the receiver goes on without reading
    | WorkDir(size: nat)             // the same, where it probes and finds a directory of this size in place of the partial
    | Cut(answered: bool)            // the receiver sees the connection fail; its last reply may still get through
    | Fail                           // the sender gives up
    | Foreign(e: Event)              // another session of the receiver steps
    | Free(index: nat)               // the receiver releases a slot

  /** The manifest describes the sources, which do not change. */
  predicate WellPlanned(h: Hash, c: Plan) {
    && |c.sources| == |c.manifest| && CleanManifest(c.manifest)
    && forall k | 0 <= k < |c.manifest| ::
         var meta := c.manifest[k];
         if meta.isDir then meta.size == 0 && meta.sha == []
         else meta.size == |c.sources[k]| && meta.sha == h(c.sources[k])
  }

  /** The offset the sender seeks to. */
  function SeekOffset(offered: int, size: int): nat {
    if 0 < offered < size then offered else 0
  }

  /** An offer of all the bytes or more, or of none or fewer, starts the file over; any other is taken up. */
  lemma OffersTakenUp(offered: int, size: int)
    ensures offered <= 0 || offered >= size ==> SeekOffset(offered, size) == 0
    ensures 1 <= offered <= size - 1 ==> SeekOffset(offered, size) == offered
  {
  }

  /** What the sender writes for entry i once it has the offer. */
  predicate EntryScript(c: Plan, i: nat, offered: int, items: seq<Item>)
    requires i < |c.manifest| == |c.sources|
  {
    if c.manifest[i].isDir then items == [Hdr(FileEnd(i, 0))]
    else FileTail(items, i, c.sources[i], SeekOffset(offered, c.manifest[i].size))
  }

  function SendStep(c: Plan, j: Joint, items: seq<Item>): Joint
    requires |c.manifest| == |c.sources|
  {
    match j.pc
    case AtQuery(i) =>
      if i < |c.manifest| then j.(pc := AwaitOffer(i), toR := j.toR + [Hdr(ResumeQuery(i))])
      else j.(pc := AwaitFinal, toR := j.toR + [Hdr(SessionEnd)])
    case AwaitOffer(i) =>
      if j.toS == [] || i >= |c.manifest| then j
      else if !j.toS[0].Offer? then j.(pc := Failed, toS := j.toS[1..])
      else if !EntryScript(c, i, j.toS[0].bytes, items) then j
      else j.(pc := AwaitAck(i), toR := j.toR + [Hdr(FileHeader(i))] + items, toS := j.toS[1..])
    case AwaitAck(i) =>
      if j.toS == [] then j
      else j.(pc := if j.toS[0].Ack? && j.toS[0].ok then AtQuery(i + 1) else Failed, toS := j.toS[1..])
    case AwaitFinal =>
      if j.toS == [] then j
      else j.(pc := if j.toS[0].Ack? && j.toS[0].ok then Done else Failed, toS := j.toS[1..])
    case _ => j
  }

  /** The receiver is at a point where it reads a frame. */
  predicate Reading(phase: Phase) {
    phase.Idle? || phase.DirEntry? || (phase.Body? && phase.left == 0)
  }

  function DeliverStep(h: Hash, c: Plan, j: Joint, n: nat): Joint {
    if c.sid !in j.recv.sessions || j.toR == [] then j
    else
      var phase := j.recv.sessions[c.sid].phase;
      match j.toR[0]
      case Hdr(frame) =>
        if !Reading(phase) then j
        else
          var o := Step(h, j.recv, Recv(c.sid, frame));
          j.(recv := o.state, toR := j.toR[1..], toS := j.toS + o.replies)
      case Payload(b) =>
        if !phase.Body? || phase.left == 0 || n == 0 || n > |b| || n > phase.left then j
        else
          var o := Step(h, j.recv, Data(c.sid, b[..n]));
          j.(recv := o.state,
             toR := if n == |b| then j.toR[1..] else [Payload(b[n..])] + j.toR[1..],
             toS := j.toS + o.replies)
  }

  function JointStep(h: Hash, c: Plan, j: Joint, e: JointEvent): Joint
    requires |c.manifest| == |c.sources|
  {
    match e
    case Send(items) => SendStep(c, j, items)
    case Deliver(n) => DeliverStep(h, c, j, n)
    case Work =>
      var o := Step(h, j.recv, Advance(c.sid));
      j.(recv := o.state, toS := j.toS + o.replies)
    case WorkDir(size) =>
      var o := Step(h, j.recv, ProbeDir(c.sid, size));
      j.(recv := o.state, toS := j.toS + o.replies)
    case Cut(answered) =>
      var o := Step(h, j.recv, Drop(c.sid));
      j.(recv := o.state, toS := j.toS + if answered then o.replies else [])
    case Fail => j.(pc := Failed)
    case Foreign(x) => if x.sid == c.sid then j else j.(recv := Step(h, j.recv, x).state)
    case Free(k) => j.(recv := Step(h, j.recv, Release(c.sid, k)).state)
  }

  function JointRun(h: Hash, c: Plan, j: Joint, events: seq<JointEvent>): Joint
    requires |c.manifest| == |c.sources|
  {
    if events == [] then j
    else JointStep(h, c, JointRun(h, c, j, events[..|events| - 1]), events[|events| - 1])
  }

  /** session_start has been sent to a receiver in any state. */
  function Begin(h: Hash, c: Plan, s: State): Joint {
    Joint(Step(h, s, Start(c.sid, c.manifest, true)).state, AtQuery(0), [], [])
  }

  // ----- the two sides in step ---------------------------------------------------------

  predicate DoneUpTo(sess: Session, i: nat) {
    && (forall k | k in sess.completed :: k < i)
    && |sess.completed| == i
  }

  predicate NoOk(toS: seq<Reply>) {
    forall k | 0 <= k < |toS| :: toS[k].Offer? || !toS[k].ok
  }

  /** The offer is what the receiver recorded; without a record it is zero. */
  predicate TrueOffer(sess: Session, i: nat, n: int) {
    if i in sess.offers then n == sess.offers[i] else n == 0
  }

  /** The query for entry i, or its offer, is under way. */
  predicate OfferPending(sess: Session, i: nat, toR: seq<Item>, toS: seq<Reply>) {
    || (sess.phase.Idle? && toR == [Hdr(ResumeQuery(i))] && toS == [] && i !in sess.offers)
    || (sess.phase in {QueryReserve(i), QueryProbe(i)} && toR == [] && toS == [] && i !in sess.offers)
    || (sess.phase.Idle? && toR == [] && |toS| == 1 && toS[0].Offer? && TrueOffer(sess, i, toS[0].bytes))
  }

  /**
   * What is left of the file, when the receiver's next byte is at position pos. Where the query was refused
   * and the file_header was not, the two sides need not be at the same position.
   */
  predicate TailFrom(c: Plan, sess: Session, i: nat, toR: seq<Item>, pos: nat)
    requires i < |c.sources|
  {
    if i in sess.offers then FileTail(toR, i, c.sources[i], pos)
    else exists p: nat {:trigger FileTail(toR, i, c.sources[i], p)} | p <= |c.sources[i]| :: FileTail(toR, i, c.sources[i], p)
  }

  /** The frames of entry i are on their way and the receiver is at the matching point. */
  predicate EntryPending(c: Plan, sess: Session, i: nat, toR: seq<Item>)
    requires i < |c.manifest| == |c.sources|
  {
    var agreed := if i in sess.offers then SeekOffset(sess.offers[i], c.manifest[i].size) else 0;
    match sess.phase
    case Idle =>
      && toR != [] && toR[0] == Hdr(FileHeader(i))
      && if c.manifest[i].isDir then toR[1..] == [Hdr(FileEnd(i, 0))] else FileTail(toR[1..], i, c.sources[i], agreed)
    case DirEntry(k) => k == i && c.manifest[i].isDir && toR == [Hdr(FileEnd(i, 0))]
    case Reserving(k) => k == i && !c.manifest[i].isDir && FileTail(toR, i, c.sources[i], agreed)
    case Probing(k) => k == i && !c.manifest[i].isDir && FileTail(toR, i, c.sources[i], agreed)
    case Opening(k, _) => k == i && !c.manifest[i].isDir && FileTail(toR, i, c.sources[i], agreed)
    case Body(k, got, length, left, hashed) =>
      && k == i && !c.manifest[i].isDir
      && if left == 0 then TailFrom(c, sess, i, toR, got)
         else
           && toR != [] && toR[0].Payload? && |toR[0].bytes| == left
           && TailFrom(c, sess, i, toR[1..], got + length)
           && (i in sess.offers ==>
                 && left <= length && |hashed| == got + (length - left) && got + length <= |c.sources[i]|
                 && toR[0].bytes == c.sources[i][|hashed|..|hashed| + left])
    case Renaming(k) => k == i && !c.manifest[i].isDir && toR == []
    case Cleaning(k) => k == i && !c.manifest[i].isDir && toR == []
    case _ => false
  }

  predicate Sync(c: Plan, sess: Session, pc: Pc, toR: seq<Item>, toS: seq<Reply>)
    requires |c.manifest| == |c.sources|
  {
    && sess.manifest == c.manifest && sess.resume
    && match pc
       case AtQuery(i) =>
         && i <= |c.manifest| && DoneUpTo(sess, i) && toS == [] && (forall k | k in sess.offers :: k < i)
         && (sess.phase == Ended(false) || (sess.phase.Idle? && toR == []))
       case AwaitOffer(i) =>
         && i < |c.manifest| && DoneUpTo(sess, i) && (forall k | k in sess.offers :: k <= i)
         && ((sess.phase == Ended(false) && NoOk(toS)) || OfferPending(sess, i, toR, toS))
       case AwaitAck(i) =>
         && i < |c.manifest| && (forall k | k in sess.offers :: k <= i)
         && (|| (sess.phase == Ended(false) && DoneUpTo(sess, i) && NoOk(toS))
             || ((sess.phase == Ended(false) || (sess.phase.Idle? && toR == [])) && DoneUpTo(sess, i + 1) && toS == [Ack(i, true)])
             || (DoneUpTo(sess, i) && toS == [] && EntryPending(c, sess, i, toR)))
       case AwaitFinal =>
         && DoneUpTo(sess, |c.manifest|)
         && (|| (sess.phase.Idle? && toR == [Hdr(SessionEnd)] && toS == [])
             || sess.phase == Ended(true)
             || (sess.phase == Ended(false) && NoOk(toS)))
       case Done => DoneUpTo(sess, |c.manifest|) && sess.phase == Ended(true)
       case Failed => true
  }

  ghost predicate JointInv(h: Hash, c: Plan, j: Joint) {
    && WellPlanned(h, c) && Inv(h, j.recv) && c.sid in j.recv.sessions
    && Sync(c, j.recv.sessions[c.sid], j.pc, j.toR, j.toS)
    && OneEach(j.recv.sessions[c.sid])
  }

  /** No two entries share a destination. */
  predicate OneEach(sess: Session) {
    forall k, l | k in sess.slots && l in sess.slots && sess.slots[k] == sess.slots[l] :: k == l
  }

  // ----- the sender's steps ---------------------------------------------------------------

  lemma SendKeepsSync(c: Plan, sess: Session, j: Joint, items: seq<Item>)
    requires |c.manifest| == |c.sources| && Sync(c, sess, j.pc, j.toR, j.toS)
    ensures var j' := SendStep(c, j, items); Sync(c, sess, j'.pc, j'.toR, j'.toS) && j'.recv == j.recv
  {
    hide FileTail;
    match j.pc
    case AwaitOffer(i) =>
      if j.toS != [] && j.toS[0].Offer? && EntryScript(c, i, j.toS[0].bytes, items) && sess.phase.Idle? {
        var toR := [Hdr(FileHeader(i))] + items;
        assert j.toR + [Hdr(FileHeader(i))] + items == toR && toR[1..] == items;
        if !c.manifest[i].isDir {
          TailBound(items, i, c.sources[i], SeekOffset(j.toS[0].bytes, c.manifest[i].size));
        }
        assert EntryPending(c, sess, i, toR);
      }
    case AtQuery(i) => assert sess.phase.Idle? ==> j.toR + [Hdr(ResumeQuery(i))] == [Hdr(ResumeQuery(i))];
    case _ =>
  }

  // ----- the receiver's steps ---------------------------------------------------------------

  lemma DoneUpToNext(sess: Session, sess': Session, i: nat)
    requires DoneUpTo(sess, i) && sess'.completed == sess.completed + {i}
    ensures DoneUpTo(sess', i + 1)
  {
    assert i !in sess.completed;
  }

  /** Replies that are not an acceptance keep a failed session in step. */
  lemma EndedSync(c: Plan, sess: Session, sess': Session, pc: Pc, toR: seq<Item>, toR': seq<Item>, toS: seq<Reply>, more: seq<Reply>)
    requires |c.manifest| == |c.sources| && Sync(c, sess, pc, toR, toS) && !sess.phase.Ended?
    requires sess'.manifest == sess.manifest && sess'.resume == sess.resume && sess'.completed == sess.completed
    requires sess'.offers == sess.offers && sess'.phase == Ended(false) && NoOk(more)
    requires pc.AtQuery? || (pc.AwaitAck? && toS != []) ==> more == []
    ensures Sync(c, sess', pc, toR', toS + more)
  {
    hide FileTail, EntryPending;
    assert toS + [] == toS;
  }

  lemma QueryProbeSync(h: Hash, c: Plan, j: Joint)
    requires JointInv(h, c, j) && Ready(j.recv, c.sid) && j.recv.sessions[c.sid].phase.QueryProbe?
    ensures var o := Step(h, j.recv, Advance(c.sid));
            && c.sid in o.state.sessions
            && Sync(c, o.state.sessions[c.sid], j.pc, j.toR, j.toS + o.replies)
            && o.state.sessions[c.sid].completed <= j.recv.sessions[c.sid].completed + FileIndex(j.recv.sessions[c.sid])
  {
    hide FileTail, Inv, PartialLen, Probe;
    assert j.toS + [] == j.toS;
  }

  lemma ProbeSync(h: Hash, c: Plan, j: Joint)
    requires JointInv(h, c, j) && Ready(j.recv, c.sid) && j.recv.sessions[c.sid].phase.Probing?
    ensures var o := Step(h, j.recv, Advance(c.sid));
            && c.sid in o.state.sessions
            && Sync(c, o.state.sessions[c.sid], j.pc, j.toR, j.toS + o.replies)
            && o.state.sessions[c.sid].completed <= j.recv.sessions[c.sid].completed + FileIndex(j.recv.sessions[c.sid])
  {
    hide FileTail, Inv, PartialLen, Probe;
    assert j.toS + [] == j.toS;
  }

  lemma WorkDirSync(h: Hash, c: Plan, j: Joint, size: nat)
    requires JointInv(h, c, j)
    ensures var o := Step(h, j.recv, ProbeDir(c.sid, size));
            && c.sid in o.state.sessions
            && Sync(c, o.state.sessions[c.sid], j.pc, j.toR, j.toS + o.replies)
  {
    hide FileTail, Inv, SidecarMatches, Removed;
    assert j.toS + [] == j.toS;
    RemovedKeepsSessions(j.recv);
  }

  lemma RemovedKeepsSessions(s: State)
    ensures forall d: Path :: Removed(s, d).sessions == s.sessions
  {
  }

  lemma CleanSync(h: Hash, c: Plan, j: Joint)
    requires JointInv(h, c, j) && Ready(j.recv, c.sid) && j.recv.sessions[c.sid].phase.Cleaning?
    ensures var o := Step(h, j.recv, Advance(c.sid));
            && c.sid in o.state.sessions
            && Sync(c, o.state.sessions[c.sid], j.pc, j.toR, j.toS + o.replies)
            && o.state.sessions[c.sid].completed <= j.recv.sessions[c.sid].completed + FileIndex(j.recv.sessions[c.sid])
  {
    hide FileTail, Inv;
    var sess := j.recv.sessions[c.sid];
    var sess' := sess.(phase := Idle, completed := sess.completed + {sess.phase.index});
    assert j.toS + [] == j.toS;
    assert [] + [Ack(sess.phase.index, true)] == [Ack(sess.phase.index, true)];
    if !j.pc.Failed? { DoneUpToNext(sess, sess', sess.phase.index); }
  }

  lemma WorkKeepsSync(h: Hash, c: Plan, j: Joint)
    requires JointInv(h, c, j)
    ensures var o := Step(h, j.recv, Advance(c.sid));
            && c.sid in o.state.sessions
            && Sync(c, o.state.sessions[c.sid], j.pc, j.toR, j.toS + o.replies)
            && o.state.sessions[c.sid].completed <= j.recv.sessions[c.sid].completed + FileIndex(j.recv.sessions[c.sid])
  {
    hide FileTail, Inv, AdvanceStep, Sync, PhaseOk;
    var s, sess := j.recv, j.recv.sessions[c.sid];
    IsReady(h, s, c.sid);
    match sess.phase
    case QueryReserve(_) => QuerySlotSync(h, c, j);
    case QueryProbe(_) => QueryProbeSync(h, c, j);
    case Reserving(_) => HeaderSlotSync(h, c, j);
    case Probing(_) => ProbeSync(h, c, j);
    case Opening(_, _) => OpenSync(h, c, j);
    case Renaming(_) => RenameSync(h, c, j);
    case Cleaning(_) => CleanSync(h, c, j);
    case _ =>
      NoWork(h, s, c.sid);
      assert j.toS + [] == j.toS;
  }

  lemma IsReady(h: Hash, s: State, sid: Sid)
    requires Inv(h, s) && sid in s.sessions
    ensures Ready(s, sid)
  {
    Facts(h, s, sid);
  }

  lemma NoWork(h: Hash, s: State, sid: Sid)
    requires Ready(s, sid)
    requires var p := s.sessions[sid].phase; p.Idle? || p.DirEntry? || p.Body? || p.Ended?
    ensures Step(h, s, Advance(sid)) == Outcome(s, [])
  {
  }

  function FileIndex(sess: Session): set<nat> {
    if sess.phase.Cleaning? then {sess.phase.index} else {}
  }

  /** Where the part file is opened, it is at the offset the sender seeks to. */
  lemma AgreedOffset(h: Hash, s: State, sess: Session, i: nat, offset: nat)
    requires sess.phase == Opening(i, offset) && OffersOk(s, sess) && PhaseOk(h, s, sess) && Tmp(sess.slots[i]) !in s.dirs
    ensures i in sess.offers ==> offset == sess.offers[i] == SeekOffset(sess.offers[i], sess.manifest[i].size)
  {
    hide SidecarMatches;
  }

  lemma QuerySlotSync(h: Hash, c: Plan, j: Joint)
    requires JointInv(h, c, j) && Ready(j.recv, c.sid) && j.recv.sessions[c.sid].phase.QueryReserve?
    ensures var o := Step(h, j.recv, Advance(c.sid));
            && c.sid in o.state.sessions
            && Sync(c, o.state.sessions[c.sid], j.pc, j.toR, j.toS + o.replies)
            && o.state.sessions[c.sid].completed == j.recv.sessions[c.sid].completed
  {
    hide FileTail, Inv, Reserve;
    assert j.toS + [] == j.toS;
  }

  lemma HeaderSlotSync(h: Hash, c: Plan, j: Joint)
    requires JointInv(h, c, j) && Ready(j.recv, c.sid) && j.recv.sessions[c.sid].phase.Reserving?
    ensures var o := Step(h, j.recv, Advance(c.sid));
            && c.sid in o.state.sessions
            && Sync(c, o.state.sessions[c.sid], j.pc, j.toR, j.toS + o.replies)
            && o.state.sessions[c.sid].completed == j.recv.sessions[c.sid].completed
  {
    hide FileTail, Inv, Reserve;
    var s, sess := j.recv, j.recv.sessions[c.sid];
    var i := sess.phase.index;
    assert j.toS + [] == j.toS;
    if i in sess.slots || Reserve(s, sess.manifest[i]).Granted? {
    } else {
      EndedSync(c, sess, sess.(phase := Ended(false)), j.pc, j.toR, j.toR, j.toS, [Ack(i, false)]);
    }
  }

  /** The part is opened at the offset, or the file is refused. */
  lemma OpenOutcome(s: State, sid: Sid, sess: Session, i: nat, offset: nat)
    requires sess.phase == Opening(i, offset) && i < |sess.manifest| && i in sess.slots
    ensures var o := OpenPart(s, sid, sess, i, offset);
            && sid in o.state.sessions
            && ((o.state.sessions[sid] == sess.(phase := Ended(false)) && o.replies == [Ack(i, false)])
                || (Tmp(sess.slots[i]) !in s.dirs && o.replies == []
                    && exists seed: Bytes :: o.state.sessions[sid] == sess.(phase := Body(i, offset, 0, 0, seed))))
  {
    hide Lower, HasParent;
  }

  lemma OpenSync(h: Hash, c: Plan, j: Joint)
    requires JointInv(h, c, j) && Ready(j.recv, c.sid) && j.recv.sessions[c.sid].phase.Opening?
    ensures var o := Step(h, j.recv, Advance(c.sid));
            && c.sid in o.state.sessions
            && Sync(c, o.state.sessions[c.sid], j.pc, j.toR, j.toS + o.replies)
            && o.state.sessions[c.sid].completed == j.recv.sessions[c.sid].completed
  {
    hide FileTail, Inv, OpenPart;
    var s, sess := j.recv, j.recv.sessions[c.sid];
    var i := sess.phase.index;
    assert j.toS + [] == j.toS;
    Facts(h, s, c.sid);
    OpenOutcome(s, c.sid, sess, i, sess.phase.offset);
    var o := Step(h, s, Advance(c.sid));
    if Tmp(sess.slots[i]) !in s.dirs { AgreedOffset(h, s, sess, i, sess.phase.offset); }
    if o.state.sessions[c.sid].phase.Ended? {
      EndedSync(c, sess, sess.(phase := Ended(false)), j.pc, j.toR, j.toR, j.toS, [Ack(i, false)]);
    }
  }

  lemma RenameSync(h: Hash, c: Plan, j: Joint)
    requires JointInv(h, c, j) && Ready(j.recv, c.sid) && j.recv.sessions[c.sid].phase.Renaming?
    ensures var o := Step(h, j.recv, Advance(c.sid));
            && c.sid in o.state.sessions
            && Sync(c, o.state.sessions[c.sid], j.pc, j.toR, j.toS + o.replies)
            && o.state.sessions[c.sid].completed == j.recv.sessions[c.sid].completed
  {
    hide FileTail, Inv, RemovePart;
    var s, sess := j.recv, j.recv.sessions[c.sid];
    var i := sess.phase.index;
    assert j.toS + [] == j.toS;
    var o := Step(h, s, Advance(c.sid));
    if o.state.sessions[c.sid].phase.Ended? {
      EndedSync(c, sess, sess.(phase := Ended(false)), j.pc, j.toR, j.toR, j.toS, [Ack(i, false)]);
    }
  }

  lemma CutKeepsSync(h: Hash, c: Plan, j: Joint, answered: bool)
    requires JointInv(h, c, j)
    ensures var o := Step(h, j.recv, Drop(c.sid));
            && c.sid in o.state.sessions
            && Sync(c, o.state.sessions[c.sid], j.pc, j.toR, j.toS + if answered then o.replies else [])
            && o.state.sessions[c.sid].completed == j.recv.sessions[c.sid].completed
  {
    hide FileTail, Inv;
    var s, sess := j.recv, j.recv.sessions[c.sid];
    Facts(h, s, c.sid);
    assert j.toS + [] == j.toS;
    var o := Step(h, s, Drop(c.sid));
    if o.state != s {
      EndedSync(c, sess, sess.(phase := Ended(false)), j.pc, j.toR, j.toR, j.toS, if answered then o.replies else []);
    }
  }

  // ----- delivery -----------------------------------------------------------------------------

  lemma QueryDeliverSync(h: Hash, c: Plan, j: Joint, frame: Frame)
    requires JointInv(h, c, j) && Ready(j.recv, c.sid) && j.recv.sessions[c.sid].phase.Idle? && j.pc.AwaitOffer?
    requires j.toR != [] && j.toR[0] == Hdr(frame)
    ensures var o := Step(h, j.recv, Recv(c.sid, frame));
            && c.sid in o.state.sessions
            && Sync(c, o.state.sessions[c.sid], j.pc, j.toR[1..], j.toS + o.replies)
            && o.state.sessions[c.sid].completed == j.recv.sessions[c.sid].completed
  {
    hide FileTail, Inv;
    var i := j.pc.index;
    assert frame == ResumeQuery(i) && j.toR[1..] == [];
    assert j.toS + [] == j.toS && [] + [Offer(i, 0)] == [Offer(i, 0)];
  }

  lemma HeaderDeliverSync(h: Hash, c: Plan, j: Joint, frame: Frame)
    requires JointInv(h, c, j) && Ready(j.recv, c.sid) && j.recv.sessions[c.sid].phase.Idle? && j.pc.AwaitAck?
    requires j.toR != [] && j.toR[0] == Hdr(frame)
    ensures var o := Step(h, j.recv, Recv(c.sid, frame));
            && c.sid in o.state.sessions
            && Sync(c, o.state.sessions[c.sid], j.pc, j.toR[1..], j.toS + o.replies)
            && o.state.sessions[c.sid].completed == j.recv.sessions[c.sid].completed
  {
    hide FileTail, Inv;
    var sess := j.recv.sessions[c.sid];
    var i := j.pc.index;
    assert frame == FileHeader(i);
    assert j.toS + [] == j.toS;
    assert i !in sess.completed;
    var phase := if c.manifest[i].isDir then DirEntry(i) else Reserving(i);
    var sess' := sess.(phase := phase);
    assert Step(h, j.recv, Recv(c.sid, frame)) == Outcome(With(j.recv, c.sid, sess'), []);
    SameTail(c, sess, sess', i, j.toR[1..]);
  }

  lemma FinalDeliverSync(h: Hash, c: Plan, j: Joint, frame: Frame)
    requires JointInv(h, c, j) && Ready(j.recv, c.sid) && j.recv.sessions[c.sid].phase.Idle? && j.pc.AwaitFinal?
    requires j.toR != [] && j.toR[0] == Hdr(frame)
    ensures var o := Step(h, j.recv, Recv(c.sid, frame));
            && c.sid in o.state.sessions
            && Sync(c, o.state.sessions[c.sid], j.pc, j.toR[1..], j.toS + o.replies)
            && o.state.sessions[c.sid].completed == j.recv.sessions[c.sid].completed
  {
    hide FileTail, Inv, EntryPending;
    assert frame == SessionEnd;
  }

  lemma LateDeliverSync(h: Hash, c: Plan, j: Joint, frame: Frame)
    requires JointInv(h, c, j) && Ready(j.recv, c.sid) && j.recv.sessions[c.sid].phase.Idle? && j.pc.Failed?
    requires j.toR != [] && j.toR[0] == Hdr(frame)
    ensures var o := Step(h, j.recv, Recv(c.sid, frame));
            && c.sid in o.state.sessions
            && Sync(c, o.state.sessions[c.sid], j.pc, j.toR[1..], j.toS + o.replies)
            && o.state.sessions[c.sid].completed == j.recv.sessions[c.sid].completed
  {
    hide FileTail, Inv;
    IdleKeeps(h, c, j.recv, frame);
  }

  lemma IdleKeeps(h: Hash, c: Plan, s: State, frame: Frame)
    requires Ready(s, c.sid) && s.sessions[c.sid].phase.Idle?
    ensures var s' := Step(h, s, Recv(c.sid, frame)).state;
            && c.sid in s'.sessions && s'.sessions[c.sid].completed == s.sessions[c.sid].completed
            && s'.sessions[c.sid].manifest == s.sessions[c.sid].manifest && s'.sessions[c.sid].resume == s.sessions[c.sid].resume
  {
  }

  lemma IdleDeliverSync(h: Hash, c: Plan, j: Joint, frame: Frame)
    requires JointInv(h, c, j) && Ready(j.recv, c.sid) && j.recv.sessions[c.sid].phase.Idle?
    requires j.toR != [] && j.toR[0] == Hdr(frame)
    ensures var o := Step(h, j.recv, Recv(c.sid, frame));
            && c.sid in o.state.sessions
            && Sync(c, o.state.sessions[c.sid], j.pc, j.toR[1..], j.toS + o.replies)
            && o.state.sessions[c.sid].completed == j.recv.sessions[c.sid].completed
  {
    hide FileTail, Inv, Step;
    match j.pc
    case AwaitOffer(_) => QueryDeliverSync(h, c, j, frame);
    case AwaitAck(_) => HeaderDeliverSync(h, c, j, frame);
    case AwaitFinal => FinalDeliverSync(h, c, j, frame);
    case Failed => LateDeliverSync(h, c, j, frame);
    case _ =>
  }

  lemma DirDeliverSync(h: Hash, c: Plan, j: Joint, frame: Frame)
    requires JointInv(h, c, j) && Ready(j.recv, c.sid) && j.recv.sessions[c.sid].phase.DirEntry?
    requires j.toR != [] && j.toR[0] == Hdr(frame)
    ensures var o := Step(h, j.recv, Recv(c.sid, frame));
            && c.sid in o.state.sessions
            && Sync(c, o.state.sessions[c.sid], j.pc, j.toR[1..], j.toS + o.replies)
            && o.state.sessions[c.sid].completed <= j.recv.sessions[c.sid].completed + {j.recv.sessions[c.sid].phase.index}
  {
    hide FileTail, Inv, CreateDirectory;
    var s, sess := j.recv, j.recv.sessions[c.sid];
    var i := sess.phase.index;
    var o := Step(h, s, Recv(c.sid, frame));
    var sess' := o.state.sessions[c.sid];
    if sess'.phase.Idle? {
      assert sess' == sess.(phase := Idle, completed := sess.completed + {i});
      assert [] + [Ack(i, true)] == [Ack(i, true)];
      if !j.pc.Failed? { DoneUpToNext(sess, sess', i); }
    } else {
      EndedSync(c, sess, sess', j.pc, j.toR, j.toR[1..], j.toS, [Ack(i, false)]);
    }
  }

  /** The session after an accepted frame of the body. */
  function AfterFrame(sess: Session, frame: Frame): Session
    requires sess.phase.Body?
  {
    match frame
    case Chunk(n) => if n >= 0 then sess.(phase := sess.phase.(length := n, left := n)) else sess
    case FileEnd(_, _) => sess.(phase := Renaming(sess.phase.index))
    case _ => sess
  }

  lemma BodyFrameStep(h: Hash, s: State, sid: Sid, frame: Frame)
    requires Ready(s, sid) && s.sessions[sid].phase.Body? && s.sessions[sid].phase.left == 0
    ensures var o := Step(h, s, Recv(sid, frame));
            var sess := s.sessions[sid];
            && sid in o.state.sessions
            && (|| (o.state.sessions[sid] == sess.(phase := Ended(false)) && o.replies == [Ack(sess.phase.index, false)])
                || (o.state.sessions[sid] == AfterFrame(sess, frame) && o.replies == []))
  {
    hide EqualFold, RemovePart;
  }

  lemma BodyDeliverSync(h: Hash, c: Plan, j: Joint, frame: Frame)
    requires JointInv(h, c, j) && Ready(j.recv, c.sid) && j.recv.sessions[c.sid].phase.Body? && j.recv.sessions[c.sid].phase.left == 0
    requires j.toR != [] && j.toR[0] == Hdr(frame)
    ensures var o := Step(h, j.recv, Recv(c.sid, frame));
            && c.sid in o.state.sessions
            && Sync(c, o.state.sessions[c.sid], j.pc, j.toR[1..], j.toS + o.replies)
            && o.state.sessions[c.sid].completed == j.recv.sessions[c.sid].completed
  {
    hide Inv, Step, FileTail, TailFrom;
    var s, sess := j.recv, j.recv.sessions[c.sid];
    var i := sess.phase.index;
    Facts(h, s, c.sid);
    BodyFrameStep(h, s, c.sid, frame);
    var o := Step(h, s, Recv(c.sid, frame));
    var sess' := o.state.sessions[c.sid];
    assert j.toS + [] == j.toS;
    if sess'.phase.Ended? {
      EndedSync(c, sess, sess', j.pc, j.toR, j.toR[1..], j.toS, [Ack(i, false)]);
    } else if j.pc.AwaitAck? {
      FrameNext(c, sess, i, j.toR);
    }
  }

  /** After the frame in front, what is left still fits the session. */
  lemma FrameNext(c: Plan, sess: Session, i: nat, toR: seq<Item>)
    requires i < |c.manifest| == |c.sources| && sess.phase.Body? && sess.phase.left == 0 && EntryPending(c, sess, i, toR)
    requires sess.phase.length == 0 && |sess.phase.hashed| == sess.phase.got
    ensures toR != [] && toR[0].Hdr? && EntryPending(c, AfterFrame(sess, toR[0].frame), i, toR[1..])
  {
    hide FileTail;
    TailNext(c, sess, i, toR, sess.phase.got);
    var sess' := AfterFrame(sess, toR[0].frame);
    SameTail(c, sess, sess', i, toR[1..]);
    if toR[0].frame.Chunk? {
      assert toR[1..][1..] == toR[2..] && toR[1..][0] == toR[1];
      SameTail(c, sess, sess', i, toR[2..]);
    }
  }

  /** Whether a tail is left does not depend on the session's phase. */
  lemma SameTail(c: Plan, sess: Session, sess': Session, i: nat, toR: seq<Item>)
    requires i < |c.sources| && sess'.offers == sess.offers
    ensures forall pos: nat :: TailFrom(c, sess, i, toR, pos) == TailFrom(c, sess', i, toR, pos)
  {
    hide FileTail;
  }

  /** The next item of the tail is a progress frame, the end, or a chunk with its payload behind it. */
  lemma TailNext(c: Plan, sess: Session, i: nat, toR: seq<Item>, pos: nat)
    requires i < |c.sources| && TailFrom(c, sess, i, toR, pos)
    ensures toR != [] && toR[0].Hdr?
    ensures match toR[0].frame
            case Progress => TailFrom(c, sess, i, toR[1..], pos)
            case FileEnd(_, _) => toR[1..] == []
            case Chunk(n) =>
              && 0 < n && |toR| >= 2 && toR[1].Payload? && |toR[1].bytes| == n
              && TailFrom(c, sess, i, toR[2..], pos + n)
              && (i in sess.offers ==> pos + n <= |c.sources[i]| && toR[1].bytes == c.sources[i][pos..pos + n])
            case _ => false
  {
    var x := c.sources[i];
    if i in sess.offers {
    } else {
      var p: nat :| p <= |x| && FileTail(toR, i, x, p);
      if toR[0] == Hdr(Progress) {
        assert FileTail(toR[1..], i, x, p);
      } else if toR[0] != Hdr(FileEnd(i, 0)) {
        assert FileTail(toR[2..], i, x, p + toR[0].frame.length);
      }
    }
  }

  /** The session after n more bytes of the current chunk. */
  function AfterBytes(sess: Session, bytes: Bytes): Session
    requires sess.phase.Body? && |bytes| <= sess.phase.left
  {
    var b := sess.phase;
    sess.(phase := if b.left == |bytes|
                   then Body(b.index, b.got + b.length, 0, 0, b.hashed + bytes)
                   else b.(left := b.left - |bytes|, hashed := b.hashed + bytes))
  }

  lemma DataStep(h: Hash, s: State, sid: Sid, bytes: Bytes)
    requires Ready(s, sid) && s.sessions[sid].phase.Body? && 0 < |bytes| <= s.sessions[sid].phase.left
    ensures var o := Step(h, s, Data(sid, bytes));
            sid in o.state.sessions && o.state.sessions[sid] == AfterBytes(s.sessions[sid], bytes) && o.replies == []
  {
  }

  /** Some bytes of the payload in front are taken: what is left still fits. */
  lemma PayloadNext(c: Plan, sess: Session, i: nat, toR: seq<Item>, n: nat)
    requires i < |c.manifest| == |c.sources| && sess.phase.Body? && EntryPending(c, sess, i, toR)
    requires sess.phase.left > 0 && 0 < n <= sess.phase.left
    ensures toR[0].Payload? && n <= |toR[0].bytes|
    ensures var b := toR[0].bytes;
            EntryPending(c, AfterBytes(sess, b[..n]), i, if n == |b| then toR[1..] else [Payload(b[n..])] + toR[1..])
  {
    hide FileTail;
    var b := toR[0].bytes;
    var sess' := AfterBytes(sess, b[..n]);
    SameTail(c, sess, sess', i, toR[1..]);
    if n < |b| {
      var rest := [Payload(b[n..])] + toR[1..];
      assert rest[1..] == toR[1..] && rest[0] == Payload(b[n..]);
      if i in sess.offers {
        var x, m := c.sources[i], |sess.phase.hashed|;
        assert b[n..] == x[m + n..m + n + (sess.phase.left - n)];
      }
    }
  }

  lemma DataDeliverSync(h: Hash, c: Plan, j: Joint, n: nat)
    requires JointInv(h, c, j) && Ready(j.recv, c.sid) && j.recv.sessions[c.sid].phase.Body?
    requires j.toR != [] && j.toR[0].Payload? && 0 < n <= |j.toR[0].bytes| && n <= j.recv.sessions[c.sid].phase.left
    ensures var b := j.toR[0].bytes;
            var o := Step(h, j.recv, Data(c.sid, b[..n]));
            var toR := if n == |b| then j.toR[1..] else [Payload(b[n..])] + j.toR[1..];
            && c.sid in o.state.sessions
            && Sync(c, o.state.sessions[c.sid], j.pc, toR, j.toS + o.replies)
            && o.state.sessions[c.sid].completed == j.recv.sessions[c.sid].completed
  {
    hide Inv, FileTail, Step, TailFrom;
    var sess := j.recv.sessions[c.sid];
    var b := j.toR[0].bytes;
    DataStep(h, j.recv, c.sid, b[..n]);
    assert j.toS + [] == j.toS;
    if j.pc.AwaitAck? {
      PayloadNext(c, sess, j.pc.index, j.toR, n);
    }
  }

  lemma DeliverKeepsSync(h: Hash, c: Plan, j: Joint, n: nat)
    requires JointInv(h, c, j)
    ensures var j' := DeliverStep(h, c, j, n);
            && c.sid in j'.recv.sessions
            && Sync(c, j'.recv.sessions[c.sid], j'.pc, j'.toR, j'.toS)
  {
    hide Inv, FileTail, Sync, Step;
    var s := j.recv;
    IsReady(h, s, c.sid);
    if j.toR != [] {
      var phase := s.sessions[c.sid].phase;
      match j.toR[0]
      case Hdr(frame) =>
        if phase.Idle? { IdleDeliverSync(h, c, j, frame); }
        else if phase.DirEntry? { DirDeliverSync(h, c, j, frame); }
        else if phase.Body? && phase.left == 0 { BodyDeliverSync(h, c, j, frame); }
      case Payload(b) =>
        if phase.Body? && phase.left > 0 && 0 < n <= |b| && n <= phase.left { DataDeliverSync(h, c, j, n); }
    }
  }

  // ----- destinations ------------------------------------------------------------

  /** What a step does to the slots of the session that takes it. */
  ghost predicate Advances(s: State, s': State, sid: Sid) {
    sid in s.sessions ==>
      && sid in s'.sessions
      && s'.sessions[sid].manifest == s.sessions[sid].manifest
      && (s'.sessions[sid].phase.Ended? ==> s'.sessions[sid].slots == s.sessions[sid].slots)
  }

  lemma WorkAdvances(h: Hash, s: State, sid: Sid)
    requires Ready(s, sid)
    ensures Advances(s, AdvanceStep(s, sid, s.sessions[sid]).state, sid)
  {
    hide SlotFor, PartialLen, Probe, ProbeDirs, OpenPart, RenamePart, Swept;
    var sess := s.sessions[sid];
    match sess.phase
    case QueryReserve(i) => SlotForAdvances(s, sid, sess, i);
    case Reserving(i) => SlotForAdvances(s, sid, sess, i);
    case Opening(i, offset) => OpenShape(s, sid, sess, i, offset);
    case Renaming(i) => RenameAdvances(s, sid, sess, i);
    case _ =>
  }

  lemma SlotForAdvances(s: State, sid: Sid, sess: Session, i: nat)
    requires i < |sess.manifest|
    ensures var (s1, sess1, ok) := SlotFor(s, sid, sess, i); sess1 == sess.(slots := sess1.slots) && (!ok ==> sess1 == sess)
  {
    hide Reserve;
  }

  lemma RenameAdvances(s: State, sid: Sid, sess: Session, i: nat)
    requires i in sess.slots && i < |sess.manifest|
    ensures var s' := RenamePart(s, sid, sess, i).state;
            sid in s'.sessions && s'.sessions[sid] == sess.(phase := s'.sessions[sid].phase)
  {
    hide RemovePart, Swept;
  }

  lemma FrameAdvances(h: Hash, s: State, sid: Sid, frame: Frame)
    requires Ready(s, sid)
    ensures Advances(s, FrameStep(h, s, sid, s.sessions[sid], frame).state, sid)
  {
    hide CreateDirectory, EqualFold, RemovePart, Swept, IdleFrame;
    if s.sessions[sid].phase.Idle? { IdleAdvances(s, sid, frame); }
  }

  lemma IdleAdvances(s: State, sid: Sid, frame: Frame)
    requires Ready(s, sid)
    ensures Advances(s, IdleFrame(s, sid, s.sessions[sid], frame).state, sid)
  {
  }

  lemma StepAdvances(h: Hash, s: State, e: Event)
    ensures Advances(s, Step(h, s, e).state, e.sid)
  {
    hide AdvanceStep, FrameStep, SidecarMatches, Swept;
    match e
    case Recv(sid, frame) => if Ready(s, sid) { FrameAdvances(h, s, sid, frame); }
    case Advance(sid) => if Ready(s, sid) { WorkAdvances(h, s, sid); }
    case _ =>
  }

  lemma RunningSlotsDiffer(h: Hash, s: State, sid: Sid)
    requires Inv(h, s) && sid in s.sessions && !s.sessions[sid].phase.Ended?
    ensures OneEach(s.sessions[sid])
  {
    hide SessOk;
    Facts(h, s, sid);
    var sess := s.sessions[sid];
    forall k, l | k in sess.slots && l in sess.slots && sess.slots[k] == sess.slots[l] ensures k == l {
      assert Live(s, sid, k) && Live(s, sid, l) && DestOf(s, sid, k) == DestOf(s, sid, l);
    }
  }

  /** A step of the receiver, by this session or another, keeps destinations apart. */
  lemma KeepsOneEach(h: Hash, s: State, e: Event, sid: Sid)
    requires Inv(h, s) && Admissible(e) && sid in s.sessions && OneEach(s.sessions[sid])
    ensures var s' := Step(h, s, e).state;
            Inv(h, s') && sid in s'.sessions && OneEach(s'.sessions[sid])
            && (e.sid != sid ==> s'.sessions[sid] == s.sessions[sid])
  {
    hide Inv, Step;
    var s' := Step(h, s, e).state;
    StepKeepsInv(h, s, e);
    StepTouches(h, s, e);
    StepAdvances(h, s, e);
    if e.sid == sid && !s'.sessions[sid].phase.Ended? { RunningSlotsDiffer(h, s', sid); }
  }

  // ----- every joint step, every joint run -----------------------------------------------------------

  lemma FreeKeepsSync(h: Hash, c: Plan, s: State, k: nat, pc: Pc, toR: seq<Item>, toS: seq<Reply>)
    requires |c.manifest| == |c.sources| && c.sid in s.sessions && Sync(c, s.sessions[c.sid], pc, toR, toS)
    ensures var s' := Step(h, s, Release(c.sid, k)).state;
            c.sid in s'.sessions && Sync(c, s'.sessions[c.sid], pc, toR, toS)
  {
    hide FileTail, TailFrom;
  }

  predicate Allowed(e: JointEvent) {
    e.Foreign? ==> Admissible(e.e)
  }

  lemma JointStepKeepsInv(h: Hash, c: Plan, j: Joint, e: JointEvent)
    requires JointInv(h, c, j) && Allowed(e)
    ensures JointInv(h, c, JointStep(h, c, j, e))
  {
    hide Inv, Step, Sync, OneEach, WellPlanned;
    PlanShape(h, c);
    match e
    case Send(items) => SendKeepsSync(c, j.recv.sessions[c.sid], j, items);
    case Deliver(n) =>
      DeliverKeepsSync(h, c, j, n);
      DeliverKeepsOneEach(h, c, j, n);
    case Work =>
      WorkKeepsSync(h, c, j);
      KeepsOneEach(h, j.recv, Advance(c.sid), c.sid);
    case WorkDir(size) =>
      WorkDirSync(h, c, j, size);
      KeepsOneEach(h, j.recv, ProbeDir(c.sid, size), c.sid);
    case Cut(answered) =>
      CutKeepsSync(h, c, j, answered);
      KeepsOneEach(h, j.recv, Drop(c.sid), c.sid);
    case Fail => FailSync(c, j.recv.sessions[c.sid], j.pc, j.toR, j.toS);
    case Foreign(x) => if x.sid != c.sid { KeepsOneEach(h, j.recv, x, c.sid); }
    case Free(k) =>
      FreeKeepsSync(h, c, j.recv, k, j.pc, j.toR, j.toS);
      KeepsOneEach(h, j.recv, Release(c.sid, k), c.sid);
  }

  lemma PlanShape(h: Hash, c: Plan)
    requires WellPlanned(h, c)
    ensures |c.manifest| == |c.sources|
  {
  }

  lemma FailSync(c: Plan, sess: Session, pc: Pc, toR: seq<Item>, toS: seq<Reply>)
    requires |c.manifest| == |c.sources| && Sync(c, sess, pc, toR, toS)
    ensures Sync(c, sess, Failed, toR, toS)
  {
  }

  lemma DeliverKeepsOneEach(h: Hash, c: Plan, j: Joint, n: nat)
    requires JointInv(h, c, j)
    ensures var s' := DeliverStep(h, c, j, n).recv;
            Inv(h, s') && c.sid in s'.sessions && OneEach(s'.sessions[c.sid])
  {
    hide Inv, Step, Sync, OneEach, WellPlanned;
    if j.toR != [] {
      match j.toR[0]
      case Hdr(frame) => KeepsOneEach(h, j.recv, Recv(c.sid, frame), c.sid);
      case Payload(b) => if 0 < n <= |b| { KeepsOneEach(h, j.recv, Data(c.sid, b[..n]), c.sid); }
    }
  }

  lemma BeginInv(h: Hash, c: Plan, s: State)
    requires Inv(h, s) && WellPlanned(h, c) && c.manifest != [] && c.sid !in s.sessions
    ensures JointInv(h, c, Begin(h, c, s))
  {
    hide Inv;
    StepKeepsInv(h, s, Start(c.sid, c.manifest, true));
  }

  predicate AllAllowed(events: seq<JointEvent>) {
    forall k | 0 <= k < |events| :: Allowed(events[k])
  }

  lemma {:induction false} JointRunKeepsInv(h: Hash, c: Plan, j: Joint, events: seq<JointEvent>)
    requires JointInv(h, c, j) && AllAllowed(events)
    ensures JointInv(h, c, JointRun(h, c, j, events))
  {
    hide JointInv, JointStep;
    PlanShapeOf(h, c, j);
    if events != [] {
      JointRunKeepsInv(h, c, j, events[..|events| - 1]);
      JointStepKeepsInv(h, c, JointRun(h, c, j, events[..|events| - 1]), events[|events| - 1]);
    }
  }

  lemma PlanShapeOf(h: Hash, c: Plan, j: Joint)
    requires JointInv(h, c, j)
    ensures |c.manifest| == |c.sources|
  {
    hide Inv, Sync;
  }

  /**
   * The two sides agree on the offset. Whatever other sessions do in between, when the receiver
   * opens a file the sender was offered bytes of, what the sender streams starts at exactly that
   * offset of the source, which is the length of the partial on disk.
   */
  lemma SidesAgreeOnOffset(h: Hash, c: Plan, s: State, events: seq<JointEvent>)
    requires Inv(h, s) && WellPlanned(h, c) && c.manifest != [] && c.sid !in s.sessions && AllAllowed(events)
    requires var j := JointRun(h, c, Begin(h, c, s), events);
             c.sid in j.recv.sessions && Opens(j.recv, c.sid)
             && j.recv.sessions[c.sid].phase.index in j.recv.sessions[c.sid].offers
    ensures AgreedAtOpen(c, JointRun(h, c, Begin(h, c, s), events))
  {
    hide Inv, JointRun, Begin, JointInv, WellPlanned, FileTail;
    PlanShape(h, c);
    BeginInv(h, c, s);
    BeginIsNotFailed(h, c, s);
    var j0 := Begin(h, c, s);
    UnfailingRuns(h, c, j0, events);
    JointRunKeepsInv(h, c, j0, Unfailing(h, c, j0, events));
    OpenAgrees(h, c, JointRun(h, c, j0, Unfailing(h, c, j0, events)));
  }

  /** The session is about to open a part file: no directory is in its place. */
  predicate Opens(s: State, sid: Sid)
    requires sid in s.sessions
  {
    var sess := s.sessions[sid];
    sess.phase.Opening? && sess.phase.index in sess.slots && Tmp(sess.slots[sess.phase.index]) !in s.dirs
  }

  /** The receiver opens at the offered offset, the partial has that length, and the rest of the source follows. */
  predicate AgreedAtOpen(c: Plan, j: Joint)
    requires c.sid in j.recv.sessions && j.recv.sessions[c.sid].phase.Opening?
    requires j.recv.sessions[c.sid].phase.index in j.recv.sessions[c.sid].offers
  {
    var sess := j.recv.sessions[c.sid];
    var i, offset := sess.phase.index, sess.phase.offset;
    && offset == sess.offers[i]
    && i < |c.sources| && FileTail(j.toR, i, c.sources[i], offset)
    && i in sess.slots
    && (offset > 0 ==> Tmp(sess.slots[i]) in j.recv.files && |j.recv.files[Tmp(sess.slots[i])]| == offset)
  }

  lemma OpenAgrees(h: Hash, c: Plan, j: Joint)
    requires JointInv(h, c, j) && !j.pc.Failed? && Opens(j.recv, c.sid)
    requires j.recv.sessions[c.sid].phase.index in j.recv.sessions[c.sid].offers
    ensures AgreedAtOpen(c, j)
  {
    hide Inv, FileTail, SidecarMatches;
    Facts(h, j.recv, c.sid);
    var sess := j.recv.sessions[c.sid];
    AgreedOffset(h, j.recv, sess, sess.phase.index, sess.phase.offset);
  }

  /** What the sender streams after an offer is what its source holds at the receiver's position. */
  lemma SenderIsHonest(h: Hash, c: Plan, j: Joint)
    requires JointInv(h, c, j) && !j.pc.Failed?
    requires var phase := j.recv.sessions[c.sid].phase;
             phase.Body? && phase.left > 0 && phase.index in j.recv.sessions[c.sid].offers
    ensures var phase := j.recv.sessions[c.sid].phase;
            && phase.index < |c.sources| && j.toR != [] && j.toR[0].Payload?
            && var x, m := c.sources[phase.index], |phase.hashed|;
               m + phase.left <= |x| && j.toR[0].bytes == x[m..m + phase.left]
  {
    hide Inv, FileTail, TailFrom;
  }

  // ----- joint runs in pieces ----------------------------------------------------------------------

  lemma {:induction false} JointConcat(h: Hash, c: Plan, j: Joint, a: seq<JointEvent>, b: seq<JointEvent>)
    requires |c.manifest| == |c.sources|
    ensures JointRun(h, c, j, a + b) == JointRun(h, c, JointRun(h, c, j, a), b)
  {
    hide JointStep;
    if b == [] {
      assert a + b == a;
    } else {
      JointConcat(h, c, j, a, b[..|b| - 1]);
      assert (a + b)[..|a + b| - 1] == a + b[..|b| - 1];
    }
  }

  lemma JointOne(h: Hash, c: Plan, j: Joint, e: JointEvent)
    requires |c.manifest| == |c.sources|
    ensures JointRun(h, c, j, [e]) == JointStep(h, c, j, e)
  {
    hide JointStep;
    assert [e][..0] == [];
    JointRunNone(h, c, j);
  }

  lemma JointCons(h: Hash, c: Plan, j: Joint, e: JointEvent, rest: seq<JointEvent>)
    requires |c.manifest| == |c.sources|
    ensures JointRun(h, c, j, [e] + rest) == JointRun(h, c, JointStep(h, c, j, e), rest)
  {
    hide JointStep, JointRun;
    JointConcat(h, c, j, [e], rest);
    JointOne(h, c, j, e);
  }

  lemma JointRunNone(h: Hash, c: Plan, j: Joint)
    requires |c.manifest| == |c.sources|
    ensures JointRun(h, c, j, []) == j
  {
  }

  // ----- the receiver's part of a joint step ------------------------------------------------

  /** The step of the receiver in a joint step, if there is one. */
  function RecvEvent(c: Plan, j: Joint, e: JointEvent): Option<Event> {
    match e
    case Send(_) => None
    case Fail => None
    case Deliver(n) =>
      if c.sid !in j.recv.sessions || j.toR == [] then None
      else
        var phase := j.recv.sessions[c.sid].phase;
        (match j.toR[0]
         case Hdr(frame) => if !Reading(phase) then None else Some(Recv(c.sid, frame))
         case Payload(b) =>
           if !phase.Body? || phase.left == 0 || n == 0 || n > |b| || n > phase.left then None
           else Some(Data(c.sid, b[..n])))
    case Work => Some(Advance(c.sid))
    case WorkDir(size) => Some(ProbeDir(c.sid, size))
    case Cut(_) => Some(Drop(c.sid))
    case Foreign(x) => if x.sid == c.sid then None else Some(x)
    case Free(k) => Some(Release(c.sid, k))
  }

  lemma JointRecv(h: Hash, c: Plan, j: Joint, e: JointEvent)
    requires |c.manifest| == |c.sources|
    ensures JointStep(h, c, j, e).recv
         == match RecvEvent(c, j, e) case None => j.recv case Some(x) => Step(h, j.recv, x).state
  {
    hide Step;
  }

  lemma IdleJointStep(h: Hash, c: Plan, j: Joint, e: JointEvent)
    requires |c.manifest| == |c.sources| && RecvEvent(c, j, e) == None && !e.Send? && !e.Fail?
    ensures JointStep(h, c, j, e) == j
  {
    hide Step;
  }

  // ----- a sender that gives up leaves what it wrote on its way ------------------------------

  /** The same run, in which the sender takes no further step instead of giving up. */
  function Unfailing(h: Hash, c: Plan, j: Joint, events: seq<JointEvent>): seq<JointEvent>
    requires |c.manifest| == |c.sources|
  {
    if events == [] then []
    else
      var before, e := events[..|events| - 1], events[|events| - 1];
      var kept := Unfailing(h, c, j, before);
      if e.Fail? || (e.Send? && JointStep(h, c, JointRun(h, c, j, before), e).pc.Failed?) then kept else kept + [e]
  }

  /** The receiver and what is on its way are the same in both runs. */
  lemma {:induction false} UnfailingRuns(h: Hash, c: Plan, j: Joint, events: seq<JointEvent>)
    requires |c.manifest| == |c.sources| && !j.pc.Failed? && AllAllowed(events)
    ensures var a, b := JointRun(h, c, j, events), JointRun(h, c, j, Unfailing(h, c, j, events));
            && AllAllowed(Unfailing(h, c, j, events))
            && b.recv == a.recv && b.toR == a.toR && !b.pc.Failed? && (!a.pc.Failed? ==> a == b)
  {
    hide Step, Allowed;
    if events == [] {
      JointRunNone(h, c, j);
    } else {
      var before, e := events[..|events| - 1], events[|events| - 1];
      UnfailingRuns(h, c, j, before);
      var kept := Unfailing(h, c, j, before);
      var a, b := JointRun(h, c, j, before), JointRun(h, c, j, kept);
      SameMoves(h, c, a, b, e);
      assert (kept + [e])[..|kept|] == kept;
    }
  }

  /** What a joint step does to the receiver and the stream does not depend on the sender, unless the sender takes it. */
  lemma SameMoves(h: Hash, c: Plan, a: Joint, b: Joint, e: JointEvent)
    requires |c.manifest| == |c.sources|
    requires b.recv == a.recv && b.toR == a.toR && !b.pc.Failed? && (!a.pc.Failed? ==> a == b)
    ensures var a', b' := JointStep(h, c, a, e), JointStep(h, c, b, e);
            if e.Fail? || (e.Send? && a'.pc.Failed?) then
              a'.recv == b.recv && a'.toR == b.toR && a'.pc.Failed?
            else
              b'.recv == a'.recv && b'.toR == a'.toR && !b'.pc.Failed? && (!a'.pc.Failed? ==> a' == b')
  {
    hide Step, EntryScript;
  }

  lemma BeginIsNotFailed(h: Hash, c: Plan, s: State)
    ensures !Begin(h, c, s).pc.Failed?
  {
  }
}
