/** The agreement of the two sides on the offset, in every joint run whose directories are not shaky. */
module AgreedOffsets {
  import opened Basics
  import opened Names
  import opened Receiver
  import opened ReceiverSafety
  import opened ReceiverRuns
  import opened Resume
  import opened Overwrites
  import opened Attempts
  import opened Transfer
  import opened Agreement

  // ----- the offer the sender acts on ----------------------------------------------------------

  /**
   * While the sender holds the answer for entry i, or waits for its acknowledgement, that answer is recorded
   * at the receiver, or the slot is still refused and the file has not been taken up.
   */
  ghost predicate OfferBacked(c: Plan, j: Joint) {
    c.sid in j.recv.sessions
    && var sess := j.recv.sessions[c.sid];
       match j.pc
       case AwaitOffer(i) =>
         Steady(j.recv, c.sid, i) && sess.phase.Idle? && j.toS != [] ==>
           i in sess.offers || (i !in sess.slots && Reserve(j.recv, sess.manifest[i]).Refused?)
       case AwaitAck(i) =>
         Steady(j.recv, c.sid, i) && !sess.phase.Ended? && i !in sess.completed ==>
           i in sess.offers
           || (i !in sess.slots && Reserve(j.recv, sess.manifest[i]).Refused? && (sess.phase.Idle? || sess.phase == Reserving(i)))
       case _ => true
  }

  ghost predicate AgreedInv(h: Hash, c: Plan, j: Joint) {
    JointInv(h, c, j) && WellNamed(j.recv) && OfferBacked(c, j)
  }

  lemma SendKeepsBacked(h: Hash, c: Plan, j: Joint, items: seq<Item>)
    requires AgreedInv(h, c, j) && |c.manifest| == |c.sources|
    ensures OfferBacked(c, SendStep(c, j, items))
  {
    hide Inv, WellNamed, FileTail, EntryScript, ShakyParent, Reserve;
    hide EntryPending, WellPlanned, OneEach;
  }

  /** Only the probe of a query changes what is recorded as offered; what is completed or ended stays so. */
  lemma OffersStay(h: Hash, s: State, e: Event)
    requires e.sid in s.sessions
    ensures var s' := Step(h, s, e).state;
            && e.sid in s'.sessions
            && (!s.sessions[e.sid].phase.QueryProbe? ==> s'.sessions[e.sid].offers == s.sessions[e.sid].offers)
            && (s.sessions[e.sid].phase.Ended? ==> s'.sessions[e.sid].phase.Ended?)
            && s.sessions[e.sid].completed <= s'.sessions[e.sid].completed
  {
    hide AdvanceStep, FrameStep;
    hide Removed, SidecarMatches;
    RemovedKeepsSessions(s);
    if Ready(s, e.sid) {
      if e.Advance? { WorkOffersStay(s, e.sid); }
      if e.Recv? { FrameTracks(h, s, e.sid, e.frame, 0); FrameCompletes(h, s, e.sid, e.frame); }
    }
  }

  lemma WorkOffersStay(s: State, sid: Sid)
    requires Ready(s, sid)
    ensures var o := AdvanceStep(s, sid, s.sessions[sid]);
            && sid in o.state.sessions
            && (!s.sessions[sid].phase.QueryProbe? ==> o.state.sessions[sid].offers == s.sessions[sid].offers)
            && (s.sessions[sid].phase.Ended? ==> o.state.sessions[sid].phase.Ended?)
            && s.sessions[sid].completed <= o.state.sessions[sid].completed
  {
    hide SlotFor, Probe, PartialLen, OpenPart, RenamePart;
    var sess := s.sessions[sid];
    match sess.phase
    case QueryReserve(q) => SlotForTracks(s, sid, sess, q, q);
    case Reserving(q) => SlotForTracks(s, sid, sess, q, q);
    case Opening(q, offset) => OpenShape(s, sid, sess, q, offset);
    case Renaming(q) => RenameIsSilent(s, sid, sess, q, q);
    case _ =>
  }

  lemma FrameCompletes(h: Hash, s: State, sid: Sid, frame: Frame)
    requires Ready(s, sid)
    ensures var o := FrameStep(h, s, sid, s.sessions[sid], frame);
            && sid in o.state.sessions && s.sessions[sid].completed <= o.state.sessions[sid].completed
            && (s.sessions[sid].phase.Ended? ==> o.state.sessions[sid].phase.Ended?)
  {
    hide IdleFrame, BodyFrame, DirFrame;
    var sess := s.sessions[sid];
    if sess.phase.Idle? { IdleCompletes(s, sid, sess, frame); }
    if sess.phase.Body? && sess.phase.left == 0 { BodyFrameStep(h, s, sid, frame); }
    if sess.phase.DirEntry? { DirCompletes(s, sid, sess, sess.phase.index, frame); }
  }

  lemma IdleCompletes(s: State, sid: Sid, sess: Session, frame: Frame)
    requires sid in s.sessions && s.sessions[sid] == sess
    ensures var o := IdleFrame(s, sid, sess, frame);
            sid in o.state.sessions && o.state.sessions[sid].completed == sess.completed
  {
  }

  lemma DirCompletes(s: State, sid: Sid, sess: Session, i: nat, frame: Frame)
    requires i < |sess.manifest|
    ensures var o := DirFrame(s, sid, sess, i, frame);
            sid in o.state.sessions && sess.completed <= o.state.sessions[sid].completed
  {
    hide CreateDirectory;
  }

  /** The answer to the query for entry i is an offer for i. */
  lemma QueryAnswers(s: State, sid: Sid, i: nat)
    requires Ready(s, sid) && s.sessions[sid].phase in {QueryReserve(i), QueryProbe(i)}
    ensures var o := AdvanceStep(s, sid, s.sessions[sid]); o.replies != [] ==> OfferIn(o.replies, i).Some?
  {
    hide SlotFor, Probe, PartialLen;
  }

  /** The session's own steps while the sender waits for an offer. */
  lemma OfferStepBacked(h: Hash, c: Plan, j: Joint, e: JointEvent)
    requires AgreedInv(h, c, j) && j.pc.AwaitOffer? && |c.manifest| == |c.sources|
    requires RecvEvent(c, j, e).Some? && RecvEvent(c, j, e).value.sid == c.sid
    ensures OfferBacked(c, JointStep(h, c, j, e))
  {
    hide Inv, WellNamed, FileTail, EntryPending, ShakyParent, Reserve, Step, OneEach, WellPlanned;
    var s, i, x := j.recv, j.pc.index, RecvEvent(c, j, e).value;
    var j' := JointStep(h, c, j, e);
    JointRecv(h, c, j, e);
    OwnTracks(h, s, x, i);
    OffersStay(h, s, x);
    IsReady(h, s, c.sid);
    if Steady(j'.recv, c.sid, i) {
      if Reserve(s, s.sessions[c.sid].manifest[i]).Refused? { RefusalStands(h, s, x, s.sessions[c.sid].manifest[i]); }
      FirstAnswer(h, c, j, e);
    }
  }

  /** What the receiver answers first to the query is an offer for it. */
  lemma FirstAnswer(h: Hash, c: Plan, j: Joint, e: JointEvent)
    requires JointInv(h, c, j) && j.pc.AwaitOffer? && |c.manifest| == |c.sources| && Steady(j.recv, c.sid, j.pc.index)
    requires RecvEvent(c, j, e).Some? && RecvEvent(c, j, e).value.sid == c.sid
    ensures var x := RecvEvent(c, j, e).value;
            var o := Step(h, j.recv, x);
            && c.sid in o.state.sessions
            && (j.toS == [] && JointStep(h, c, j, e).toS != [] && o.state.sessions[c.sid].phase.Idle?
                ==> OfferIn(o.replies, j.pc.index).Some?)
  {
    hide Inv, FileTail, EntryPending, ShakyParent, AdvanceStep, DirFrame, BodyFrame, OneEach, WellPlanned;
    IsReady(h, j.recv, c.sid);
    var i := j.pc.index;
    var phase := j.recv.sessions[c.sid].phase;
    if phase in {QueryReserve(i), QueryProbe(i)} { QueryAnswers(j.recv, c.sid, i); }
    if phase.Idle? || phase.Ended? { NoWork(h, j.recv, c.sid); }
    OffersStay(h, j.recv, RecvEvent(c, j, e).value);
  }

  /** The session's own steps while the sender waits for the acknowledgement of an entry. */
  lemma AckStepBacked(h: Hash, c: Plan, j: Joint, e: JointEvent)
    requires AgreedInv(h, c, j) && j.pc.AwaitAck? && |c.manifest| == |c.sources|
    requires RecvEvent(c, j, e).Some? && RecvEvent(c, j, e).value.sid == c.sid
    ensures OfferBacked(c, JointStep(h, c, j, e))
  {
    hide Inv, WellNamed, FileTail, ShakyParent, Reserve, Step, OneEach, WellPlanned;
    var s, i, x := j.recv, j.pc.index, RecvEvent(c, j, e).value;
    var j' := JointStep(h, c, j, e);
    JointRecv(h, c, j, e);
    OwnTracks(h, s, x, i);
    OffersStay(h, s, x);
    IsReady(h, s, c.sid);
    if Steady(j'.recv, c.sid, i) && i !in s.sessions[c.sid].completed && !s.sessions[c.sid].phase.Ended? {
      if i !in s.sessions[c.sid].offers {
        RefusalStands(h, s, x, s.sessions[c.sid].manifest[i]);
        TakenUp(h, c, j, e);
      }
    }
  }

  /** A refused entry is taken up by its file_header, and then the session ends. */
  lemma TakenUp(h: Hash, c: Plan, j: Joint, e: JointEvent)
    requires JointInv(h, c, j) && j.pc.AwaitAck? && |c.manifest| == |c.sources| && Steady(j.recv, c.sid, j.pc.index)
    requires RecvEvent(c, j, e).Some? && RecvEvent(c, j, e).value.sid == c.sid
    requires var sess := j.recv.sessions[c.sid];
             && j.pc.index !in sess.slots && Reserve(j.recv, sess.manifest[j.pc.index]).Refused? && j.pc.index !in sess.completed
             && (sess.phase.Idle? || sess.phase == Reserving(j.pc.index))
    ensures var s' := Step(h, j.recv, RecvEvent(c, j, e).value).state;
            && c.sid in s'.sessions && j.pc.index !in s'.sessions[c.sid].slots
            && (s'.sessions[c.sid].phase.Ended? || s'.sessions[c.sid].phase.Idle? || s'.sessions[c.sid].phase == Reserving(j.pc.index))
  {
    hide Inv, FileTail, ShakyParent, Reserve, DirFrame, BodyFrame, OneEach, WellPlanned, Probe, PartialLen, OpenPart, RenamePart;
    IsReady(h, j.recv, c.sid);
  }

  /** Another session's step leaves the session as it is, and a refusal in place. */
  lemma ForeignKeepsBacked(h: Hash, c: Plan, j: Joint, x: Event)
    requires AgreedInv(h, c, j) && x.sid != c.sid && |c.manifest| == |c.sources|
    ensures OfferBacked(c, j.(recv := Step(h, j.recv, x).state))
  {
    hide Inv, WellNamed, Sync, ShakyParent, Reserve, Step, OneEach, WellPlanned;
    var s := j.recv;
    StepTouches(h, s, x);
    if (j.pc.AwaitOffer? || j.pc.AwaitAck?) && Steady(s, c.sid, j.pc.index)
       && Reserve(s, s.sessions[c.sid].manifest[j.pc.index]).Refused? {
      RefusalStands(h, s, x, s.sessions[c.sid].manifest[j.pc.index]);
    }
  }

  lemma JointStepKeepsAgreed(h: Hash, c: Plan, j: Joint, e: JointEvent)
    requires AgreedInv(h, c, j) && Allowed(e) && |c.manifest| == |c.sources|
    ensures AgreedInv(h, c, JointStep(h, c, j, e))
  {
    hide JointInv, WellNamed, OfferBacked, Step, SendStep, DeliverStep;
    JointStepKeepsInv(h, c, j, e);
    JointRecv(h, c, j, e);
    if e.Send? {
      SendKeepsBacked(h, c, j, e.items);
    } else if e.Fail? {
      FailedIsBacked(h, c, j);
    } else if RecvEvent(c, j, e).Some? {
      var x := RecvEvent(c, j, e).value;
      StepStaysNamed(h, j.recv, x);
      if x.sid != c.sid { ForeignKeepsBacked(h, c, j, x); }
      else if j.pc.AwaitOffer? { OfferStepBacked(h, c, j, e); }
      else if j.pc.AwaitAck? { AckStepBacked(h, c, j, e); }
      else { OtherPcBacked(h, c, j, e); }
    } else {
      assert JointStep(h, c, j, e) == j by { IdleJointStep(h, c, j, e); }
    }
  }

  lemma FailedIsBacked(h: Hash, c: Plan, j: Joint)
    requires JointInv(h, c, j)
    ensures OfferBacked(c, j.(pc := Failed))
  {
    hide Inv, Sync;
  }

  lemma OtherPcBacked(h: Hash, c: Plan, j: Joint, e: JointEvent)
    requires JointInv(h, c, j) && |c.manifest| == |c.sources| && RecvEvent(c, j, e).Some? && !j.pc.AwaitOffer? && !j.pc.AwaitAck?
    requires JointInv(h, c, JointStep(h, c, j, e))
    ensures OfferBacked(c, JointStep(h, c, j, e))
  {
    hide Inv, Sync, Step;
  }

  lemma {:induction false} JointRunKeepsAgreed(h: Hash, c: Plan, j: Joint, events: seq<JointEvent>)
    requires AgreedInv(h, c, j) && AllAllowed(events) && |c.manifest| == |c.sources|
    ensures AgreedInv(h, c, JointRun(h, c, j, events))
  {
    hide AgreedInv, JointStep;
    if events != [] {
      JointRunKeepsAgreed(h, c, j, events[..|events| - 1]);
      JointStepKeepsAgreed(h, c, JointRun(h, c, j, events[..|events| - 1]), events[|events| - 1]);
    }
  }

  lemma BeginAgreed(h: Hash, c: Plan, s: State)
    requires Inv(h, s) && WellNamed(s) && WellPlanned(h, c) && c.manifest != [] && c.sid !in s.sessions
    ensures |c.manifest| == |c.sources| && AgreedInv(h, c, Begin(h, c, s))
  {
    hide Inv, WellNamed, JointInv, ShakyParent;
    PlanShape(h, c);
    BeginInv(h, c, s);
    StepStaysNamed(h, s, Start(c.sid, c.manifest, true));
  }

  /**
   * The two sides agree on the offset, in every reachable joint state, the sender having given up or not. When the receiver opens a file whose
   * directories are not shaky, it does so at the offset it offered; the partial has that length, and what the
   * sender streams starts at exactly that position of the source.
   */
  lemma SidesAgree(h: Hash, c: Plan, s: State, events: seq<JointEvent>)
    requires Inv(h, s) && WellNamed(s) && WellPlanned(h, c) && c.manifest != [] && c.sid !in s.sessions && AllAllowed(events)
    requires |c.manifest| == |c.sources|
    requires var j := JointRun(h, c, Begin(h, c, s), events);
             && c.sid in j.recv.sessions && Opens(j.recv, c.sid)
             && j.recv.sessions[c.sid].phase.index < |c.manifest| && !ShakyParent(c.manifest[j.recv.sessions[c.sid].phase.index])
    ensures var j := JointRun(h, c, Begin(h, c, s), events);
            j.recv.sessions[c.sid].phase.index in j.recv.sessions[c.sid].offers && AgreedAtOpen(c, j)
  {
    hide Inv, WellNamed, JointRun, Begin, AgreedInv, WellPlanned, ShakyParent, JointInv, OfferBacked, FileTail;
    var j0 := Begin(h, c, s);
    var j := JointRun(h, c, j0, Unfailing(h, c, j0, events));
    BeginAgreed(h, c, s);
    BeginIsNotFailed(h, c, s);
    UnfailingRuns(h, c, j0, events);
    JointRunKeepsAgreed(h, c, j0, Unfailing(h, c, j0, events));
    OpeningIsOffered(h, c, j);
    AgreedIsJoint(h, c, j);
    OpenAgrees(h, c, j);
  }

  lemma AgreedIsJoint(h: Hash, c: Plan, j: Joint)
    requires AgreedInv(h, c, j)
    ensures JointInv(h, c, j)
  {
  }

  /** A file that is open, or about to be, was offered. */
  lemma OpeningIsOffered(h: Hash, c: Plan, j: Joint)
    requires AgreedInv(h, c, j) && !j.pc.Failed?
    requires var p := j.recv.sessions[c.sid].phase;
             (p.Opening? || p.Body?) && p.index < |c.manifest| && !ShakyParent(c.manifest[p.index])
    ensures j.recv.sessions[c.sid].phase.index in j.recv.sessions[c.sid].offers
  {
    hide Inv, WellNamed, FileTail, ShakyParent, Reserve, OneEach, WellPlanned;
    Facts(h, j.recv, c.sid);
  }
}
