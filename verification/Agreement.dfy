/**
 * When the offset the receiver offers, the one the sender starts from and the one the receiver recomputes are
 * the same. An offer of zero can also mean that the slot was refused, because a file sits where a directory of
 * the entry's path should go. If that file is another transfer's part file, it can be gone by the time the
 * file_header arrives, and a partial can have appeared; otherwise the refusal stands and the offsets agree.
 */
module Agreement {
  import opened Basics
  import opened Names
  import opened Receiver
  import opened ReceiverSafety
  import opened ReceiverRuns
  import opened Confinement
  import opened Resume
  import opened Overwrites
  import opened FileTree
  import opened Removals
  import opened Attempts
  import opened Transfer

  // ----- a refusal stands ----------------------------------------------------------------

  /** Some proper leading directory of the entry's path is named like another transfer's part file or sidecar. */
  predicate ShakyParent(meta: FileMeta) {
    && ValidRelPath(meta.relPath)
    && exists k :: 1 <= k < |Split(meta.relPath)| && Removable(Join(Split(meta.relPath)[..k]))
  }

  /** A slot is refused exactly for an invalid path, or when a file is in the way of the directories that lead to it. */
  lemma RefusedIs(s: State, meta: FileMeta)
    ensures Reserve(s, meta).Refused?
       <==> meta.relPath != "" && (!ValidRelPath(meta.relPath) || !(Leading(Front(meta.relPath)) !! s.files.Keys))
  {
    hide FreeName, Occupied, MakeDirs, ValidRelPath, Split, Join, Leading, SanitizeName;
    var name := meta.relPath;
    if name != "" && ValidRelPath(name) {
      RelIsLegal(name);
      if |Split(name)| > 1 {
        ParentFacts(name);
        ParentIsValid(name);
        MakeDirsExactly(s.files, s.dirs, Front(name));
        assert CreateDirectory(s.files, s.dirs, Join(Front(name))) == MakeDirs(s.files, s.dirs, Front(name));
      } else {
        NothingLeads();
      }
    }
  }

  /** So a refusal stands, unless a directory of the path is shaky. */
  lemma RefusalStands(h: Hash, s: State, e: Event, meta: FileMeta)
    requires Inv(h, s) && WellNamed(s) && !ShakyParent(meta) && Reserve(s, meta).Refused?
    ensures Reserve(Step(h, s, e).state, meta).Refused?
  {
    hide Inv, Step, WellNamed, ValidRelPath, Reserve, Split, Join, Removable;
    var s' := Step(h, s, e).state;
    RefusedIs(s, meta);
    RefusedIs(s', meta);
    if ValidRelPath(meta.relPath) {
      var p :| p in Leading(Front(meta.relPath)) && p in s.files.Keys;
      LeadingIsNotShaky(meta, p);
      FileStays(h, s, e, p);
      assert p in Leading(Front(meta.relPath)) && p in s'.files.Keys;
    }
  }

  lemma LeadingIsNotShaky(meta: FileMeta, p: Path)
    requires ValidRelPath(meta.relPath) && !ShakyParent(meta) && p in Leading(Front(meta.relPath))
    ensures !Removable(p)
  {
    hide ValidRelPath, Split, Join, Removable;
    var parts := Split(meta.relPath);
    var k :| 1 <= k <= |Front(meta.relPath)| && p == Join(Front(meta.relPath)[..k]);
    assert Front(meta.relPath)[..k] == parts[..k];
  }

  // ----- the receiver's offers over a run -------------------------------------------------

  /** The bytes last offered for index i in session sid. */
  function LastOffer(h: Hash, s: State, events: seq<Event>, sid: Sid, i: nat): Option<int> {
    if events == [] then None
    else
      var before, e := events[..|events| - 1], events[|events| - 1];
      var offered := OfferedBy(h, Run(h, s, before), e, sid, i);
      if offered.Some? then offered else LastOffer(h, s, before, sid, i)
  }

  function OfferedBy(h: Hash, s: State, e: Event, sid: Sid, i: nat): Option<int> {
    if e.sid == sid then OfferIn(Step(h, s, e).replies, i) else None
  }

  /** The offer last made for a file is recorded, or it was zero and the slot is still refused. */
  predicate Backed(s: State, sess: Session, i: nat, last: int)
    requires i < |sess.manifest|
  {
    if i in sess.offers then last == sess.offers[i]
    else last == 0 && i !in sess.slots && Reserve(s, sess.manifest[i]).Refused?
  }

  /** Index i of a resuming session is a file whose directories are not shaky. */
  predicate Steady(s: State, sid: Sid, i: nat) {
    && sid in s.sessions && s.sessions[sid].resume && i < |s.sessions[sid].manifest|
    && !s.sessions[sid].manifest[i].isDir && !ShakyParent(s.sessions[sid].manifest[i])
  }

  predicate Tracked(s: State, sid: Sid, i: nat, last: Option<int>) {
    Steady(s, sid, i) && last.Some? ==> Backed(s, s.sessions[sid], i, last.value)
  }

  function OfferIn(replies: seq<Reply>, i: nat): Option<int> {
    if replies != [] && replies[0].Offer? && replies[0].index == i then Some(replies[0].bytes) else None
  }

  /** What a step of a resuming session does to its offers and slots, as far as file i is concerned. */
  predicate Tracks(s: State, sess: Session, o: Outcome, sid: Sid, i: nat)
    requires i < |sess.manifest|
  {
    && sid in o.state.sessions
    && var sess' := o.state.sessions[sid];
       var offered := OfferIn(o.replies, i);
       && sess'.manifest == sess.manifest && sess'.resume == sess.resume
       && (if offered.Some? && i in sess'.offers then offered.value == sess'.offers[i]
           else if offered.Some? then offered.value == 0 && i !in sess'.slots && Reserve(s, sess.manifest[i]).Refused?
           else (i in sess'.offers <==> i in sess.offers) && (i in sess.offers ==> sess'.offers[i] == sess.offers[i]))
       && (i !in sess.slots && Reserve(s, sess.manifest[i]).Refused? ==> i !in sess'.slots)
  }

  lemma SlotForTracks(s: State, sid: Sid, sess: Session, q: nat, i: nat)
    requires q < |sess.manifest| && i < |sess.manifest|
    ensures var (s1, sess1, ok) := SlotFor(s, sid, sess, q);
            && sess1 == sess.(slots := sess1.slots)
            && (i !in sess.slots && Reserve(s, sess.manifest[i]).Refused? ==> i !in sess1.slots)
            && (!ok ==> sess1 == sess && q !in sess.slots && Reserve(s, sess.manifest[q]).Refused?)
  {
    hide Reserve;
  }

  lemma WorkTracks(s: State, sid: Sid, i: nat)
    requires Ready(s, sid) && OffersOk(s, s.sessions[sid]) && i < |s.sessions[sid].manifest|
    ensures Tracks(s, s.sessions[sid], AdvanceStep(s, sid, s.sessions[sid]), sid, i)
  {
    hide Reserve, SlotFor, Probe, PartialLen, OpenPart, RenamePart;
    var sess := s.sessions[sid];
    match sess.phase
    case QueryReserve(q) =>
      SlotForTracks(s, sid, sess, q, i);
      assert q in sess.offers ==> OfferAt(s, sess, q);
    case Reserving(q) => SlotForTracks(s, sid, sess, q, i);
    case Opening(q, offset) => OpenShape(s, sid, sess, q, offset); OpenIsSilent(s, sid, sess, q, offset, i);
    case Renaming(q) => RenameIsSilent(s, sid, sess, q, i);
    case _ =>
  }

  lemma OpenIsSilent(s: State, sid: Sid, sess: Session, q: nat, offset: nat, i: nat)
    requires q in sess.slots && q < |sess.manifest|
    ensures OfferIn(OpenPart(s, sid, sess, q, offset).replies, i) == None
  {
    hide Lower;
  }

  lemma RenameIsSilent(s: State, sid: Sid, sess: Session, q: nat, i: nat)
    requires q in sess.slots && q < |sess.manifest| && sess.phase == Renaming(q)
    ensures var o := RenamePart(s, sid, sess, q);
            && OfferIn(o.replies, i) == None && sid in o.state.sessions
            && o.state.sessions[sid] == sess.(phase := o.state.sessions[sid].phase)
  {
    hide RemovePart;
  }

  lemma FrameTracks(h: Hash, s: State, sid: Sid, frame: Frame, i: nat)
    requires Ready(s, sid)
    ensures var o := FrameStep(h, s, sid, s.sessions[sid], frame);
            SameButPhase(s.sessions[sid], o, sid) && (Steady(s, sid, i) ==> OfferIn(o.replies, i) == None)
  {
    hide ShakyParent, IdleFrame, DirFrame, BodyFrame;
    var sess := s.sessions[sid];
    if sess.phase.Idle? { IdleTracks(s, sid, frame, i); }
    else if sess.phase.DirEntry? { DirTracks(s, sid, frame, i); }
    else if sess.phase.Body? { BodyTracks(h, s, sid, frame, i); }
  }

  /** The session is the same but for its phase and what is completed. */
  predicate SameButPhase(sess: Session, o: Outcome, sid: Sid) {
    && sid in o.state.sessions
    && o.state.sessions[sid] == sess.(phase := o.state.sessions[sid].phase, completed := o.state.sessions[sid].completed)
  }

  lemma IdleTracks(s: State, sid: Sid, frame: Frame, i: nat)
    requires Ready(s, sid)
    ensures var o := IdleFrame(s, sid, s.sessions[sid], frame);
            SameButPhase(s.sessions[sid], o, sid) && (Steady(s, sid, i) ==> OfferIn(o.replies, i) == None)
  {
    hide ShakyParent;
  }

  lemma DirTracks(s: State, sid: Sid, frame: Frame, i: nat)
    requires Ready(s, sid) && s.sessions[sid].phase.DirEntry?
    ensures var o := DirFrame(s, sid, s.sessions[sid], s.sessions[sid].phase.index, frame);
            SameButPhase(s.sessions[sid], o, sid) && OfferIn(o.replies, i) == None
  {
    hide CreateDirectory;
  }

  lemma BodyTracks(h: Hash, s: State, sid: Sid, frame: Frame, i: nat)
    requires Ready(s, sid) && s.sessions[sid].phase.Body?
    ensures var o := BodyFrame(h, s, sid, s.sessions[sid], frame);
            SameButPhase(s.sessions[sid], o, sid) && OfferIn(o.replies, i) == None
  {
    hide EqualFold, RemovePart;
  }

  /** What was offered stays true, or stays refused, in every step of every session. */
  lemma StepTracks(h: Hash, s: State, e: Event, sid: Sid, i: nat, last: Option<int>)
    requires Inv(h, s) && WellNamed(s) && Tracked(s, sid, i, last) && (sid !in s.sessions ==> last == None)
    ensures var s' := Step(h, s, e).state;
            var offered := OfferedBy(h, s, e, sid, i);
            && Tracked(s', sid, i, if offered.Some? then offered else last)
            && (sid !in s'.sessions ==> sid !in s.sessions && offered == None)
  {
    hide Inv, WellNamed, AdvanceStep, FrameStep, BodyData, DropStep, ShakyParent, Reserve;
    var s' := Step(h, s, e).state;
    if sid !in s.sessions {
      if e.sid != sid { NewSessionsAreOwn(h, s, e, sid); }
    } else {
      StepTouches(h, s, e);
      if e.sid == sid { OwnTracks(h, s, e, i); }
      if Steady(s, sid, i) && Reserve(s, s.sessions[sid].manifest[i]).Refused? {
        RefusalStands(h, s, e, s.sessions[sid].manifest[i]);
      }
    }
  }

  lemma OwnTracks(h: Hash, s: State, e: Event, i: nat)
    requires Inv(h, s) && e.sid in s.sessions
    ensures var o := Step(h, s, e);
            && e.sid in o.state.sessions && o.state.sessions[e.sid].manifest == s.sessions[e.sid].manifest
            && o.state.sessions[e.sid].resume == s.sessions[e.sid].resume
            && (Steady(s, e.sid, i) ==> Tracks(s, s.sessions[e.sid], o, e.sid, i))
  {
    hide Inv, AdvanceStep, FrameStep, ShakyParent, Reserve;
    Facts(h, s, e.sid);
    SessionKeeps(h, s, e);
    if Steady(s, e.sid, i) && Ready(s, e.sid) {
      if e.Advance? { WorkTracks(s, e.sid, i); }
      if e.Recv? { FrameTracks(h, s, e.sid, e.frame, i); }
    }
  }

  lemma SessionKeeps(h: Hash, s: State, e: Event)
    requires e.sid in s.sessions
    ensures var s' := Step(h, s, e).state;
            && e.sid in s'.sessions && s'.sessions[e.sid].manifest == s.sessions[e.sid].manifest
            && s'.sessions[e.sid].resume == s.sessions[e.sid].resume
  {
    hide AdvanceStep, FrameStep;
    if Ready(s, e.sid) {
      if e.Advance? { WorkKeepsManifest(s, e.sid); }
      if e.Recv? { FrameTracks(h, s, e.sid, e.frame, 0); }
    }
  }

  lemma WorkKeepsManifest(s: State, sid: Sid)
    requires Ready(s, sid)
    ensures var s' := AdvanceStep(s, sid, s.sessions[sid]).state;
            sid in s'.sessions && s'.sessions[sid].manifest == s.sessions[sid].manifest && s'.sessions[sid].resume == s.sessions[sid].resume
  {
    hide SlotFor, Probe, PartialLen, OpenPart, RenamePart;
    var sess := s.sessions[sid];
    match sess.phase
    case QueryReserve(q) => SlotForTracks(s, sid, sess, q, q);
    case Reserving(q) => SlotForTracks(s, sid, sess, q, q);
    case Opening(q, offset) => OpenShape(s, sid, sess, q, offset);
    case Renaming(q) => RenameIsSilent(s, sid, sess, q, q);
    case _ =>
  }

  lemma {:induction false} RunTracks(h: Hash, s: State, events: seq<Event>, sid: Sid, i: nat)
    requires Initial(s) && AllAdmissible(events)
    ensures var s', last := Run(h, s, events), LastOffer(h, s, events, sid, i);
            && Inv(h, s') && WellNamed(s') && Tracked(s', sid, i, last) && (sid !in s'.sessions ==> last == None)
  {
    hide Inv, WellNamed, Step, ShakyParent, Reserve, OfferedBy;
    RunKeepsInv(h, s, events);
    InitialIsFine(h, s);
    RunStaysNamed(h, s, events);
    if events != [] {
      var before, e := events[..|events| - 1], events[|events| - 1];
      RunTracks(h, s, before, sid, i);
      StepTracks(h, Run(h, s, before), e, sid, i, LastOffer(h, s, before, sid, i));
    }
  }

  lemma InitialIsFine(h: Hash, s: State)
    requires Initial(s)
    ensures Inv(h, s) && WellNamed(s)
  {
  }

  /**
   * Offset agreement at the receiver. In every run, if no directory of the entry's path is shaky, a resuming
   * session opens the file at the offset it offered last, whatever ran in between and however it was asked. (With a
   * directory in place of the part file, no offset is used: the file is refused.)
   */
  lemma OpensAtLastOffer(h: Hash, s: State, events: seq<Event>, sid: Sid, i: nat)
    requires Initial(s) && AllAdmissible(events)
    requires var s' := Run(h, s, events); sid in s'.sessions && s'.sessions[sid].resume && Opens(s', sid)
    requires i == Run(h, s, events).sessions[sid].phase.index && LastOffer(h, s, events, sid, i).Some?
    requires i < |Run(h, s, events).sessions[sid].manifest| && !ShakyParent(Run(h, s, events).sessions[sid].manifest[i])
    ensures Run(h, s, events).sessions[sid].phase.offset == LastOffer(h, s, events, sid, i).value
  {
    hide Inv, WellNamed, Step, Run, ShakyParent, Reserve;
    var s' := Run(h, s, events);
    RunTracks(h, s, events, sid, i);
    Facts(h, s', sid);
    SlotFacts(h, s', sid, i);
    assert i in s'.sessions[sid].offers ==> OfferAt(s', s'.sessions[sid], i);
  }
}
