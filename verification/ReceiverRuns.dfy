/** The receiver's invariant over every step and every run, and what follows from it. */
module ReceiverRuns {
  import opened Basics
  import opened Names
  import opened Receiver
  import opened ReceiverSafety

  // ----- the session's own facts --------------------------------------------

  lemma Facts(h: Hash, s: State, sid: Sid)
    requires Inv(h, s) && sid in s.sessions
    ensures PhaseOk(h, s, s.sessions[sid]) && OffersOk(s, s.sessions[sid])
  {
    assert SessOk(h, s, s.sessions[sid]);
  }

  lemma CleanFacts(h: Hash, s: State, sid: Sid)
    requires Inv(h, s) && sid in s.sessions
    ensures CleanManifest(s.sessions[sid].manifest)
  {
    assert SessOk(h, s, s.sessions[sid]);
  }

  /** In a phase that works on slot i of a running session, the slot is live. */
  lemma WorkingIsLive(h: Hash, s: State, sid: Sid, i: nat)
    requires Inv(h, s) && sid in s.sessions && i in s.sessions[sid].slots && !s.sessions[sid].phase.Ended?
    ensures Live(s, sid, i) && DestOf(s, sid, i) == s.sessions[sid].slots[i]
    ensures SlotOk(s, s.sessions[sid], i)
  {
    Facts(h, s, sid);
    SlotFacts(h, s, sid, i);
  }

  // ----- one lemma per step --------------------------------------------------

  /** A probe changes no answer: asked again, it says the same. */
  lemma ProbeIsStable(files: Files, d: Path, meta: FileMeta)
    ensures PartialLen(Probe(files, d, meta), d, meta) == PartialLen(files, d, meta)
    ensures var n := PartialLen(files, d, meta);
            n > 0 ==> Tmp(d) in Probe(files, d, meta) && |Probe(files, d, meta)[Tmp(d)]| == n < meta.size
                      && SidecarMatches(Probe(files, d, meta), d, meta)
  {
  }

  lemma ProbeKeepsInv(h: Hash, s: State, sid: Sid)
    requires Inv(h, s) && sid in s.sessions && PhaseInRange(s.sessions[sid])
    requires s.sessions[sid].phase.QueryProbe? || s.sessions[sid].phase.Probing?
    ensures var s' := AdvanceStep(s, sid, s.sessions[sid]).state; Inv(h, s') && Preserves(s, s')
  {
    hide Inv, SessOk, SlotOk, Legal, TempName, Preserves, FitsEntry;
    var sess := s.sessions[sid];
    var i := sess.phase.index;
    var d, meta := sess.slots[i], sess.manifest[i];
    Facts(h, s, sid);
    WorkingIsLive(h, s, sid, i);
    ProbeIsStable(s.files, d, meta);
    var s' := AdvanceStep(s, sid, sess).state;
    var sess' := s'.sessions[sid];
    assert OnlyTemps(s, s', d);
    if i in sess.offers { assert OfferAt(s, sess, i); }
    WorkOnPart(h, s, s', sid, i, sess');
  }

  /** A probe that finds a directory: it is taken for a partial, or removed, or left. */
  lemma ProbeDirKeepsInv(h: Hash, s: State, sid: Sid, size: nat)
    requires Inv(h, s) && Ready(s, sid)
    ensures var s' := ProbeDirStep(s, sid, s.sessions[sid], size).state; Inv(h, s') && Preserves(s, s')
  {
    hide Inv, SessOk, SlotOk, Legal, TempName, FitsEntry, EqualFold, TrimSpace;
    var sess := s.sessions[sid];
    var s' := ProbeDirStep(s, sid, sess, size).state;
    if s' != s {
      var i := sess.phase.index;
      var d, sess' := sess.slots[i], s'.sessions[sid];
      Facts(h, s, sid);
      WorkingIsLive(h, s, sid, i);
      assert OnlyTemps(s, s', d);
      if i in sess.offers { assert OfferAt(s, sess, i); }
      WorkOnPart(h, s, s', sid, i, sess');
    }
  }

  lemma OpenKeepsInv(h: Hash, s: State, sid: Sid)
    requires Inv(h, s) && sid in s.sessions && PhaseInRange(s.sessions[sid]) && s.sessions[sid].phase.Opening?
    ensures var s' := AdvanceStep(s, sid, s.sessions[sid]).state; Inv(h, s') && Preserves(s, s')
  {
    hide Inv, SessOk, SlotOk, Legal, TempName, Preserves, FitsEntry, PartialLen, Lower;
    var sess := s.sessions[sid];
    var i, offset := sess.phase.index, sess.phase.offset;
    var d := sess.slots[i];
    Facts(h, s, sid);
    WorkingIsLive(h, s, sid, i);
    var s' := OpenPart(s, sid, sess, i, offset).state;
    var sess' := s'.sessions[sid];
    OpenTouchesTemps(s, sid, sess, i, offset);
    OpenPhaseOk(h, s, sid, sess, i, offset);
    if i in sess.offers { assert OfferAt(s, sess, i); }
    hide PhaseOk, OpenPart;
    OpenShape(s, sid, sess, i, offset);
    WorkOnPart(h, s, s', sid, i, sess');
  }

  lemma OpenPhaseOk(h: Hash, s: State, sid: Sid, sess: Session, i: nat, offset: nat)
    requires PhaseOk(h, s, sess) && sess.phase == Opening(i, offset) && i < |sess.manifest| && i in sess.slots
    requires Tmp(sess.slots[i]) != Sidecar(sess.slots[i])
    ensures var s' := OpenPart(s, sid, sess, i, offset).state; PhaseOk(h, s', s'.sessions[sid])
  {
    hide FitsEntry, Lower;
  }

  lemma OpenShape(s: State, sid: Sid, sess: Session, i: nat, offset: nat)
    requires sess.phase == Opening(i, offset) && i < |sess.manifest| && i in sess.slots
    ensures var s' := OpenPart(s, sid, sess, i, offset).state;
            && s'.claims == s.claims && s'.delivered == s.delivered
            && s'.sessions == s.sessions[sid := s'.sessions[sid]]
            && s'.sessions[sid] == sess.(phase := s'.sessions[sid].phase)
            && ((s'.sessions[sid].phase.Body? && s'.sessions[sid].phase.index == i) || s'.sessions[sid].phase.Ended?)
  {
    hide Lower;
  }

  lemma OpenTouchesTemps(s: State, sid: Sid, sess: Session, i: nat, offset: nat)
    requires i in sess.slots && i < |sess.manifest|
    ensures OnlyTemps(s, OpenPart(s, sid, sess, i, offset).state, sess.slots[i])
    ensures Tmp(sess.slots[i]) != Sidecar(sess.slots[i])
  {
    TempPathsDiffer(sess.slots[i], sess.slots[i]);
  }

  lemma DataKeepsInv(h: Hash, s: State, sid: Sid, bytes: Bytes)
    requires Inv(h, s) && sid in s.sessions && PhaseInRange(s.sessions[sid]) && s.sessions[sid].phase.Body?
    requires 0 < |bytes| <= s.sessions[sid].phase.left
    ensures var s' := BodyData(s, sid, s.sessions[sid], bytes).state; Inv(h, s') && Preserves(s, s')
  {
    hide Inv, SessOk, SlotOk, Legal, TempName, Preserves, FitsEntry;
    var sess := s.sessions[sid];
    var i := sess.phase.index;
    Facts(h, s, sid);
    WorkingIsLive(h, s, sid, i);
    TempPathsDiffer(sess.slots[i], sess.slots[i]);
    var s' := BodyData(s, sid, sess, bytes).state;
    assert OnlyTemps(s, s', sess.slots[i]);
    if i in sess.offers { assert OfferAt(s, sess, i); }
    WorkOnPart(h, s, s', sid, i, s'.sessions[sid]);
  }

  /** Giving up on file i: the session ends and its partial is removed. */
  lemma DiscardKeepsInv(h: Hash, s: State, sid: Sid, i: nat)
    requires Inv(h, s) && sid in s.sessions && i in s.sessions[sid].slots
    requires var sess := s.sessions[sid]; i !in sess.completed && (sess.phase.Body? || sess.phase.Renaming?) && sess.phase.index == i
    ensures var sess := s.sessions[sid];
            var s' := Refuse(Removed(s, sess.slots[i]), sid, sess, i).state;
            Inv(h, s') && Preserves(s, s')
  {
    hide Inv, SessOk, SlotOk, Legal, TempName, Preserves, FitsEntry;
    var sess := s.sessions[sid];
    Facts(h, s, sid);
    WorkingIsLive(h, s, sid, i);
    var s' := Refuse(Removed(s, sess.slots[i]), sid, sess, i).state;
    assert OnlyTemps(s, s', sess.slots[i]);
    if i in sess.offers { assert OfferAt(s, sess, i); }
    WorkOnPart(h, s, s', sid, i, s'.sessions[sid]);
  }

  lemma RenameStepKeepsInv(h: Hash, s: State, sid: Sid)
    requires Inv(h, s) && sid in s.sessions && PhaseInRange(s.sessions[sid]) && s.sessions[sid].phase.Renaming?
    ensures var s' := AdvanceStep(s, sid, s.sessions[sid]).state; Inv(h, s') && Preserves(s, s')
  {
    hide Inv, SessOk, Legal, TempName, Preserves, FitsEntry;
    var sess := s.sessions[sid];
    var i := sess.phase.index;
    var d, meta := sess.slots[i], sess.manifest[i];
    Facts(h, s, sid);
    WorkingIsLive(h, s, sid, i);
    var s' := AdvanceStep(s, sid, sess).state;
    if d in s.dirs {
      DiscardKeepsInv(h, s, sid, i);
    } else {
      RenameKeepsInv(h, s, s', sid, i, d, meta);
    }
  }

  lemma CleanKeepsInv(h: Hash, s: State, sid: Sid)
    requires Inv(h, s) && sid in s.sessions && PhaseInRange(s.sessions[sid]) && s.sessions[sid].phase.Cleaning?
    ensures var s' := AdvanceStep(s, sid, s.sessions[sid]).state; Inv(h, s') && Preserves(s, s')
  {
    hide Inv, SessOk, SlotOk, Legal, TempName, Preserves, FitsEntry;
    var sess := s.sessions[sid];
    var i := sess.phase.index;
    Facts(h, s, sid);
    WorkingIsLive(h, s, sid, i);
    var s' := AdvanceStep(s, sid, sess).state;
    assert OnlyTemps(s, s', sess.slots[i]);
    if i in sess.offers { assert OfferAt(s, sess, i); }
    WorkOnPart(h, s, s', sid, i, s'.sessions[sid]);
  }

  /** A session that takes up a file, asked about it or sent it. */
  predicate Slotting(s: State, sid: Sid) {
    Ready(s, sid) && (s.sessions[sid].phase.QueryReserve? || s.sessions[sid].phase.Reserving?)
  }

  /** The slot is held and nothing is asked of the disk. */
  lemma HeldSlotKeepsInv(h: Hash, s: State, sid: Sid)
    requires Inv(h, s) && Slotting(s, sid)
    requires var sess := s.sessions[sid]; sess.phase.index in sess.slots && sess.phase.Reserving? && !sess.resume
    ensures var s' := AdvanceStep(s, sid, s.sessions[sid]).state; Inv(h, s') && Preserves(s, s')
  {
    hide Inv, SessOk, SlotOk, Legal, TempName, Preserves, FitsEntry;
    var sess := s.sessions[sid];
    var i := sess.phase.index;
    Facts(h, s, sid);
    WorkingIsLive(h, s, sid, i);
    var s' := AdvanceStep(s, sid, sess).state;
    assert OnlyTemps(s, s', sess.slots[i]);
    assert forall j | j in sess.offers :: OfferAt(s, sess, j);
    WorkOnPart(h, s, s', sid, i, s'.sessions[sid]);
  }

  /** The slot is held, or is refused. */
  lemma NoSlotKeepsInv(h: Hash, s: State, sid: Sid)
    requires Inv(h, s) && Slotting(s, sid)
    requires var sess := s.sessions[sid];
             && (sess.phase.index in sess.slots || Reserve(s, sess.manifest[sess.phase.index]).Refused?)
             && (sess.phase.index in sess.slots && sess.phase.Reserving? ==> sess.resume)
    ensures var s' := AdvanceStep(s, sid, s.sessions[sid]).state; Inv(h, s') && Preserves(s, s')
  {
    hide Inv, SessOk, SlotOk, Legal, TempName, Preserves, FitsEntry, Reserve;
    Facts(h, s, sid);
    var s' := AdvanceStep(s, sid, s.sessions[sid]).state;
    ReserveGrows(s, s.sessions[sid].manifest[s.sessions[sid].phase.index]);
    PhaseChange(h, s, s', sid, s'.sessions[sid].phase);
  }

  /** A new slot is granted. */
  lemma NewSlotKeepsInv(h: Hash, s: State, sid: Sid)
    requires Inv(h, s) && Slotting(s, sid)
    requires var sess := s.sessions[sid];
             sess.phase.index !in sess.slots && Reserve(s, sess.manifest[sess.phase.index]).Granted?
    ensures var s' := AdvanceStep(s, sid, s.sessions[sid]).state; Inv(h, s') && Preserves(s, s')
  {
    hide Inv, SessOk, SlotOk, Legal, TempName, Preserves, FitsEntry, Reserve;
    var sess := s.sessions[sid];
    var i := sess.phase.index;
    Facts(h, s, sid);
    CleanFacts(h, s, sid);
    GrantedIsFree(s, sess.manifest[i]);
    ReserveGrows(s, sess.manifest[i]);
    var s' := AdvanceStep(s, sid, sess).state;
    ReserveKeepsInv(h, s, s', sid, i, Reserve(s, sess.manifest[i]).dest, s'.sessions[sid].phase);
  }

  lemma SlotStepKeepsInv(h: Hash, s: State, sid: Sid)
    requires Inv(h, s) && Slotting(s, sid)
    ensures var s' := AdvanceStep(s, sid, s.sessions[sid]).state; Inv(h, s') && Preserves(s, s')
  {
    hide Inv, Preserves, Reserve, AdvanceStep;
    var sess := s.sessions[sid];
    var i := sess.phase.index;
    if i in sess.slots && sess.phase.Reserving? && !sess.resume {
      HeldSlotKeepsInv(h, s, sid);
    } else if i in sess.slots || Reserve(s, sess.manifest[i]).Refused? {
      NoSlotKeepsInv(h, s, sid);
    } else {
      NewSlotKeepsInv(h, s, sid);
    }
  }

  lemma AdvanceKeepsInv(h: Hash, s: State, sid: Sid)
    requires Inv(h, s) && Ready(s, sid)
    ensures var s' := AdvanceStep(s, sid, s.sessions[sid]).state; Inv(h, s') && Preserves(s, s')
  {
    hide Inv, SessOk, SlotOk, Legal, TempName, FitsEntry;
    match s.sessions[sid].phase
    case QueryReserve(_) => SlotStepKeepsInv(h, s, sid);
    case Reserving(_) => SlotStepKeepsInv(h, s, sid);
    case QueryProbe(_) => ProbeKeepsInv(h, s, sid);
    case Probing(_) => ProbeKeepsInv(h, s, sid);
    case Opening(_, _) => OpenKeepsInv(h, s, sid);
    case Renaming(_) => RenameStepKeepsInv(h, s, sid);
    case Cleaning(_) => CleanKeepsInv(h, s, sid);
    case _ =>
  }

  lemma DirFrameKeepsInv(h: Hash, s: State, sid: Sid, frame: Frame)
    requires Inv(h, s) && Ready(s, sid) && s.sessions[sid].phase.DirEntry?
    ensures var s' := DirFrame(s, sid, s.sessions[sid], s.sessions[sid].phase.index, frame).state;
            Inv(h, s') && Preserves(s, s')
  {
    hide Inv, SessOk, SlotOk, Legal, TempName, Preserves, FitsEntry, CreateDirectory;
    var sess := s.sessions[sid];
    var i := sess.phase.index;
    var s' := DirFrame(s, sid, sess, i, frame).state;
    Facts(h, s, sid);
    CreateGrows(s, sess.manifest[i].relPath);
    if s'.sessions[sid].phase.Idle? {
      DirDoneKeepsInv(h, s, s', sid, i);
    } else {
      PhaseChange(h, s, s', sid, Ended(false));
    }
  }

  lemma BodyFrameKeepsInv(h: Hash, s: State, sid: Sid, frame: Frame)
    requires Inv(h, s) && Ready(s, sid) && s.sessions[sid].phase.Body? && s.sessions[sid].phase.left == 0
    ensures var s' := BodyFrame(h, s, sid, s.sessions[sid], frame).state; Inv(h, s') && Preserves(s, s')
  {
    hide Inv, SessOk, SlotOk, Legal, TempName;
    var sess := s.sessions[sid];
    var b := sess.phase;
    var i := b.index;
    Facts(h, s, sid);
    var s' := BodyFrame(h, s, sid, sess, frame).state;
    if frame.Chunk? && 0 <= frame.length && b.got + frame.length <= sess.manifest[i].size {
      PhaseChange(h, s, s', sid, s'.sessions[sid].phase);
    } else if frame.Progress? {
    } else if frame.FileEnd? && b.got == sess.manifest[i].size && EqualFold(h(b.hashed), sess.manifest[i].sha) {
      PhaseChange(h, s, s', sid, Renaming(i));
    } else {
      DiscardKeepsInv(h, s, sid, i);
    }
  }

  lemma IdleFrameKeepsInv(h: Hash, s: State, sid: Sid, frame: Frame)
    requires Inv(h, s) && Ready(s, sid) && s.sessions[sid].phase.Idle?
    ensures var s' := IdleFrame(s, sid, s.sessions[sid], frame).state; Inv(h, s') && Preserves(s, s')
  {
    hide Inv, SessOk, SlotOk, Legal, TempName, FitsEntry;
    var sess := s.sessions[sid];
    var s' := IdleFrame(s, sid, sess, frame).state;
    match frame
    case SessionEnd => IdleTo(h, s, s', sid, s'.sessions[sid].phase);
    case Progress =>
    case ResumeQuery(i) =>
      if sess.resume && 0 <= i < |sess.manifest| && !sess.manifest[i].isDir { IdleTo(h, s, s', sid, QueryReserve(i)); }
    case FileHeader(i) => IdleTo(h, s, s', sid, s'.sessions[sid].phase);
    case _ => IdleTo(h, s, s', sid, Ended(false));
  }

  /** An idle session takes up index i or ends. */
  lemma IdleTo(h: Hash, s: State, s': State, sid: Sid, phase: Phase)
    requires Inv(h, s) && sid in s.sessions && s.sessions[sid].phase.Idle?
    requires s' == With(s, sid, s.sessions[sid].(phase := phase))
    requires var sess := s.sessions[sid];
             || phase.Ended?
             || (phase.QueryReserve? && phase.index < |sess.manifest| && !sess.manifest[phase.index].isDir && sess.resume)
             || (phase.Reserving? && phase.index < |sess.manifest| && phase.index !in sess.completed && !sess.manifest[phase.index].isDir)
             || (phase.DirEntry? && phase.index < |sess.manifest| && phase.index !in sess.completed && sess.manifest[phase.index].isDir)
    ensures Inv(h, s') && Preserves(s, s')
  {
    hide Inv, SessOk, SlotOk, Legal, TempName, Preserves, FitsEntry;
    Facts(h, s, sid);
    PhaseChange(h, s, s', sid, phase);
  }

  lemma DropKeepsInv(h: Hash, s: State, sid: Sid)
    requires Inv(h, s) && Ready(s, sid)
    ensures var s' := DropStep(s, sid, s.sessions[sid]).state; Inv(h, s') && Preserves(s, s')
  {
    hide Inv, SessOk, SlotOk, Legal, TempName, FitsEntry;
    Facts(h, s, sid);
    var s' := DropStep(s, sid, s.sessions[sid]).state;
    if s' != s {
      PhaseChange(h, s, s', sid, Ended(false));
    }
  }

  lemma StartKeepsInv(h: Hash, s: State, sid: Sid, manifest: seq<FileMeta>, resume: bool)
    requires Inv(h, s) && sid !in s.sessions && CleanManifest(manifest)
    ensures var s' := Step(h, s, Start(sid, manifest, resume)).state; Inv(h, s') && Preserves(s, s')
  {
    hide SessOk;
    var s' := Step(h, s, Start(sid, manifest, resume)).state;
    forall a | a in s'.sessions && a != sid ensures SessOk(h, s', s'.sessions[a]) {
      ReservedOther(h, s, s', s.sessions[a]);
    }
    FreshSession(h, s', manifest, resume);
    StartSlots(s, s', sid);
  }

  lemma FreshSession(h: Hash, s: State, manifest: seq<FileMeta>, resume: bool)
    requires CleanManifest(manifest)
    ensures SessOk(h, s, Session(manifest, resume, map[], {}, {}, map[], if manifest == [] then Ended(false) else Idle))
  {
  }

  lemma StartSlots(s: State, s': State, sid: Sid)
    requires sid !in s.sessions && s'.sessions.Keys == s.sessions.Keys + {sid} && s'.sessions[sid].slots == map[]
    requires forall a | a in s.sessions :: s'.sessions[a] == s.sessions[a]
    requires s'.claims == s.claims
    ensures Distinct(s) ==> Distinct(s')
    ensures ClaimsOwned(s) ==> ClaimsOwned(s')
  {
    assert forall a, i :: Live(s, a, i) <==> Live(s', a, i);
    if ClaimsOwned(s) {
      forall t | t in s'.claims ensures exists a, i :: Live(s', a, i) && t == Tmp(DestOf(s', a, i)) {
        var a, i :| Live(s, a, i) && t == Tmp(DestOf(s, a, i));
        assert Live(s', a, i) && t == Tmp(DestOf(s', a, i));
      }
    }
  }

  // ----- what a step touches --------------------------------------------------

  /** The destination whose paths the session of this event is working on. */
  function WorkingOn(s: State, sid: Sid): Option<Path> {
    if !Ready(s, sid) then None
    else
      var sess := s.sessions[sid];
      match sess.phase
      case QueryProbe(i) => Some(sess.slots[i])
      case Probing(i) => Some(sess.slots[i])
      case Opening(i, _) => Some(sess.slots[i])
      case Body(i, _, _, _, _) => Some(sess.slots[i])
      case Renaming(i) => Some(sess.slots[i])
      case Cleaning(i) => Some(sess.slots[i])
      case _ => None
  }

  /** From s to s', session sid wrote at most the paths of the slot it was working on. */
  ghost predicate Touches(s: State, s': State, sid: Sid) {
    && (match WorkingOn(s, sid)
        case None => s'.files == s.files && s'.delivered == s.delivered && DirsGrow(s, s')
        case Some(d) =>
          if s.sessions[sid].phase.Renaming? then
            && OnlyPaths(s, s', d)
            && s'.delivered in {s.delivered, s.delivered[d := s.sessions[sid].manifest[s.sessions[sid].phase.index]]}
          else OnlyTemps(s, s', d) && s'.delivered == s.delivered)
    && (forall a | a in s.sessions && a != sid :: a in s'.sessions && s'.sessions[a] == s.sessions[a])
    && (sid in s.sessions ==> s'.sessions.Keys == s.sessions.Keys)
  }

  lemma SlotForTouches(s: State, sid: Sid, i: nat)
    requires Ready(s, sid) && i < |s.sessions[sid].manifest|
    ensures var (s1, sess1, ok) := SlotFor(s, sid, s.sessions[sid], i);
            s1.files == s.files && s1.delivered == s.delivered && s1.sessions == s.sessions && DirsGrow(s, s1)
  {
    hide Reserve;
    ReserveGrows(s, s.sessions[sid].manifest[i]);
  }

  lemma ProbeTouches(files: Files, d: Path, meta: FileMeta)
    ensures forall p | p != Tmp(d) && p != Sidecar(d) :: SameAt(files, Probe(files, d, meta), p)
  {
    hide HasPartial, SidecarMatches;
  }

  lemma RenameTouches(s: State, sid: Sid, i: nat)
    requires Ready(s, sid) && s.sessions[sid].phase == Renaming(i)
    ensures Touches(s, RenamePart(s, sid, s.sessions[sid], i).state, sid)
  {
  }

  lemma OpenTouches(s: State, sid: Sid, i: nat, offset: nat)
    requires Ready(s, sid) && s.sessions[sid].phase == Opening(i, offset)
    ensures Touches(s, OpenPart(s, sid, s.sessions[sid], i, offset).state, sid)
  {
    OpenTouchesTemps(s, sid, s.sessions[sid], i, offset);
    OpenShape(s, sid, s.sessions[sid], i, offset);
  }

  lemma AdvanceTouches(s: State, sid: Sid)
    requires Ready(s, sid)
    ensures Touches(s, AdvanceStep(s, sid, s.sessions[sid]).state, sid)
  {
    hide SlotFor, PartialLen, Probe, OpenPart, RenamePart;
    var sess := s.sessions[sid];
    match sess.phase
    case QueryReserve(i) => SlotForTouches(s, sid, i);
    case Reserving(i) => SlotForTouches(s, sid, i);
    case QueryProbe(i) => ProbeTouches(s.files, sess.slots[i], sess.manifest[i]);
    case Probing(i) => ProbeTouches(s.files, sess.slots[i], sess.manifest[i]);
    case Opening(i, offset) => OpenTouches(s, sid, i, offset);
    case Renaming(i) => RenameTouches(s, sid, i);
    case _ =>
  }

  lemma FrameTouches(h: Hash, s: State, sid: Sid, frame: Frame)
    requires Ready(s, sid)
    ensures Touches(s, FrameStep(h, s, sid, s.sessions[sid], frame).state, sid)
  {
    hide IdleFrame, DirFrame, BodyFrame;
    var phase := s.sessions[sid].phase;
    if phase.Body? && phase.left == 0 { BodyFrameTouches(h, s, sid, frame); }
    else if phase.Idle? { IdleTouches(s, sid, frame); }
    else if phase.DirEntry? { DirTouches(s, sid, frame); }
  }

  lemma IdleTouches(s: State, sid: Sid, frame: Frame)
    requires Ready(s, sid) && s.sessions[sid].phase.Idle?
    ensures Touches(s, IdleFrame(s, sid, s.sessions[sid], frame).state, sid)
  {
  }

  lemma DirTouches(s: State, sid: Sid, frame: Frame)
    requires Ready(s, sid) && s.sessions[sid].phase.DirEntry?
    ensures Touches(s, DirFrame(s, sid, s.sessions[sid], s.sessions[sid].phase.index, frame).state, sid)
  {
    hide CreateDirectory;
    var sess := s.sessions[sid];
    CreateGrows(s, sess.manifest[sess.phase.index].relPath);
  }

  lemma BodyFrameTouches(h: Hash, s: State, sid: Sid, frame: Frame)
    requires Ready(s, sid) && s.sessions[sid].phase.Body? && s.sessions[sid].phase.left == 0
    ensures Touches(s, BodyFrame(h, s, sid, s.sessions[sid], frame).state, sid)
  {
    hide EqualFold;
  }

  lemma DataTouches(s: State, sid: Sid, bytes: Bytes)
    requires Ready(s, sid) && s.sessions[sid].phase.Body? && |bytes| <= s.sessions[sid].phase.left
    ensures Touches(s, BodyData(s, sid, s.sessions[sid], bytes).state, sid)
  {
  }

  lemma DropTouches(s: State, sid: Sid)
    requires Ready(s, sid)
    ensures Touches(s, DropStep(s, sid, s.sessions[sid]).state, sid)
  {
  }

  lemma ProbeDirTouches(s: State, sid: Sid, size: nat)
    requires Ready(s, sid)
    ensures Touches(s, ProbeDirStep(s, sid, s.sessions[sid], size).state, sid)
  {
    hide SidecarMatches;
  }

  /** A step writes only the paths of the slot its own session is working on. */
  lemma StepTouches(h: Hash, s: State, e: Event)
    ensures Touches(s, Step(h, s, e).state, e.sid)
  {
    hide AdvanceStep, FrameStep, BodyData, DropStep, ProbeDirStep;
    match e
    case Start(sid, _, _) =>
    case Release(sid, _) =>
    case Drop(sid) => if Ready(s, sid) { DropTouches(s, sid); }
    case Data(sid, bytes) =>
      if Ready(s, sid) && s.sessions[sid].phase.Body? && 0 < |bytes| <= s.sessions[sid].phase.left {
        DataTouches(s, sid, bytes);
      }
    case Recv(sid, frame) => if Ready(s, sid) { FrameTouches(h, s, sid, frame); }
    case Advance(sid) => if Ready(s, sid) { AdvanceTouches(s, sid); }
    case ProbeDir(sid, size) => if Ready(s, sid) { ProbeDirTouches(s, sid, size); }
  }

  /** Another session's step leaves a session, its claims and the temporaries of its slots alone. */
  lemma StepFrame(h: Hash, s: State, e: Event, a: Sid, i: nat)
    requires Inv(h, s) && Live(s, a, i) && e.sid != a
    ensures var s' := Step(h, s, e).state;
            && Live(s', a, i) && s'.sessions[a] == s.sessions[a]
            && Untouched(s, s', DestOf(s, a, i)) && SameAt(s.files, s'.files, DestOf(s, a, i))
  {
    hide Inv, Step, Legal, TempName, SessOk;
    StepTouches(h, s, e);
    match WorkingOn(s, e.sid) {
      case None =>
      case Some(d) =>
        var j := s.sessions[e.sid].phase.index;
        WorkingIsLive(h, s, e.sid, j);
        SlotFacts(h, s, a, i);
        DistinctDests(h, s, a, i, e.sid, j);
        ApartIsSame(s, Step(h, s, e).state, d, DestOf(s, a, i));
    }
  }

  lemma DistinctDests(h: Hash, s: State, a: Sid, i: nat, b: Sid, j: nat)
    requires Inv(h, s) && Live(s, a, i) && Live(s, b, j) && (a != b || i != j)
    ensures DestOf(s, a, i) != DestOf(s, b, j)
  {
    hide SessOk;
  }

  // ----- every step, every run -----------------------------------------------

  /** Every step of every session keeps the invariant and every file that is not a temporary. */
  lemma StepKeepsInv(h: Hash, s: State, e: Event)
    requires Inv(h, s) && Admissible(e)
    ensures var s' := Step(h, s, e).state; Inv(h, s') && Preserves(s, s')
  {
    hide Inv, SessOk, SlotOk, Legal, TempName, FitsEntry;
    match e
    case Start(sid, manifest, resume) =>
      if sid !in s.sessions { StartKeepsInv(h, s, sid, manifest, resume); }
    case Recv(sid, frame) =>
      if Ready(s, sid) {
        var phase := s.sessions[sid].phase;
        if phase.Idle? { IdleFrameKeepsInv(h, s, sid, frame); }
        else if phase.DirEntry? { DirFrameKeepsInv(h, s, sid, frame); }
        else if phase.Body? && phase.left == 0 { BodyFrameKeepsInv(h, s, sid, frame); }
      }
    case Data(sid, bytes) =>
      if Ready(s, sid) && s.sessions[sid].phase.Body? && 0 < |bytes| <= s.sessions[sid].phase.left {
        DataKeepsInv(h, s, sid, bytes);
      }
    case Advance(sid) => if Ready(s, sid) { AdvanceKeepsInv(h, s, sid); }
    case ProbeDir(sid, size) => if Ready(s, sid) { ProbeDirKeepsInv(h, s, sid, size); }
    case Drop(sid) => if Ready(s, sid) { DropKeepsInv(h, s, sid); }
    case Release(sid, i) =>
      if Live(s, sid, i) && s.sessions[sid].phase.Ended? {
        ReleaseKeepsInv(h, s, Step(h, s, e).state, sid, i);
      }
  }

  predicate AllAdmissible(events: seq<Event>) {
    forall k | 0 <= k < |events| :: Admissible(events[k])
  }

  /** Any disk, no session yet. */
  predicate Initial(s: State) {
    s.claims == {} && s.sessions == map[] && s.delivered == map[]
  }

  lemma {:induction false} RunKeepsInv(h: Hash, s: State, events: seq<Event>)
    requires Inv(h, s) && AllAdmissible(events)
    ensures Inv(h, Run(h, s, events)) && Preserves(s, Run(h, s, events))
  {
    if events != [] {
      var before := events[..|events| - 1];
      RunKeepsInv(h, s, before);
      StepKeepsInv(h, Run(h, s, before), events[|events| - 1]);
    }
  }

  /**
   * Integrity. In every run from any disk, of any number of sessions with frames in any order
   * and drops anywhere, every file renamed into place still exists, with exactly the length and
   * digest of its manifest entry.
   */
  lemma DeliveredFilesAreIntact(h: Hash, s: State, events: seq<Event>)
    requires Initial(s) && AllAdmissible(events)
    ensures var s' := Run(h, s, events);
            forall p | p in s'.delivered :: p in s'.files && FitsEntry(h, s'.files[p], s'.delivered[p])
  {
    RunKeepsInv(h, s, events);
  }

  /** Nothing is ever overwritten: over any run, no file but a temporary disappears or changes. */
  lemma NothingIsOverwritten(h: Hash, s: State, early: seq<Event>, late: seq<Event>)
    requires Initial(s) && AllAdmissible(early) && AllAdmissible(late)
    ensures Preserves(Run(h, s, early), Run(h, Run(h, s, early), late))
  {
    RunKeepsInv(h, s, early);
    RunKeepsInv(h, Run(h, s, early), late);
  }

  /** Two live slots never share a destination, a temporary or a sidecar. */
  lemma LiveSlotsAreDisjoint(h: Hash, s: State, events: seq<Event>, a: Sid, i: nat, b: Sid, j: nat)
    requires Initial(s) && AllAdmissible(events)
    requires var s' := Run(h, s, events); Live(s', a, i) && Live(s', b, j) && (a != b || i != j)
    ensures var s' := Run(h, s, events);
            var d, e := DestOf(s', a, i), DestOf(s', b, j);
            {d, Tmp(d), Sidecar(d)} !! {e, Tmp(e), Sidecar(e)}
  {
    hide Legal, TempName, Run, SessOk;
    var s' := Run(h, s, events);
    RunKeepsInv(h, s, events);
    SlotFacts(h, s', a, i);
    SlotFacts(h, s', b, j);
    PathsApart(DestOf(s', a, i), DestOf(s', b, j));
  }

  /** No claim leaks: once every session has released its slots, the table is empty. */
  lemma ClaimsAreReturned(h: Hash, s: State, events: seq<Event>)
    requires Initial(s) && AllAdmissible(events)
    requires var s' := Run(h, s, events); forall a, i :: !Live(s', a, i)
    ensures Run(h, s, events).claims == {}
  {
    RunKeepsInv(h, s, events);
  }

  /** While a file is open, the hasher has read exactly what is on disk. */
  lemma HasherSeesTheDisk(h: Hash, s: State, events: seq<Event>, sid: Sid)
    requires Initial(s) && AllAdmissible(events)
    requires var s' := Run(h, s, events); sid in s'.sessions && s'.sessions[sid].phase.Body?
    ensures var s' := Run(h, s, events);
            var sess := s'.sessions[sid];
            var b := sess.phase;
            && b.index in sess.slots && Tmp(sess.slots[b.index]) in s'.files
            && s'.files[Tmp(sess.slots[b.index])] == b.hashed
            && |b.hashed| == b.got + (b.length - b.left)
  {
    RunKeepsInv(h, s, events);
    Facts(h, Run(h, s, events), sid);
  }

  /**
   * The offset at which a file is opened, where no directory is in the way of its part, is the one recorded as
   * offered on its slot, whatever ran in between. What holds of an offer made without a slot is in Agreement.
   */
  lemma OffsetsAgree(h: Hash, s: State, events: seq<Event>, sid: Sid)
    requires Initial(s) && AllAdmissible(events)
    requires var s' := Run(h, s, events);
             && sid in s'.sessions && s'.sessions[sid].phase.Opening? && s'.sessions[sid].phase.index in s'.sessions[sid].offers
             && s'.sessions[sid].phase.index in s'.sessions[sid].slots
             && Tmp(s'.sessions[sid].slots[s'.sessions[sid].phase.index]) !in s'.dirs
    ensures var sess := Run(h, s, events).sessions[sid];
            sess.phase.offset == sess.offers[sess.phase.index]
  {
    hide Inv, Run, Legal, TempName;
    RunKeepsInv(h, s, events);
    Facts(h, Run(h, s, events), sid);
  }

  // ----- counting at session_end ----------------------------------------------

  lemma {:induction false} FullCount(c: set<nat>, n: nat)
    requires forall k | k in c :: k < n
    ensures |c| <= n && (|c| == n <==> forall k: nat | k < n :: k in c)
  {
    if n > 0 {
      FullCount(c - {n - 1}, n - 1);
      if n - 1 in c {
        assert c == (c - {n - 1}) + {n - 1};
      } else {
        assert c - {n - 1} == c;
      }
    } else {
      assert c == {};
    }
  }

  /**
   * session_end is acknowledged exactly when every manifest index has been completed; each
   * file entry then sits at its slot's destination with the declared length and digest.
   */
  lemma SessionEndMeansComplete(h: Hash, s: State, events: seq<Event>, sid: Sid)
    requires Initial(s) && AllAdmissible(events)
    requires var s' := Run(h, s, events); sid in s'.sessions && s'.sessions[sid].phase.Idle?
    ensures var s' := Run(h, s, events);
            var sess := s'.sessions[sid];
            var o := Step(h, s', Recv(sid, SessionEnd));
            && o.replies == [Ack(0, forall k: nat | k < |sess.manifest| :: k in sess.completed)]
            && (o.replies == [Ack(0, true)] ==> forall k: nat | k < |sess.manifest| && !sess.manifest[k].isDir ::
                  && k in sess.slots && sess.slots[k] in s'.files
                  && FitsEntry(h, s'.files[sess.slots[k]], sess.manifest[k]))
  {
    var s' := Run(h, s, events);
    RunKeepsInv(h, s, events);
    Facts(h, s', sid);
    var sess := s'.sessions[sid];
    var n := |sess.manifest|;
    FullCount(sess.completed, n);
    forall k: nat | k < n && k in sess.completed && !sess.manifest[k].isDir
      ensures k in sess.slots && sess.slots[k] in s'.files && FitsEntry(h, s'.files[sess.slots[k]], sess.manifest[k])
    {
      SlotFacts(h, s', sid, k);
    }
  }

  /** An index is completed at most once: a second file_header for it ends the session. */
  lemma CompletedOnce(h: Hash, s: State, sid: Sid, i: nat)
    requires Inv(h, s) && sid in s.sessions && s.sessions[sid].phase.Idle? && i in s.sessions[sid].completed
    ensures var o := Step(h, s, Recv(sid, FileHeader(i)));
            o.state.sessions[sid].phase == Ended(false) && o.replies == [] && o.state.files == s.files
  {
    Facts(h, s, sid);
  }

  /** How often session sid was told that index i is accepted, other than by the answer to session_end. */
  function Acceptances(h: Hash, s: State, events: seq<Event>, sid: Sid, i: nat): nat {
    if events == [] then 0
    else
      var before, e := events[..|events| - 1], events[|events| - 1];
      Acceptances(h, s, before, sid, i) + (if Accepts(h, Run(h, s, before), e, sid, i) then 1 else 0)
  }

  predicate Accepts(h: Hash, s: State, e: Event, sid: Sid, i: nat) {
    var o := Step(h, s, e);
    e.sid == sid && o.replies == [Ack(i, true)] && sid in o.state.sessions && !o.state.sessions[sid].phase.Ended?
  }

  predicate Has(s: State, sid: Sid, i: nat) {
    sid in s.sessions && i in s.sessions[sid].completed
  }

  lemma WorkAccepts(s: State, sid: Sid, i: nat)
    requires Ready(s, sid) && (s.sessions[sid].phase.Cleaning? ==> s.sessions[sid].phase.index !in s.sessions[sid].completed)
    ensures var o := AdvanceStep(s, sid, s.sessions[sid]);
            && sid in o.state.sessions
            && (i in o.state.sessions[sid].completed <==>
                  i in s.sessions[sid].completed || (o.replies == [Ack(i, true)] && !o.state.sessions[sid].phase.Ended?))
            && (o.replies == [Ack(i, true)] && !o.state.sessions[sid].phase.Ended? ==> i !in s.sessions[sid].completed)
  {
    hide Reserve, Probe, PartialLen, Lower, RemovePart;
  }

  lemma FrameAccepts(h: Hash, s: State, sid: Sid, frame: Frame, i: nat)
    requires Ready(s, sid) && (s.sessions[sid].phase.DirEntry? ==> s.sessions[sid].phase.index !in s.sessions[sid].completed)
    ensures var o := FrameStep(h, s, sid, s.sessions[sid], frame);
            && sid in o.state.sessions
            && (i in o.state.sessions[sid].completed <==>
                  i in s.sessions[sid].completed || (o.replies == [Ack(i, true)] && !o.state.sessions[sid].phase.Ended?))
            && (o.replies == [Ack(i, true)] && !o.state.sessions[sid].phase.Ended? ==> i !in s.sessions[sid].completed)
  {
    hide CreateDirectory, EqualFold, RemovePart;
  }

  /** The index is completed by the step exactly when the step accepts it, and then it was not before. */
  lemma StepAccepts(h: Hash, s: State, e: Event, sid: Sid, i: nat)
    requires Inv(h, s)
    ensures var s' := Step(h, s, e).state;
            && (Has(s', sid, i) <==> Has(s, sid, i) || Accepts(h, s, e, sid, i))
            && !(Has(s, sid, i) && Accepts(h, s, e, sid, i))
  {
    hide Inv, AdvanceStep, FrameStep;
    if e.sid != sid {
      StepTouches(h, s, e);
      if sid !in s.sessions { NewSessionsAreOwn(h, s, e, sid); }
    } else if sid in s.sessions {
      Facts(h, s, sid);
      match e
      case Advance(_) => WorkAccepts(s, sid, i);
      case Recv(_, frame) => FrameAccepts(h, s, sid, frame, i);
      case _ =>
    }
  }

  lemma NewSessionsAreOwn(h: Hash, s: State, e: Event, sid: Sid)
    requires e.sid != sid && sid !in s.sessions
    ensures sid !in Step(h, s, e).state.sessions
  {
    hide AdvanceStep, FrameStep, BodyData, DropStep;
    StepTouches(h, s, e);
  }

  /** Over a whole run, an index is accepted at most once in a session, and exactly once when it is completed. */
  lemma {:induction false} AcceptedOnce(h: Hash, s: State, events: seq<Event>, sid: Sid, i: nat)
    requires Initial(s) && AllAdmissible(events)
    ensures Acceptances(h, s, events, sid, i) == if Has(Run(h, s, events), sid, i) then 1 else 0
  {
    hide Step, Accepts;
    if events != [] {
      var before := events[..|events| - 1];
      AcceptedOnce(h, s, before, sid, i);
      RunKeepsInv(h, s, before);
      StepAccepts(h, Run(h, s, before), events[|events| - 1], sid, i);
    }
  }
}
