/**
 * Which received files are safe from later transfers, with no assumption on the names the
 * other transfers use: exactly those whose names no auto-renaming turns into a temporary.
 */
module Overwrites {
  import opened Basics
  import opened Names
  import opened Receiver
  import opened ReceiverSafety
  import opened ReceiverRuns
  import opened Confinement
  import opened Resume
  import A = Attempts

  // ----- an invariant for arbitrary manifests -----------------------------------

  /** The file the session has started on since its file_header. */
  function Active(sess: Session): Option<nat> {
    match sess.phase
    case Reserving(i) => Some(i)
    case Probing(i) => Some(i)
    case Opening(i, _) => Some(i)
    case Body(i, _, _, _, _) => Some(i)
    case Renaming(i) => Some(i)
    case Cleaning(i) => Some(i)
    case _ => None
  }

  predicate ActiveOk(sess: Session) {
    && (Active(sess).Some? ==> Active(sess).value !in sess.completed)
    && (!sess.phase.Ended? ==> sess.released == {})
  }

  predicate SlotSafe(s: State, sess: Session, i: nat)
    requires i in sess.slots
  {
    var d := sess.slots[i];
    && Legal(d)
    && (i !in sess.released ==> Tmp(d) in s.claims)
    && (i !in sess.released && !Committed(sess, i) && !TempName(d) ==> d !in s.files)
  }

  ghost predicate SlotsSafe(s: State) {
    forall a, i | a in s.sessions && i in s.sessions[a].slots :: SlotSafe(s, s.sessions[a], i)
  }

  ghost predicate Safe(s: State) {
    && (forall a | a in s.sessions :: ActiveOk(s.sessions[a]))
    && SlotsSafe(s)
    && Distinct(s)
  }

  /** Every file outside the temporaries is unchanged. */
  predicate Keeps(s: State, s': State) {
    forall p | p in s.files && !TempName(p) :: p in s'.files && s'.files[p] == s.files[p]
  }

  // ----- how a step changes the session that takes it ------------------------------

  predicate SameSlotsAndClaims(s: State, s': State, sess: Session, sess': Session) {
    sess'.slots == sess.slots && sess'.released == sess.released && s'.claims == s.claims
  }

  predicate TakesSlot(s: State, s': State, sess: Session, sess': Session, i: nat, d: Path) {
    && i !in sess.slots && sess'.slots == sess.slots[i := d] && sess'.released == sess.released
    && !sess.phase.Ended? && s'.claims == s.claims + {Tmp(d)}
    && Legal(d) && d !in s.files && Tmp(d) !in s.claims
    && s'.files == s.files
    && i < |sess.manifest| && Reserve(s, sess.manifest[i]).Granted? && Reserve(s, sess.manifest[i]).dest == d
  }

  predicate GivesSlot(s: State, s': State, sess: Session, sess': Session, i: nat) {
    && i in sess.slots && i !in sess.released && sess'.slots == sess.slots && sess'.released == sess.released + {i}
    && s'.claims == s.claims - {Tmp(sess.slots[i])} && s'.files == s.files
  }

  ghost predicate Evolves(s: State, s': State, sess: Session, sess': Session) {
    && sess'.manifest == sess.manifest
    && (forall i | Committed(sess, i) :: Committed(sess', i))
    && (ActiveOk(sess) ==> ActiveOk(sess'))
    && (|| SameSlotsAndClaims(s, s', sess, sess')
        || (exists i, d :: TakesSlot(s, s', sess, sess', i, d))
        || (exists i :: GivesSlot(s, s', sess, sess', i)))
  }

  lemma SlotForEvolves(s: State, sid: Sid, i: nat, phase: Phase)
    requires Ready(s, sid) && i < |s.sessions[sid].manifest|
    requires s.sessions[sid].phase == QueryReserve(i) || s.sessions[sid].phase == Reserving(i)
    requires phase.QueryProbe? || phase.Idle? || phase.Ended?
          || (s.sessions[sid].phase == Reserving(i) && (phase == Probing(i) || phase == Opening(i, 0)))
    ensures var (s1, sess1, ok) := SlotFor(s, sid, s.sessions[sid], i);
            Evolves(s, With(s1, sid, sess1.(phase := phase)), s.sessions[sid], sess1.(phase := phase))
  {
    hide Reserve, Legal;
    var sess := s.sessions[sid];
    var (s1, sess1, ok) := SlotFor(s, sid, sess, i);
    if i !in sess.slots && Reserve(s, sess.manifest[i]).Granted? {
      var d := Reserve(s, sess.manifest[i]).dest;
      GrantedIsLegal(s, sess.manifest[i]);
      GrantedIsUnused(s, sess.manifest[i]);
      assert TakesSlot(s, With(s1, sid, sess1.(phase := phase)), sess, sess1.(phase := phase), i, d);
    }
  }

  lemma GrantedIsUnused(s: State, meta: FileMeta)
    requires Reserve(s, meta).Granted?
    ensures var d := Reserve(s, meta).dest; d !in s.files && d !in s.dirs && Tmp(d) !in s.claims
  {
    hide Candidate, Split, Join, SanitizeName;
  }

  lemma AdvanceEvolves(s: State, sid: Sid)
    requires Ready(s, sid)
    ensures var s' := AdvanceStep(s, sid, s.sessions[sid]).state;
            sid in s'.sessions && Evolves(s, s', s.sessions[sid], s'.sessions[sid])
  {
    hide TakesSlot, GivesSlot, SlotFor, PartialLen, Probe, Lower, Legal;
    var sess := s.sessions[sid];
    var s' := AdvanceStep(s, sid, sess).state;
    match sess.phase
    case QueryReserve(i) => SlotForEvolves(s, sid, i, s'.sessions[sid].phase);
    case Reserving(i) => SlotForEvolves(s, sid, i, s'.sessions[sid].phase);
    case _ =>
      assert SameSlotsAndClaims(s, s', sess, s'.sessions[sid]);
  }

  lemma IdleEvolves(s: State, sid: Sid, frame: Frame)
    requires Ready(s, sid) && s.sessions[sid].phase.Idle?
    ensures var s' := IdleFrame(s, sid, s.sessions[sid], frame).state;
            sid in s'.sessions && Evolves(s, s', s.sessions[sid], s'.sessions[sid])
  {
    hide TakesSlot, GivesSlot, Evolves;
    var sess := s.sessions[sid];
    var s' := IdleFrame(s, sid, sess, frame).state;
    var phase := s'.sessions[sid].phase;
    assert s'.claims == s.claims && s'.files == s.files && s'.delivered == s.delivered;
    assert s'.sessions[sid] == sess.(phase := phase);
    IdlePhaseEvolves(s, s', sess, phase);
  }

  lemma IdlePhaseEvolves(s: State, s': State, sess: Session, phase: Phase)
    requires sess.phase.Idle? && s'.claims == s.claims && s'.files == s.files && s'.delivered == s.delivered
    requires !phase.Cleaning? && (ActiveOk(sess) ==> ActiveOk(sess.(phase := phase)))
    ensures Evolves(s, s', sess, sess.(phase := phase))
  {
    hide TakesSlot, GivesSlot;
    assert SameSlotsAndClaims(s, s', sess, sess.(phase := phase));
  }

  lemma DirEvolves(s: State, sid: Sid, frame: Frame)
    requires Ready(s, sid) && s.sessions[sid].phase.DirEntry?
    ensures var s' := DirFrame(s, sid, s.sessions[sid], s.sessions[sid].phase.index, frame).state;
            sid in s'.sessions && Evolves(s, s', s.sessions[sid], s'.sessions[sid])
  {
    hide TakesSlot, GivesSlot, CreateDirectory;
    var s' := DirFrame(s, sid, s.sessions[sid], s.sessions[sid].phase.index, frame).state;
    assert SameSlotsAndClaims(s, s', s.sessions[sid], s'.sessions[sid]);
  }

  lemma BodyEvolves(h: Hash, s: State, sid: Sid, frame: Frame)
    requires Ready(s, sid) && s.sessions[sid].phase.Body?
    ensures var s' := BodyFrame(h, s, sid, s.sessions[sid], frame).state;
            sid in s'.sessions && Evolves(s, s', s.sessions[sid], s'.sessions[sid])
  {
    hide TakesSlot, GivesSlot, EqualFold, RemovePart;
    var s' := BodyFrame(h, s, sid, s.sessions[sid], frame).state;
    assert SameSlotsAndClaims(s, s', s.sessions[sid], s'.sessions[sid]);
  }

  lemma FrameEvolves(h: Hash, s: State, sid: Sid, frame: Frame)
    requires Ready(s, sid)
    ensures var s' := FrameStep(h, s, sid, s.sessions[sid], frame).state;
            sid in s'.sessions && Evolves(s, s', s.sessions[sid], s'.sessions[sid])
  {
    hide IdleFrame, DirFrame, BodyFrame;
    var phase := s.sessions[sid].phase;
    if phase.Idle? { IdleEvolves(s, sid, frame); }
    else if phase.DirEntry? { DirEvolves(s, sid, frame); }
    else if phase.Body? && phase.left == 0 { BodyEvolves(h, s, sid, frame); }
  }

  lemma ProbeDirEvolves(s: State, sid: Sid, size: nat)
    requires Ready(s, sid)
    ensures var s' := ProbeDirStep(s, sid, s.sessions[sid], size).state;
            sid in s'.sessions && Evolves(s, s', s.sessions[sid], s'.sessions[sid])
  {
    hide TakesSlot, GivesSlot, SidecarMatches, Swept, RemovePart;
    var s' := ProbeDirStep(s, sid, s.sessions[sid], size).state;
    assert SameSlotsAndClaims(s, s', s.sessions[sid], s'.sessions[sid]);
  }

  lemma StepEvolves(h: Hash, s: State, e: Event)
    requires e.sid in s.sessions
    ensures var s' := Step(h, s, e).state;
            e.sid in s'.sessions && Evolves(s, s', s.sessions[e.sid], s'.sessions[e.sid])
  {
    hide AdvanceStep, FrameStep;
    var sess := s.sessions[e.sid];
    var s' := Step(h, s, e).state;
    match e
    case Recv(sid, frame) => if Ready(s, sid) { FrameEvolves(h, s, sid, frame); }
    case Advance(sid) => if Ready(s, sid) { AdvanceEvolves(s, sid); }
    case Release(sid, i) =>
      if sess.phase.Ended? && i in sess.slots && i !in sess.released {
        assert GivesSlot(s, s', sess, s'.sessions[sid], i);
      }
    case Data(sid, bytes) => assert SameSlotsAndClaims(s, s', sess, s'.sessions[sid]);
    case ProbeDir(sid, size) => if Ready(s, sid) { ProbeDirEvolves(s, sid, size); }
    case Drop(sid) => assert SameSlotsAndClaims(s, s', sess, s'.sessions[sid]);
    case Start(sid, _, _) =>
  }

  // ----- no run touches a file outside the temporaries -------------------------------

  lemma WorkingSlot(s: State, sid: Sid)
    requires Safe(s) && WorkingOn(s, sid).Some?
    ensures var sess := s.sessions[sid];
            var i := sess.phase.index;
            && Live(s, sid, i) && DestOf(s, sid, i) == WorkingOn(s, sid).value
            && SlotSafe(s, sess, i) && (sess.phase.Renaming? ==> !Committed(sess, i))
  {
    hide Legal, TempName;
    assert ActiveOk(s.sessions[sid]);
  }

  /** The step touches no file outside the temporaries, except to create one that was not there. */
  lemma StepKeepsFiles(h: Hash, s: State, e: Event)
    requires Safe(s)
    ensures Keeps(s, Step(h, s, e).state)
  {
    hide Step, Legal, TempName, Safe;
    var s' := Step(h, s, e).state;
    StepTouches(h, s, e);
    if WorkingOn(s, e.sid).Some? {
      var d := WorkingOn(s, e.sid).value;
      WorkingSlot(s, e.sid);
      TempPathsAreTempNames(d);
      forall p | p in s.files && !TempName(p) ensures p in s'.files && s'.files[p] == s.files[p] {
        assert SameAt(s.files, s'.files, p);
      }
    }
  }

  /** Another session's uncommitted destination does not appear on disk. */
  lemma OtherStaysSafe(h: Hash, s: State, e: Event, a: Sid, i: nat)
    requires Safe(s) && a in s.sessions && a != e.sid && i in s.sessions[a].slots
    requires e.sid in s.sessions
    ensures var s' := Step(h, s, e).state;
            a in s'.sessions && s'.sessions[a] == s.sessions[a] && SlotSafe(s', s.sessions[a], i)
  {
    hide Step, Legal, TempName;
    var s' := Step(h, s, e).state;
    var sess := s.sessions[a];
    StepTouches(h, s, e);
    StepEvolves(h, s, e);
    assert SlotSafe(s, sess, i);
    if i !in sess.released {
      assert Live(s, a, i);
      OtherClaimStays(s, s', e.sid, a, i);
      if WorkingOn(s, e.sid).Some? {
        WorkingSlot(s, e.sid);
        var j := s.sessions[e.sid].phase.index;
        assert Live(s, e.sid, j);
        assert DestOf(s, a, i) != DestOf(s, e.sid, j);
        TempPathsAreTempNames(DestOf(s, e.sid, j));
        assert !TempName(sess.slots[i]) ==> SameAt(s.files, s'.files, sess.slots[i]);
      }
    }
  }

  lemma OtherClaimStays(s: State, s': State, sid: Sid, a: Sid, i: nat)
    requires Distinct(s) && Live(s, a, i) && a != sid && sid in s.sessions && sid in s'.sessions
    requires Evolves(s, s', s.sessions[sid], s'.sessions[sid]) && Tmp(DestOf(s, a, i)) in s.claims
    ensures Tmp(DestOf(s, a, i)) in s'.claims
  {
    hide Legal, Committed, ActiveOk;
    var sess, sess' := s.sessions[sid], s'.sessions[sid];
    if exists j :: GivesSlot(s, s', sess, sess', j) {
      var j :| GivesSlot(s, s', sess, sess', j);
      assert Live(s, sid, j) && DestOf(s, sid, j) == sess.slots[j];
      TempPathsDiffer(DestOf(s, a, i), DestOf(s, sid, j));
    }
  }

  lemma OwnStaysSafe(h: Hash, s: State, e: Event, i: nat)
    requires Safe(s) && e.sid in s.sessions
    requires e.sid in Step(h, s, e).state.sessions && i in Step(h, s, e).state.sessions[e.sid].slots
    ensures SlotSafe(Step(h, s, e).state, Step(h, s, e).state.sessions[e.sid], i)
  {
    hide Step, Legal, TempName;
    var s' := Step(h, s, e).state;
    var sess, sess' := s.sessions[e.sid], s'.sessions[e.sid];
    StepEvolves(h, s, e);
    StepTouches(h, s, e);
    if exists j, d :: TakesSlot(s, s', sess, sess', j, d) {
      var j, d :| TakesSlot(s, s', sess, sess', j, d);
      if i != j { assert SlotSafe(s, sess, i); } else { assert ActiveOk(sess); }
    } else {
      assert sess'.slots == sess.slots;
      assert SlotSafe(s, sess, i);
      if i !in sess'.released {
        assert Live(s, e.sid, i);
        OwnClaimStays(s, s', e.sid, i);
        if !TempName(DestOf(s, e.sid, i)) && !Committed(sess', i) { OwnDestStaysAbsent(h, s, e, i); }
      }
    }
  }

  lemma OwnClaimStays(s: State, s': State, sid: Sid, i: nat)
    requires Distinct(s) && Live(s, sid, i) && Live(s', sid, i) && Tmp(DestOf(s, sid, i)) in s.claims
    requires Evolves(s, s', s.sessions[sid], s'.sessions[sid])
    ensures Tmp(DestOf(s, sid, i)) in s'.claims
  {
    hide Legal, Committed, ActiveOk;
    var sess, sess' := s.sessions[sid], s'.sessions[sid];
    if exists j :: GivesSlot(s, s', sess, sess', j) {
      var j :| GivesSlot(s, s', sess, sess', j);
      assert Live(s, sid, j) && DestOf(s, sid, j) == sess.slots[j];
      TempPathsDiffer(DestOf(s, sid, i), DestOf(s, sid, j));
    }
  }

  /** The session's own destination appears only when its file is committed. */
  lemma OwnDestStaysAbsent(h: Hash, s: State, e: Event, i: nat)
    requires Safe(s) && Live(s, e.sid, i) && Live(Step(h, s, e).state, e.sid, i)
    requires !TempName(DestOf(s, e.sid, i)) && SlotSafe(s, s.sessions[e.sid], i)
    requires !Committed(Step(h, s, e).state.sessions[e.sid], i)
    requires forall j | Committed(s.sessions[e.sid], j) :: Committed(Step(h, s, e).state.sessions[e.sid], j)
    ensures DestOf(s, e.sid, i) !in Step(h, s, e).state.files
  {
    hide Legal, TempName, Step, Safe;
    var s' := Step(h, s, e).state;
    var d := DestOf(s, e.sid, i);
    StepTouches(h, s, e);
    if WorkingOn(s, e.sid).Some? {
      WorkingSlot(s, e.sid);
      var j := s.sessions[e.sid].phase.index;
      var w := DestOf(s, e.sid, j);
      TempPathsAreTempNames(w);
      if j == i && s.sessions[e.sid].phase.Renaming? {
        RenameCommits(h, s, e, i);
      } else {
        SafeIsDistinct(s, e.sid, i, e.sid, j);
        assert SameAt(s.files, s'.files, d);
      }
    }
  }

  lemma SafeIsDistinct(s: State, a: Sid, i: nat, b: Sid, j: nat)
    requires Safe(s) && Live(s, a, i) && Live(s, b, j)
    ensures DestOf(s, a, i) == DestOf(s, b, j) ==> a == b && i == j
  {
    hide SlotsSafe, ActiveOk;
  }

  lemma RenameCommits(h: Hash, s: State, e: Event, i: nat)
    requires Ready(s, e.sid) && s.sessions[e.sid].phase == Renaming(i)
    ensures var s' := Step(h, s, e).state;
            e.sid in s'.sessions ==> Committed(s'.sessions[e.sid], i) || SameAt(s.files, s'.files, s.sessions[e.sid].slots[i])
  {
    var d := s.sessions[e.sid].slots[i];
    assert |Tmp(d)| > |d| && |Sidecar(d)| > |d|;
  }

  lemma StepKeepsDistinct(h: Hash, s: State, e: Event)
    requires Safe(s) && e.sid in s.sessions
    ensures Distinct(Step(h, s, e).state)
  {
    hide Step, Legal, TempName, Committed, ActiveOk;
    var s' := Step(h, s, e).state;
    var sid := e.sid;
    StepEvolves(h, s, e);
    StepTouches(h, s, e);
    forall a, i, b, j | Live(s', a, i) && Live(s', b, j) && DestOf(s', a, i) == DestOf(s', b, j)
      ensures a == b && i == j
    {
      NewOrOld(s, s', sid, a, i);
      NewOrOld(s, s', sid, b, j);
      assert Live(s, a, i) ==> SlotSafe(s, s.sessions[a], i);
      assert Live(s, b, j) ==> SlotSafe(s, s.sessions[b], j);
    }
  }

  /** A live slot was live before at the same destination, or is the one just taken at an unclaimed one. */
  lemma NewOrOld(s: State, s': State, sid: Sid, a: Sid, i: nat)
    requires sid in s.sessions && s'.sessions.Keys == s.sessions.Keys && Live(s', a, i)
    requires forall b | b in s.sessions && b != sid :: s'.sessions[b] == s.sessions[b]
    requires Evolves(s, s', s.sessions[sid], s'.sessions[sid])
    ensures (Live(s, a, i) && DestOf(s', a, i) == DestOf(s, a, i))
         || (a == sid && i !in s.sessions[sid].slots && Tmp(DestOf(s', a, i)) !in s.claims)
  {
    hide Legal, Committed, ActiveOk;
  }

  lemma StepStaysSafe(h: Hash, s: State, e: Event)
    requires Safe(s)
    ensures Safe(Step(h, s, e).state)
  {
    hide Step, Legal, TempName;
    var s' := Step(h, s, e).state;
    if e.sid in s.sessions {
      StepEvolves(h, s, e);
      StepTouches(h, s, e);
      StepKeepsDistinct(h, s, e);
      forall a, i | a in s'.sessions && i in s'.sessions[a].slots ensures SlotSafe(s', s'.sessions[a], i) {
        if a == e.sid { OwnStaysSafe(h, s, e, i); } else { OtherStaysSafe(h, s, e, a, i); }
      }
      assert forall a | a in s'.sessions :: ActiveOk(s'.sessions[a]);
    } else {
      NewSessionStaysSafe(h, s, e);
    }
  }

  lemma NewSessionStaysSafe(h: Hash, s: State, e: Event)
    requires Safe(s) && e.sid !in s.sessions
    ensures Safe(Step(h, s, e).state)
  {
    hide Legal, TempName;
    var s' := Step(h, s, e).state;
    forall a, i | a in s'.sessions && i in s'.sessions[a].slots ensures SlotSafe(s', s'.sessions[a], i) {
      assert a in s.sessions && SlotSafe(s, s.sessions[a], i);
    }
    assert forall a, i :: Live(s, a, i) <==> Live(s', a, i);
  }

  /** Over any run, with any names at all, no file outside the temporaries disappears or changes. */
  lemma {:induction false} OrdinaryFilesAreSafe(h: Hash, s: State, events: seq<Event>)
    requires Safe(s)
    ensures Safe(Run(h, s, events)) && Keeps(s, Run(h, s, events))
  {
    hide Step, Safe, TempName;
    if events != [] {
      var before := events[..|events| - 1];
      OrdinaryFilesAreSafe(h, s, before);
      StepStaysSafe(h, Run(h, s, before), events[|events| - 1]);
      StepKeepsFiles(h, Run(h, s, before), events[|events| - 1]);
    }
  }

  // ----- exactly which names are safe --------------------------------------------------

  /** p is one of the names tried for the entry. */
  ghost predicate NamedFor(p: Path, meta: FileMeta) {
    WantedName(meta).Some? && exists k: nat :: p == Candidate(WantedName(meta).value, k)
  }

  ghost predicate WellNamed(s: State) {
    && (forall a, i | a in s.sessions && i in s.sessions[a].slots ::
          i < |s.sessions[a].manifest| && NamedFor(s.sessions[a].slots[i], s.sessions[a].manifest[i]))
    && (forall p | p in s.delivered :: NamedFor(p, s.delivered[p]))
  }

  lemma GrantedIsNamed(s: State, meta: FileMeta)
    requires Reserve(s, meta).Granted?
    ensures NamedFor(Reserve(s, meta).dest, meta)
  {
    hide Candidate, Split, Join, SanitizeName;
    assert Reserve(s, meta).dest == Candidate(WantedName(meta).value, FirstFree(WantedName(meta).value, Occupied(s), 0));
  }

  lemma SlotsStayNamed(s: State, s': State, sid: Sid)
    requires WellNamed(s) && sid in s.sessions && sid in s'.sessions
    requires Evolves(s, s', s.sessions[sid], s'.sessions[sid])
    ensures forall i | i in s'.sessions[sid].slots ::
              i < |s'.sessions[sid].manifest| && NamedFor(s'.sessions[sid].slots[i], s'.sessions[sid].manifest[i])
  {
    hide NamedFor, Reserve, Legal, Committed, ActiveOk;
    var sess, sess' := s.sessions[sid], s'.sessions[sid];
    forall i | i in sess'.slots ensures i < |sess'.manifest| && NamedFor(sess'.slots[i], sess'.manifest[i]) {
      if i in sess.slots && sess'.slots[i] == sess.slots[i] {
      } else {
        assert Reserve(s, sess.manifest[i]).Granted? && sess'.slots[i] == Reserve(s, sess.manifest[i]).dest;
        GrantedIsNamed(s, sess.manifest[i]);
      }
    }
  }

  lemma StepStaysNamed(h: Hash, s: State, e: Event)
    requires WellNamed(s)
    ensures WellNamed(Step(h, s, e).state)
  {
    hide NamedFor, Step, Evolves;
    StepTouches(h, s, e);
    var s' := Step(h, s, e).state;
    if e.sid in s.sessions {
      StepEvolves(h, s, e);
      SlotsStayNamed(s, s', e.sid);
      DeliveredStaysNamed(s, s', e.sid);
    } else {
      NewSessionStep(h, s, e);
    }
  }

  lemma DeliveredStaysNamed(s: State, s': State, sid: Sid)
    requires WellNamed(s) && Touches(s, s', sid)
    ensures forall p | p in s'.delivered :: NamedFor(p, s'.delivered[p])
  {
    hide NamedFor, OnlyPaths, OnlyTemps;
  }

  lemma NewSessionStep(h: Hash, s: State, e: Event)
    requires e.sid !in s.sessions
    ensures var s' := Step(h, s, e).state;
            && s'.delivered == s.delivered && s'.sessions.Keys <= s.sessions.Keys + {e.sid}
            && (e.sid in s'.sessions ==> s'.sessions[e.sid].slots == map[])
            && (forall a | a in s.sessions :: a in s'.sessions && s'.sessions[a] == s.sessions[a])
  {
  }

  lemma {:induction false} RunStaysNamed(h: Hash, s: State, events: seq<Event>)
    requires WellNamed(s)
    ensures WellNamed(Run(h, s, events))
  {
    hide WellNamed, Step;
    if events != [] {
      RunStaysNamed(h, s, events[..|events| - 1]);
      StepStaysNamed(h, Run(h, s, events[..|events| - 1]), events[|events| - 1]);
    }
  }

  /** After n events p holds a file delivered for an entry asking for name; after all of them it does not. */
  ghost predicate Loses(h: Hash, s: State, events: seq<Event>, n: nat, p: Path, name: string) {
    && Initial(s) && n <= |events|
    && var early, late := Run(h, s, events[..n]), Run(h, s, events);
       && p in early.delivered && WantedName(early.delivered[p]) == Some(name)
       && p in early.files && (p !in late.files || late.files[p] != early.files[p])
  }

  /** A file received under an unreserved name is never lost, whatever other transfers do. */
  lemma UnreservedIsNeverLost(h: Hash, s: State, events: seq<Event>, n: nat, p: Path, name: string)
    requires !Reserved(name)
    ensures !Loses(h, s, events, n, p, name)
  {
    hide Run, Reserved, TempName, Candidate, Safe;
    if Initial(s) && n <= |events| {
      var early := Run(h, s, events[..n]);
      InitialIsSafe(s);
      RunStaysNamed(h, s, events[..n]);
      OrdinaryFilesAreSafe(h, s, events[..n]);
      OrdinaryFilesAreSafe(h, early, events[n..]);
      assert events[..n] + events[n..] == events;
      A.RunConcat(h, s, events[..n], events[n..]);
      forall k: nat ensures !TempName(Candidate(name, k)) { UnreservedStaysUnreserved(name, k); }
    }
  }

  lemma InitialIsSafe(s: State)
    requires Initial(s)
    ensures Safe(s) && WellNamed(s)
  {
  }

  // ----- the names that are not safe ------------------------------------------------------

  /** A relative path, or a single name without one: what a manifest entry can ask for. */
  predicate Wantable(name: string) {
    ValidRelPath(name) || (LegalPart(name) && '/' !in name)
  }

  /** An entry that asks for the name. */
  function Asking(name: string, size: int, sha: Bytes): FileMeta {
    FileMeta(false, name, size, sha, if ValidRelPath(name) then name else "")
  }

  lemma PlainIsClean(name: string)
    requires LegalPart(name) && '/' !in name
    ensures SanitizeName(name) == name
  {
    assert "" + "/" + name == "/" + name;
    SplitSlash("", name);
    assert Split("") == [""];
    assert ["", name][..1] == [""] && [""][..0] == [];
    assert CleanParts([""]) == [];
    assert CleanParts(["", name]) == [name];
  }

  /** Exactly those names are asked for by some entry. */
  lemma WantedIsWantable(name: string)
    ensures Wantable(name) <==> exists meta: FileMeta :: WantedName(meta) == Some(name)
    ensures Wantable(name) ==> forall size, sha :: WantedName(Asking(name, size, sha)) == Some(name)
  {
    hide ValidRelPath, SanitizeName, LegalPart;
    ValidIsNotEmpty(name);
    if Wantable(name) {
      if !ValidRelPath(name) { PlainIsClean(name); }
      assert WantedName(Asking(name, 0, [])) == Some(name);
    }
    forall meta: FileMeta | WantedName(meta) == Some(name) ensures Wantable(name) {
      if meta.relPath == "" { SanitizedIsPlain(meta.name); }
    }
  }

  lemma ValidIsNotEmpty(name: string)
    ensures ValidRelPath(name) ==> name != ""
  {
  }

  lemma SanitizedIsPlain(name: string)
    ensures LegalPart(SanitizeName(name)) && '/' !in SanitizeName(name)
  {
    hide SanitizeName, Split;
    var r := SanitizeName(name);
    SanitizedIsLegal(name);
    JoinSplit(r);
    assert Split(r)[0] == r;
  }

  lemma WantableIsLegal(name: string)
    requires Wantable(name)
    ensures Legal(name) && (!ValidRelPath(name) ==> Split(name) == [name])
  {
    if !ValidRelPath(name) { SplitPlain(name); }
  }

  function OneByte(h: Hash, name: string): FileMeta { Asking(name, 1, h([0])) }
  function Empty(name: string): FileMeta { Asking(name, 0, []) }

  /** The frames of a one-byte file. */
  function OneByteItems(): seq<A.Item> {
    [A.Hdr(Chunk(1)), A.Payload([0]), A.Hdr(FileEnd(0, 0))]
  }

  lemma OneByteTail()
    ensures A.FileTail(OneByteItems(), 0, [0], 0)
  {
    var items := OneByteItems();
    assert items[2..] == [A.Hdr(FileEnd(0, 0))];
    assert A.FileTail(items[2..], 0, [0], 1);
    assert [0][0..1] == [0];
  }

  /** Both names sit in the same directory, which exists, and nothing there is in their way. */
  ghost predicate Siblings(files: Files, name: string, m: string) {
    && Wantable(name) && Wantable(m)
    && |Split(m)| == |Split(name)| && Split(m)[..|Split(m)| - 1] == Split(name)[..|Split(name)| - 1]
    && Leading(Split(name)[..|Split(name)| - 1]) !! files.Keys
  }

  /** In an existing directory, a reservation only depends on which candidates are taken. */
  lemma ReserveInPlace(s: State, files0: Files, name: string, m: string, meta: FileMeta)
    requires Siblings(files0, name, m) && s.dirs == Leading(Split(name)[..|Split(name)| - 1])
    requires s.dirs !! s.files.Keys && meta == Asking(m, meta.size, meta.sha)
    ensures Reserve(s, meta) == Granted(FreeName(m, Occupied(s)), s.dirs)
  {
    hide FreeName, Occupied, Join, Split, MakeDirs, ValidRelPath, LegalPart, WantedName;
    WantedIsWantable(m);
    WantableIsLegal(m);
    var parts := Split(m);
    if meta.relPath != "" && |parts| > 1 {
      ParentFacts(m);
      var front := parts[..|parts| - 1];
      ParentIsValid(m);
      MakeDirsExactly(s.files, s.dirs, front);
      assert CreateDirectory(s.files, s.dirs, Join(front)) == MakeDirs(s.files, s.dirs, front);
    }
  }

  lemma ParentIsValid(m: string)
    requires ValidRelPath(m) && |Split(m)| > 1
    ensures ValidRelPath(Join(Split(m)[..|Split(m)| - 1]))
  {
    ParentFacts(m);
    JoinSplit(m);
    var parts := Split(m);
    var front := parts[..|parts| - 1];
    hide Split, Join, Legal;
    assert front + [parts[|parts| - 1]] == parts;
    JoinSnoc(front, parts[|parts| - 1]);
    assert Join(front) <= m;
    LegalIsNotEmpty(Join(front));
  }

  lemma LegalIsNotEmpty(p: Path)
    requires Legal(p)
    ensures p != ""
  {
    assert Split("")[0] == "";
  }

  /** The disk and the two names of a collision: name is delivered at c, a temporary of m. */
  ghost predicate Collision(files: Files, dirs: set<Path>, name: string, c: Path, m: string) {
    && Siblings(files, name, m) && Siblings(files, name, name)
    && dirs == Leading(Split(name)[..|Split(name)| - 1])
    && FreeName(name, files.Keys + dirs) == c
    && (c == Tmp(m) || c == Sidecar(m))
    && m !in files && Tmp(c) !in files
    && {c, m, Tmp(m), Tmp(c), Sidecar(m), Sidecar(c)} !! dirs
  }

  /**
   * A file is delivered at c, and then a transfer of m whose temporaries include c starts:
   * opening it destroys the delivered file.
   */
  lemma Destroyed(h: Hash, files: Files, dirs: set<Path>, name: string, c: Path, m: string)
    requires Collision(files, dirs, name, c, m)
    ensures exists events: seq<Event>, n: nat :: Loses(h, State(files, dirs, {}, map[], map[]), events, n, c, name)
  {
    hide Split, FreeName, Leading, Run, Legal, ValidRelPath, A.FileTail, A.Arrivals, Reserve, Siblings, Attempt, WantedName;
    var s0 := State(files, dirs, {}, map[], map[]);
    var meta := OneByte(h, name);
    var first := Attempt(0, meta, OneByteItems());
    FirstReserve(h, files, dirs, name, c, m);
    OneByteTail();
    Delivered(h, s0, meta, c);
    var s1 := Run(h, s0, first);
    SecondReserve(s1, files, name, c, m);
    var rest := [Start(1, [Empty(m)], true)] + (A.QueryEvents(1, 0) + A.OpenEvents(1, 0));
    SecondOpens(h, s1, m, c);
    A.RunConcat(h, s0, first, rest);
    var events := first + rest;
    assert events[..|first|] == first;
    WantedIsWantable(name);
    assert Wantable(name) by { CollidingIsWantable(files, dirs, name, c, m); }
    assert Loses(h, s0, events, |first|, c, name);
  }

  lemma CollidingIsWantable(files: Files, dirs: set<Path>, name: string, c: Path, m: string)
    requires Collision(files, dirs, name, c, m)
    ensures Wantable(name)
  {
  }

  lemma FirstReserve(h: Hash, files: Files, dirs: set<Path>, name: string, c: Path, m: string)
    requires Collision(files, dirs, name, c, m)
    ensures Reserve(State(files, dirs, {}, map[], map[]), OneByte(h, name)) == Granted(c, dirs)
  {
    hide Split, FreeName, Leading, Legal, Reserve;
    var s0 := State(files, dirs, {}, map[], map[]);
    assert ClaimedNames({}) == {};
    assert Occupied(s0) == files.Keys + dirs;
    ReserveInPlace(s0, files, name, name, OneByte(h, name));
  }

  lemma SecondOpens(h: Hash, s1: State, m: string, c: Path)
    requires s1.sessions.Keys == {0} && Reserve(s1, Empty(m)) == Granted(m, s1.dirs)
    requires Tmp(m) !in s1.dirs && Sidecar(m) !in s1.dirs && (c == Tmp(m) || c == Sidecar(m))
    ensures var s' := Run(h, s1, [Start(1, [Empty(m)], true)] + (A.QueryEvents(1, 0) + A.OpenEvents(1, 0)));
            c in s'.files && s'.files[c] == []
  {
    hide Run, Reserve;
    var s2 := With(s1, 1, Session([Empty(m)], true, map[], {}, {}, map[], Idle));
    assert Step(h, s1, Start(1, [Empty(m)], true)).state == s2;
    A.RunCons(h, s1, Start(1, [Empty(m)], true), A.QueryEvents(1, 0) + A.OpenEvents(1, 0));
    A.ReserveIgnoresSessions(s1, s2, Empty(m));
    OpenEmpties(h, s2, m, c);
  }

  /** The first transfer delivers its byte at c. */
  lemma Delivered(h: Hash, s0: State, meta: FileMeta, c: Path)
    requires Initial(s0) && meta == OneByte(h, meta.name) && Reserve(s0, meta) == Granted(c, s0.dirs)
    requires Tmp(c) !in s0.files && Tmp(c) !in s0.dirs && Sidecar(c) !in s0.dirs && A.FileTail(OneByteItems(), 0, [0], 0)
    ensures var s1 := Run(h, s0, Attempt(0, meta, OneByteItems()));
            && s1.files == (s0.files - {Sidecar(c)})[c := [0]] && s1.dirs == s0.dirs && s1.claims == {Tmp(c)}
            && s1.delivered == map[c := meta] && s1.sessions.Keys == {0}
  {
    hide Run, A.FileTail, Reserve, A.Arrivals;
    var s1 := Started(s0, 0, meta);
    A.RunCons(h, s0, Start(0, [meta], true), A.AttemptEvents(0, 0, OneByteItems()));
    A.ReserveIgnoresSessions(s0, s1, meta);
    assert Step(h, s0, Start(0, [meta], true)).state == s1;
    GrantedIsClear(s1, meta);
    NoPartial(s0.files, c, meta);
    A.AttemptRuns(h, s1, 0, 0, [0], OneByteItems());
    assert [] + [0] == [0];
    assert RemovePart(s0.files, c) == s0.files - {Sidecar(c)};
    NothingSwept(s0.files, s0.dirs, {Sidecar(c)});
  }

  lemma SecondReserve(s1: State, files: Files, name: string, c: Path, m: string)
    requires Collision(files, s1.dirs, name, c, m)
    requires s1.files == (files - {Sidecar(c)})[c := [0]] && s1.claims == {Tmp(c)}
    ensures Reserve(s1, Empty(m)) == Granted(m, s1.dirs)
  {
    hide Split, Leading, Legal, ValidRelPath, Reserve, Candidate;
    assert |c| > |m|;
    assert c != m && m + PART != Tmp(c);
    assert m !in ClaimedNames(s1.claims);
    assert m !in Occupied(s1);
    ReserveInPlace(s1, files, name, m, Empty(m));
    CandidateZero(m);
    FreeNameIs(m, Occupied(s1), 0);
  }

  lemma NothingSwept(files: Files, dirs: set<Path>, paths: set<Path>)
    requires paths !! dirs
    ensures Swept(files, dirs, paths) == dirs
  {
  }

  /** Opening the second transfer empties the file at c. */
  lemma OpenEmpties(h: Hash, s2: State, m: string, c: Path)
    requires A.Asked(s2, 1, 0) && s2.sessions[1].manifest == [Empty(m)] && Reserve(s2, Empty(m)) == Granted(m, s2.dirs)
    requires Tmp(m) !in s2.dirs && Sidecar(m) !in s2.dirs && (c == Tmp(m) || c == Sidecar(m))
    ensures var s' := Run(h, s2, A.QueryEvents(1, 0) + A.OpenEvents(1, 0)); c in s'.files && s'.files[c] == []
  {
    hide Run, Reserve;
    A.RunConcat(h, s2, A.QueryEvents(1, 0), A.OpenEvents(1, 0));
    A.QueryRuns(h, s2, 1, 0);
    var q := A.Queried(s2, 1, 0, m, s2.dirs);
    A.QueriedHolds(s2, 1, 0, m, s2.dirs);
    NothingSwept(s2.files, s2.dirs, {Tmp(m), Sidecar(m)});
    A.GrantedHasParent(s2, Empty(m));
    A.OpenRuns(h, q, 1, 0, m);
    assert PartialLen(q.files, m, Empty(m)) == 0;
    TempPathsDiffer(m, m);
  }

  // ----- the two directions together ---------------------------------------------------------

  ghost predicate CanBeLost(h: Hash, name: string) {
    exists s: State, events: seq<Event>, n: nat, p: Path :: Loses(h, s, events, n, p, name)
  }

  lemma ShorterIsNotLeading(name: string, d: string)
    requires Legal(name) && Legal(d) && |Split(name)| == |Split(d)|
    requires Split(d)[..|Split(d)| - 1] == Split(name)[..|Split(name)| - 1]
    ensures forall p | p in Leading(Split(name)[..|Split(name)| - 1]) :: |p| < |d|
  {
    hide Split, Join, Legal;
    var front := Split(name)[..|Split(name)| - 1];
    if |Split(name)| > 1 {
      LongerThanParent(name, d);
      forall p | p in Leading(front) ensures |p| < |d| {
        var m :| 1 <= m <= |front| && p == Join(front[..m]);
        JoinGrows(front, m);
      }
    }
  }

  /** m differs from the valid name in its last part only, and is shorter than its temporaries. */
  lemma SiblingFacts(files: Files, name: string, m: string)
    requires Wantable(name) && Wantable(m)
    requires |Split(m)| == |Split(name)| && Split(m)[..|Split(m)| - 1] == Split(name)[..|Split(name)| - 1]
    requires forall p | p in files :: |p| >= |m|
    ensures var dirs := Leading(Split(name)[..|Split(name)| - 1]);
            Siblings(files, name, m) && Siblings(files, name, name) && forall p: Path | |p| >= |m| :: p !in dirs
  {
    hide Split, Legal, Wantable, Leading;
    WantableIsLegal(name);
    WantableIsLegal(m);
    ShorterIsNotLeading(name, m);
  }

  lemma MetaOwner(name: string, m: string)
    requires Wantable(name) && name == m + (PART + META) && Legal(m)
    ensures name == Sidecar(m) && Wantable(m)
    ensures |Split(m)| == |Split(name)| && Split(m)[..|Split(m)| - 1] == Split(name)[..|Split(name)| - 1]
  {
    hide Split, Legal;
    ConcatAssoc(m, PART, META);
    SplitAppend(m, PART + META);
    LegalIsNotEmpty(m);
    assert forall ch | ch in m :: ch in name;
    if !ValidRelPath(name) { PlainLegal(m); }
  }

  lemma PlainLegal(m: string)
    requires Legal(m) && '/' !in m
    ensures LegalPart(m)
  {
    SplitPlain(m);
    assert Split(m)[0] == m;
  }

  lemma MetaNameIsLost(h: Hash, name: string)
    requires Wantable(name) && EndsWith(name, PART + META) && Legal(name[..|name| - |PART + META|])
    ensures CanBeLost(h, name)
  {
    hide Split, Legal, Wantable, Leading, Loses, Candidate, FreeName, Siblings;
    var m := name[..|name| - |PART + META|];
    assert name == m + (PART + META);
    MetaOwner(name, m);
    var dirs := Leading(Split(name)[..|Split(name)| - 1]);
    SiblingFacts(map[], name, m);
    CandidateZero(name);
    FreeNameIs(name, dirs, 0);
    var none: Files := map[];
    assert none.Keys + dirs == dirs;
    assert Collision(none, dirs, name, name, m);
    Destroyed(h, none, dirs, name, name, m);
  }

  lemma PartNameIsLost(h: Hash, name: string)
    requires Wantable(name) && EndsWith(name, PART)
    ensures CanBeLost(h, name)
  {
    hide Split, Legal, Wantable, Leading, Loses, Candidate, Ext, Stem, Counter, FreeName, Siblings;
    var x := name[..|name| - |PART|];
    var m, c := x + Counter(1), Candidate(name, 1);
    assert name == x + PART;
    PartIsExtension(name);
    PartCandidate(name, x);
    var files: Files := map[name := []];
    var dirs := Leading(Split(name)[..|Split(name)| - 1]);
    SiblingFacts(files, name, m);
    CandidateZero(name);
    FreeNameIs(name, files.Keys + dirs, 1);
    assert c != name && c !in files.Keys + dirs;
    assert FreeName(name, files.Keys + dirs) == c;
    assert Collision(files, dirs, name, c, m);
    Destroyed(h, files, dirs, name, c, m);
  }

  lemma PartCandidate(name: string, x: string)
    requires Wantable(name) && name == x + PART && Ext(name) == PART && Stem(name) == x
    ensures var m, c := x + Counter(1), Candidate(name, 1);
            && c == Tmp(m) && Wantable(m) && |m| < |name| < |c|
            && |Split(m)| == |Split(name)| && Split(m)[..|Split(m)| - 1] == Split(name)[..|Split(name)| - 1]
  {
    hide Wantable, Split, Ext, Stem, Decimal;
    OneIsOne();
    CounterHasNoSlash(1);
    WantableIsLegal(name);
    RenameParts(x, Counter(1), PART);
    CounterIsWantable(name, x);
  }

  lemma OneIsOne()
    ensures Counter(1) == " (1)"
  {
    assert Decimal(1) == "1";
  }

  lemma CounterIsWantable(name: string, x: string)
    requires Wantable(name) && name == x + PART && Legal(x + Counter(1)) && Counter(1) == " (1)"
    ensures Wantable(x + Counter(1))
  {
    hide Legal, Counter;
    var m := x + Counter(1);
    assert forall ch | ch in x :: ch in name;
    if !ValidRelPath(name) { PlainLegal(m); }
  }

  /**
   * The exact condition, for every name and every hash. A file received under a name can be lost to a later
   * transfer if and only if an entry can ask for the name and the name is reserved: it ends in ".adrop-part",
   * or it is the sidecar of a legal name.
   */
  lemma LostExactlyWhenReserved(h: Hash, name: string)
    ensures CanBeLost(h, name) <==> Wantable(name) && Reserved(name)
  {
    hide Wantable, Loses, EndsWith, Legal;
    if Wantable(name) && Reserved(name) {
      if EndsWith(name, PART) { PartNameIsLost(h, name); } else { MetaNameIsLost(h, name); }
    } else {
      forall s: State, events: seq<Event>, n: nat, p: Path ensures !Loses(h, s, events, n, p, name) {
        if !Reserved(name) { UnreservedIsNeverLost(h, s, events, n, p, name); } else { UnwantedIsNeverLost(h, s, events, n, p, name); }
      }
    }
  }

  lemma UnwantedIsNeverLost(h: Hash, s: State, events: seq<Event>, n: nat, p: Path, name: string)
    requires !Wantable(name)
    ensures !Loses(h, s, events, n, p, name)
  {
    hide Run, Wantable;
    WantedIsWantable(name);
  }
}
