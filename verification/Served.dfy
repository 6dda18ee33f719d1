/** What serving a whole connection guarantees, whatever arrives on it. */
module Served {
  import opened Basics
  import opened Names
  import opened Receiver
  import opened ReceiverSafety
  import opened ReceiverRuns
  import A = Attempts
  import D = ReceiverDrive

  /** Nothing was given back yet, and success means that every entry was completed. */
  predicate Counted(sess: Session) {
    sess.released == {} && (sess.phase == Ended(true) ==> |sess.completed| == |sess.manifest|)
  }

  lemma SlotForCounts(s: State, sid: Sid, sess: Session, i: nat)
    requires i < |sess.manifest|
    ensures var (s1, sess1, ok) := SlotFor(s, sid, sess, i);
            sess1.released == sess.released && sess1.manifest == sess.manifest && sess1.completed == sess.completed
  {
    hide Reserve;
  }

  lemma AdvanceCounts(s: State, sid: Sid)
    requires Ready(s, sid) && Counted(s.sessions[sid])
    ensures var s1 := AdvanceStep(s, sid, s.sessions[sid]).state;
            && sid in s1.sessions && Counted(s1.sessions[sid]) && s1.sessions[sid].manifest == s.sessions[sid].manifest
  {
    hide SlotFor, Probe, PartialLen, Lower;
    var sess := s.sessions[sid];
    match sess.phase
    case QueryReserve(i) => SlotForCounts(s, sid, sess, i);
    case Reserving(i) => SlotForCounts(s, sid, sess, i);
    case _ =>
  }

  /** Same session but for its phase and what is completed. */
  predicate StillCounted(s: State, s1: State, sid: Sid)
    requires sid in s.sessions
  {
    sid in s1.sessions && Counted(s1.sessions[sid]) && s1.sessions[sid].manifest == s.sessions[sid].manifest
  }

  lemma IdleCounts(s: State, sid: Sid, frame: Frame)
    requires Ready(s, sid) && s.sessions[sid].phase.Idle? && Counted(s.sessions[sid])
    ensures StillCounted(s, IdleFrame(s, sid, s.sessions[sid], frame).state, sid)
  {
  }

  lemma BodyCounts(h: Hash, s: State, sid: Sid, frame: Frame)
    requires Ready(s, sid) && s.sessions[sid].phase.Body? && Counted(s.sessions[sid])
    ensures StillCounted(s, BodyFrame(h, s, sid, s.sessions[sid], frame).state, sid)
  {
    hide EqualFold;
  }

  lemma DirCounts(s: State, sid: Sid, frame: Frame)
    requires Ready(s, sid) && s.sessions[sid].phase.DirEntry? && Counted(s.sessions[sid])
    ensures StillCounted(s, DirFrame(s, sid, s.sessions[sid], s.sessions[sid].phase.index, frame).state, sid)
  {
    hide CreateDirectory;
  }

  lemma FrameCounts(h: Hash, s: State, sid: Sid, frame: Frame)
    requires Ready(s, sid) && Counted(s.sessions[sid])
    ensures StillCounted(s, FrameStep(h, s, sid, s.sessions[sid], frame).state, sid)
  {
    hide IdleFrame, BodyFrame, DirFrame;
    var p := s.sessions[sid].phase;
    if p.Idle? { IdleCounts(s, sid, frame); }
    if p.DirEntry? { DirCounts(s, sid, frame); }
    if p.Body? { BodyCounts(h, s, sid, frame); }
  }

  lemma StepCounts(h: Hash, s: State, e: Event)
    requires e.sid in s.sessions && Counted(s.sessions[e.sid]) && !e.Start? && !e.Release?
    ensures var s1 := Step(h, s, e).state;
            && e.sid in s1.sessions && Counted(s1.sessions[e.sid]) && s1.sessions[e.sid].manifest == s.sessions[e.sid].manifest
  {
    hide AdvanceStep, FrameStep;
    if Ready(s, e.sid) {
      if e.Advance? { AdvanceCounts(s, e.sid); }
      if e.Recv? { FrameCounts(h, s, e.sid, e.frame); }
    }
  }

  /** A run of one session's steps: the other sessions are as they were. */
  predicate OthersSame(s: State, s': State, sid: Sid) {
    s'.sessions.Keys == s.sessions.Keys && forall a | a in s.sessions && a != sid :: s'.sessions[a] == s.sessions[a]
  }

  lemma {:induction false} RunCounts(h: Hash, s: State, events: seq<Event>, sid: Sid)
    requires sid in s.sessions && Counted(s.sessions[sid]) && D.AllOf(events, sid)
    ensures var s' := Run(h, s, events);
            OthersSame(s, s', sid) && Counted(s'.sessions[sid]) && s'.sessions[sid].manifest == s.sessions[sid].manifest
  {
    hide Step;
    if events != [] {
      var init, e := events[..|events| - 1], events[|events| - 1];
      assert e in events;
      assert forall x | x in init :: x in events;
      RunCounts(h, s, init, sid);
      StepCounts(h, Run(h, s, init), e);
      StepTouches(h, Run(h, s, init), e);
    }
  }

  lemma AllOfIsAdmissible(events: seq<Event>, sid: Sid)
    requires D.AllOf(events, sid)
    ensures AllAdmissible(events)
  {
    forall k | 0 <= k < |events| ensures Admissible(events[k]) {
      assert events[k] in events;
    }
  }

  /** The claims of a state are those of its live slots. */
  lemma ClaimsAre(h: Hash, s: State, t: Path)
    requires Inv(h, s)
    ensures t in s.claims <==> exists a, i :: Live(s, a, i) && t == Tmp(DestOf(s, a, i))
  {
    forall a, i | Live(s, a, i) ensures Tmp(DestOf(s, a, i)) in s.claims {
      assert SessOk(h, s, s.sessions[a]);
      assert SlotOk(s, s.sessions[a], i);
    }
  }

  /** Everything about a connection served from s: its start, its frames, its releases. */
  function Served(h: Hash, s: State, sid: Sid, manifest: seq<FileMeta>, resume: bool, input: seq<D.Message>): State
    requires sid !in s.sessions && manifest != []
  {
    var s1 := Step(h, s, Start(sid, manifest, resume)).state;
    D.ReleaseAll(D.Drive(h, Outcome(s1, []), sid, input).state, sid)
  }

  /**
   * Serving any connection, in any reachable state, with other sessions at any point: the invariant holds after,
   * no file in place is lost or changed, the table of claims is as it was before, and success means that every
   * file of the manifest is in place with the declared length and digest.
   */
  lemma ServingIsSafe(h: Hash, s: State, sid: Sid, manifest: seq<FileMeta>, resume: bool, input: seq<D.Message>)
    requires Inv(h, s) && sid !in s.sessions && manifest != [] && CleanManifest(manifest)
    ensures var t := Served(h, s, sid, manifest, resume, input);
            && Inv(h, t) && Preserves(s, t) && t.claims == s.claims
            && sid in t.sessions && t.sessions[sid].phase.Ended? && t.sessions[sid].manifest == manifest
            && (t.sessions[sid].phase == Ended(true) ==>
                  forall k: nat | k < |manifest| && !manifest[k].isDir ::
                    && k in t.sessions[sid].slots && t.sessions[sid].slots[k] in t.files
                    && FitsEntry(h, t.files[t.sessions[sid].slots[k]], manifest[k]))
  {
    hide Step, D.Drive, Inv, Preserves;
    var s1 := Step(h, s, Start(sid, manifest, resume)).state;
    StartIs(h, s, sid, manifest, resume);
    var events := D.DriveIsRun(h, Outcome(s1, []), sid, input);
    D.DriveEnds(h, Outcome(s1, []), sid, input);
    var d := D.Drive(h, Outcome(s1, []), sid, input).state;
    RunCounts(h, s1, events, sid);
    AllOfIsAdmissible(events, sid);
    StepKeepsInv(h, s, Start(sid, manifest, resume));
    RunKeepsInv(h, s1, events);
    var sess := d.sessions[sid];
    var releases := D.ReleaseIsRun(h, d, sid, sess.slots.Keys);
    ReleasesAreAdmissible(releases);
    RunKeepsInv(h, d, releases);
    var t := D.ReleaseAll(d, sid);
    assert sess.released + sess.slots.Keys == sess.slots.Keys;
    assert (set i | i in sess.slots.Keys :: Tmp(sess.slots[i])) == (set i | i in sess.slots :: Tmp(sess.slots[i]));
    assert t == Run(h, d, releases);
    PreservesTwice(s, s1, d, t);
    SameClaims(h, s, t, sid);
    if sess.phase == Ended(true) {
      CompleteIsPlaced(h, t, sid);
    }
  }

  lemma StartIs(h: Hash, s: State, sid: Sid, manifest: seq<FileMeta>, resume: bool)
    requires sid !in s.sessions && manifest != []
    ensures var s1 := Step(h, s, Start(sid, manifest, resume)).state;
            && s1 == s.(sessions := s.sessions[sid := Session(manifest, resume, map[], {}, {}, map[], Idle)])
            && D.Reads(s1, sid) && Counted(s1.sessions[sid]) && Preserves(s, s1)
  {
  }

  lemma ReleasesAreAdmissible(events: seq<Event>)
    requires forall e | e in events :: e.Release?
    ensures AllAdmissible(events)
  {
    forall k | 0 <= k < |events| ensures Admissible(events[k]) {
      assert events[k] in events;
    }
  }

  lemma PreservesTwice(s: State, a: State, b: State, c: State)
    requires Preserves(s, a) && Preserves(a, b) && Preserves(b, c)
    ensures Preserves(s, c)
  {
  }

  lemma SameClaims(h: Hash, s: State, t: State, sid: Sid)
    requires Inv(h, s) && Inv(h, t) && sid !in s.sessions && sid in t.sessions
    requires t.sessions.Keys == s.sessions.Keys + {sid} && forall a | a in s.sessions :: t.sessions[a] == s.sessions[a]
    requires t.sessions[sid].released == t.sessions[sid].slots.Keys
    ensures t.claims == s.claims
  {
    hide Inv;
    forall p ensures p in t.claims <==> p in s.claims {
      ClaimsAre(h, s, p);
      ClaimsAre(h, t, p);
      assert forall a, i :: Live(s, a, i) <==> Live(t, a, i);
      assert forall a, i | Live(s, a, i) :: DestOf(s, a, i) == DestOf(t, a, i);
    }
  }

  lemma CompleteIsPlaced(h: Hash, t: State, sid: Sid)
    requires Inv(h, t) && sid in t.sessions && |t.sessions[sid].completed| == |t.sessions[sid].manifest|
    ensures var sess := t.sessions[sid];
            forall k: nat | k < |sess.manifest| && !sess.manifest[k].isDir ::
              && k in sess.slots && sess.slots[k] in t.files && FitsEntry(h, t.files[sess.slots[k]], sess.manifest[k])
  {
    var sess := t.sessions[sid];
    Facts(h, t, sid);
    FullCount(sess.completed, |sess.manifest|);
    forall k: nat | k < |sess.manifest| && !sess.manifest[k].isDir
      ensures k in sess.slots && sess.slots[k] in t.files && FitsEntry(h, t.files[sess.slots[k]], sess.manifest[k])
    {
      assert SlotOk(t, sess, k);
      assert sess.slots[k] in t.delivered;
    }
  }
}
