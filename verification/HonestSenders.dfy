/** What the sender of a joint run sends is, at each position, what its source holds there; so partials are prefixes. */
module HonestSenders {
  import opened Basics
  import opened Names
  import opened Receiver
  import opened ReceiverSafety
  import opened ReceiverRuns
  import opened FileTree
  import opened Resume
  import opened Overwrites
  import opened Attempts
  import opened Transfer
  import opened Agreement
  import opened AgreedOffsets
  import Arrival

  // ----- honest bytes ---------------------------------------------------------------------------

  /** No file of the plan has a shaky directory. */
  predicate AllSteady(c: Plan) {
    forall k | 0 <= k < |c.manifest| :: !ShakyParent(c.manifest[k])
  }

  /** While the receiver waits for payload bytes, the front of the stream is what the source holds at its position. */
  lemma StreamsItsSource(h: Hash, c: Plan, j: Joint)
    requires AgreedInv(h, c, j) && !j.pc.Failed? && AllSteady(c)
    requires var phase := j.recv.sessions[c.sid].phase; phase.Body? && phase.left > 0
    ensures var phase := j.recv.sessions[c.sid].phase;
            && phase.index < |c.manifest| == |c.sources| && j.recv.sessions[c.sid].manifest == c.manifest
            && !c.manifest[phase.index].isDir
            && j.toR != [] && j.toR[0].Payload?
            && var x, m := c.sources[phase.index], |phase.hashed|;
               m + phase.left <= |x| && j.toR[0].bytes == x[m..m + phase.left]
  {
    hide AgreedInv, Inv, WellNamed, FileTail, TailFrom, ShakyParent, OneEach, WellPlanned;
    AgreedIsJoint(h, c, j);
    PlanShapeOf(h, c, j);
    BodyIsOfPlan(h, c, j);
    OpeningIsOffered(h, c, j);
    SenderIsHonest(h, c, j);
  }

  lemma BodyIsOfPlan(h: Hash, c: Plan, j: Joint)
    requires JointInv(h, c, j) && !j.pc.Failed? && j.recv.sessions[c.sid].phase.Body?
    ensures var phase := j.recv.sessions[c.sid].phase;
            phase.index < |c.manifest| == |c.sources| && j.recv.sessions[c.sid].manifest == c.manifest && !c.manifest[phase.index].isDir
  {
    hide Inv, FileTail, TailFrom;
  }

  /**
   * Every payload byte a joint run delivers is honest: if what the receiver has is a prefix of an original with the
   * declared digest, it still is with the new bytes. It holds after the sender has given up as well.
   */
  lemma JointDataIsHonest(h: Hash, c: Plan, s: State, events: seq<JointEvent>, e: JointEvent)
    requires HexDigests(h) && CollisionFree(h)
    requires Inv(h, s) && WellNamed(s) && WellPlanned(h, c) && c.manifest != [] && c.sid !in s.sessions && AllAllowed(events)
    requires AllSteady(c) && |c.manifest| == |c.sources|
    requires var x := RecvEvent(c, JointRun(h, c, Begin(h, c, s), events), e);
             x.Some? && x.value.Data? && x.value.sid == c.sid
    ensures var j := JointRun(h, c, Begin(h, c, s), events); HonestData(h, j.recv, RecvEvent(c, j, e).value)
  {
    hide Inv, WellNamed, JointRun, Begin, AgreedInv, WellPlanned, ShakyParent, AllSteady, HonestBytes;
    var j0 := Begin(h, c, s);
    var j, b := JointRun(h, c, j0, events), JointRun(h, c, j0, Unfailing(h, c, j0, events));
    BeginAgreed(h, c, s);
    BeginIsNotFailed(h, c, s);
    UnfailingRuns(h, c, j0, events);
    JointRunKeepsAgreed(h, c, j0, Unfailing(h, c, j0, events));
    StreamsItsSource(h, c, b);
    var phase := j.recv.sessions[c.sid].phase;
    var i := phase.index;
    assert j.toR[0].bytes == c.sources[i][|phase.hashed|..|phase.hashed| + phase.left];
    var n := |RecvEvent(c, j, e).value.bytes|;
    assert RecvEvent(c, j, e).value.bytes == c.sources[i][|phase.hashed|..|phase.hashed| + n];
    EntryIsDeclared(h, c, i);
    SourceBytesAreHonest(h, c.manifest[i], c.sources[i], phase.hashed, RecvEvent(c, j, e).value.bytes);
  }

  lemma EntryIsDeclared(h: Hash, c: Plan, i: nat)
    requires WellPlanned(h, c) && i < |c.manifest| == |c.sources| && !c.manifest[i].isDir
    ensures c.manifest[i].sha == h(c.sources[i])
  {
    hide CleanManifest;
  }

  lemma SourceBytesAreHonest(h: Hash, meta: FileMeta, x: Bytes, hashed: Bytes, bytes: Bytes)
    requires HexDigests(h) && CollisionFree(h) && meta.sha == h(x)
    requires |hashed| + |bytes| <= |x| && bytes == x[|hashed|..|hashed| + |bytes|]
    ensures HonestBytes(h, meta, hashed, bytes)
  {
    hide TrimSpace, Lower;
    HexDigestIsPlain(h, meta, x);
    forall y: Bytes | EqualFold(TrimSpace(Lower(meta.sha)), h(y)) && hashed <= y ensures hashed + bytes <= y {
      assert y == x;
    }
  }

  // ----- what is on disk ------------------------------------------------------------------------------

  /** The other sessions of the run are honest. */
  ghost predicate OthersHonest(h: Hash, c: Plan, j: Joint, events: seq<JointEvent>)
    requires |c.manifest| == |c.sources|
  {
    forall k | 0 <= k < |events| && events[k].Foreign? :: HonestData(h, JointRun(h, c, j, events[..k]).recv, events[k].e)
  }

  /** In a joint run whose other sessions are honest, every partial with a matching sidecar stays a prefix. */
  lemma {:induction false} JointKeepsPrefixes(h: Hash, c: Plan, s: State, events: seq<JointEvent>)
    requires HexDigests(h) && CollisionFree(h)
    requires Inv(h, s) && WellNamed(s) && WellPlanned(h, c) && c.manifest != [] && c.sid !in s.sessions && AllAllowed(events)
    requires AllSteady(c) && |c.manifest| == |c.sources| && PartialsArePrefixes(h, s) && Tree(s.files, s.dirs)
    requires OthersHonest(h, c, Begin(h, c, s), events)
    ensures PartialsArePrefixes(h, JointRun(h, c, Begin(h, c, s), events).recv)
  {
    hide Inv, WellNamed, Begin, AgreedInv, WellPlanned, AllSteady, HonestData, PartialsArePrefixes, JointStep, Allowed, RecvEvent;
    var j0 := Begin(h, c, s);
    if events == [] {
      JointRunNone(h, c, j0);
      BeginPrefixes(h, c, s);
    } else {
      var before, e := events[..|events| - 1], events[|events| - 1];
      forall k | 0 <= k < |before| && before[k].Foreign? ensures HonestData(h, JointRun(h, c, j0, before[..k]).recv, before[k].e) {
        assert before[..k] == events[..k] && before[k] == events[k];
      }
      JointKeepsPrefixes(h, c, s, before);
      var j := JointRun(h, c, j0, before);
      BeginAgreed(h, c, s);
      JointRunKeepsAgreed(h, c, j0, before);
      RecvIsFine(h, c, j);
      DiskIsTree(h, c, s, before);
      JointRecv(h, c, j, e);
      if RecvEvent(c, j, e).Some? {
        StepIsHonest(h, c, s, before, e);
        StepKeepsPrefixes(h, j.recv, RecvEvent(c, j, e).value);
      }
    }
  }

  lemma RecvIsFine(h: Hash, c: Plan, j: Joint)
    requires AgreedInv(h, c, j)
    ensures Inv(h, j.recv)
  {
    hide Inv;
  }

  lemma DiskIsTree(h: Hash, c: Plan, s: State, events: seq<JointEvent>)
    requires Inv(h, s) && WellNamed(s) && WellPlanned(h, c) && c.manifest != [] && c.sid !in s.sessions && AllAllowed(events)
    requires |c.manifest| == |c.sources| && Tree(s.files, s.dirs)
    ensures JointRun(h, c, Begin(h, c, s), events).recv.files.Keys !! JointRun(h, c, Begin(h, c, s), events).recv.dirs
  {
    hide Inv, WellNamed, JointRun, Begin, JointInv, WellPlanned, HasParent;
    BeginInv(h, c, s);
    Arrival.BeginDirs(h, c, s);
    Arrival.JointRunKeepsDirs(h, c, Begin(h, c, s), events);
  }

  lemma BeginPrefixes(h: Hash, c: Plan, s: State)
    requires PartialsArePrefixes(h, s)
    ensures PartialsArePrefixes(h, Begin(h, c, s).recv)
  {
    hide PrefixAt, Legal;
  }

  /** The receiver's step in a joint step is honest, be it the sender's bytes or another session's. */
  lemma StepIsHonest(h: Hash, c: Plan, s: State, before: seq<JointEvent>, e: JointEvent)
    requires HexDigests(h) && CollisionFree(h)
    requires Inv(h, s) && WellNamed(s) && WellPlanned(h, c) && c.manifest != [] && c.sid !in s.sessions && AllAllowed(before)
    requires AllSteady(c) && |c.manifest| == |c.sources|
    requires var j := JointRun(h, c, Begin(h, c, s), before);
             && RecvEvent(c, j, e).Some? && (e.Foreign? ==> HonestData(h, j.recv, e.e))
    ensures var j := JointRun(h, c, Begin(h, c, s), before); HonestData(h, j.recv, RecvEvent(c, j, e).value)
  {
    hide Inv, WellNamed, Begin, WellPlanned, AllSteady, HonestBytes, JointRun;
    var j := JointRun(h, c, Begin(h, c, s), before);
    if RecvEvent(c, j, e).value.Data? && !e.Foreign? { JointDataIsHonest(h, c, s, before, e); }
  }

  // ----- any number of senders --------------------------------------------------------------------------

  /**
   * The k-th event of the run, if it is payload, comes from a sender: the session is the receiving end of a
   * joint run that has reached this very state, and the bytes are the next of its stream.
   */
  ghost predicate Driven(h: Hash, s: State, events: seq<Event>, k: nat)
    requires k < |events|
  {
    events[k].Data? ==>
      exists c: Plan, s1: State, run: seq<JointEvent>, e: JointEvent :: DrivenBy(h, Run(h, s, events[..k]), events[k], c, s1, run, e)
  }

  ghost predicate DrivenBy(h: Hash, now: State, x: Event, c: Plan, s1: State, run: seq<JointEvent>, e: JointEvent) {
    && Inv(h, s1) && WellNamed(s1) && WellPlanned(h, c) && c.manifest != [] && c.sid !in s1.sessions && AllAllowed(run)
    && AllSteady(c) && |c.manifest| == |c.sources|
    && var j := JointRun(h, c, Begin(h, c, s1), run);
       j.recv == now && x.sid == c.sid && RecvEvent(c, j, e) == Some(x)
  }

  /**
   * When every session's payload comes from a sender like this one, in every interleaving and across every drop,
   * each partial whose sidecar records the digest of x is a prefix of x.
   */
  lemma DrivenPartialsArePrefixes(h: Hash, s: State, events: seq<Event>)
    requires HexDigests(h) && CollisionFree(h)
    requires Inv(h, s) && Tree(s.files, s.dirs) && PartialsArePrefixes(h, s) && AllAdmissible(events)
    requires forall k | 0 <= k < |events| :: Driven(h, s, events, k)
    ensures PartialsArePrefixes(h, Run(h, s, events))
  {
    hide Inv, PartialsArePrefixes, DrivenBy, HonestBytes;
    forall k | 0 <= k < |events| ensures HonestData(h, Run(h, s, events[..k]), events[k]) {
      if events[k].Data? {
        assert Driven(h, s, events, k);
        var c: Plan, s1: State, run: seq<JointEvent>, e: JointEvent :|
          DrivenBy(h, Run(h, s, events[..k]), events[k], c, s1, run, e);
        DrivenIsHonest(h, Run(h, s, events[..k]), events[k], c, s1, run, e);
      }
    }
    HonestPartialsArePrefixes(h, s, events);
  }

  lemma DrivenIsHonest(h: Hash, now: State, x: Event, c: Plan, s1: State, run: seq<JointEvent>, e: JointEvent)
    requires HexDigests(h) && CollisionFree(h) && x.Data? && DrivenBy(h, now, x, c, s1, run, e)
    ensures HonestData(h, now, x)
  {
    hide Inv, WellNamed, HonestData, JointRun, Begin, RecvEvent, WellPlanned, AllSteady;
    JointDataIsHonest(h, c, s1, run, e);
  }
}
