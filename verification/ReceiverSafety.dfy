/**
 * What every step of the receiver keeps, in every interleaving of any number of sessions:
 * each delivered file has the length and digest its entry declared, no file outside the
 * temporaries is ever changed, live slots never share a path, and a resume offer stays true.
 */
module ReceiverSafety {
  import opened Basics
  import opened Names
  import opened Receiver

  // ----- the invariant ----------------------------------------------------

  predicate Committed(sess: Session, i: nat) {
    i in sess.completed || sess.phase == Cleaning(i)
  }

  /** The session has started receiving file i in this attempt. */
  predicate Opened(sess: Session, i: nat) {
    || (sess.phase.Opening? && sess.phase.index == i)
    || (sess.phase.Body? && sess.phase.index == i)
    || (sess.phase.Renaming? && sess.phase.index == i)
  }

  /** No entry asks for a name that can be mistaken for a temporary. */
  predicate CleanManifest(manifest: seq<FileMeta>) {
    forall k | 0 <= k < |manifest| && !manifest[k].isDir ::
      WantedName(manifest[k]).Some? ==> !Reserved(WantedName(manifest[k]).value)
  }

  predicate Admissible(e: Event) {
    e.Start? ==> CleanManifest(e.manifest)
  }

  predicate SlotOk(s: State, sess: Session, i: nat)
    requires i in sess.slots
  {
    var dest := sess.slots[i];
    && i < |sess.manifest| && !sess.manifest[i].isDir
    && Legal(dest) && !TempName(dest)
    && (i !in sess.released ==> Tmp(dest) in s.claims)
    && (i !in sess.released && !Committed(sess, i) ==> dest !in s.files && dest !in s.delivered)
    && (Committed(sess, i) ==> dest in s.delivered && s.delivered[dest] == sess.manifest[i])
  }

  ghost predicate PhaseOk(h: Hash, s: State, sess: Session) {
    && PhaseInRange(sess)
    && (!sess.phase.Ended? ==> sess.released == {})
    && (forall c | c in sess.completed :: c < |sess.manifest| && (!sess.manifest[c].isDir ==> c in sess.slots))
    && match sess.phase
       case QueryReserve(i) => !sess.manifest[i].isDir && sess.resume
       case QueryProbe(i) => sess.resume
       case Reserving(i) => i !in sess.completed && !sess.manifest[i].isDir
       case DirEntry(i) => i !in sess.completed && sess.manifest[i].isDir
       case Probing(i) => i !in sess.completed && sess.resume
       case Opening(i, offset) =>
         var tmp := Tmp(sess.slots[i]);
         && i !in sess.completed
         && (offset > 0 ==>
               && offset < sess.manifest[i].size && SidecarMatches(s.files, sess.slots[i], sess.manifest[i])
               && (tmp in s.dirs || (tmp in s.files && |s.files[tmp]| == offset)))
       case Body(i, got, length, left, hashed) =>
         var tmp := Tmp(sess.slots[i]);
         && i !in sess.completed
         && tmp in s.files && s.files[tmp] == hashed
         && (Sidecar(sess.slots[i]) in s.dirs || IsRecorded(s.files, sess.slots[i], sess.manifest[i]))
         && left <= length && |hashed| == got + (length - left)
         && (left == 0 ==> length == 0)
         && (left > 0 ==> got + length <= sess.manifest[i].size)
       case Renaming(i) =>
         var tmp := Tmp(sess.slots[i]);
         && i !in sess.completed
         && tmp in s.files && FitsEntry(h, s.files[tmp], sess.manifest[i])
       case Cleaning(i) => i !in sess.completed
       case _ => true
  }

  /** The sidecar holds the digest of the entry. */
  predicate IsRecorded(files: Files, dest: Path, meta: FileMeta) {
    Sidecar(dest) in files && files[Sidecar(dest)] == Lower(meta.sha)
  }

  /** The bytes have the length and the digest the entry declares. */
  predicate FitsEntry(h: Hash, bytes: Bytes, meta: FileMeta) {
    |bytes| == meta.size && EqualFold(h(bytes), meta.sha)
  }

  /** What was offered is what a new probe of a file would say; of a directory, a probe may say anything, if the sidecar matches. */
  predicate StillTrue(s: State, dest: Path, meta: FileMeta, offer: nat) {
    if Tmp(dest) in s.dirs then offer > 0 ==> SidecarMatches(s.files, dest, meta)
    else PartialLen(s.files, dest, meta) == offer
  }

  /** An offer made for a file not yet opened is what a new probe would say. */
  predicate OfferAt(s: State, sess: Session, i: nat)
    requires i in sess.offers
  {
    && i in sess.slots && i < |sess.manifest| && sess.resume
    && (i !in sess.released && !Committed(sess, i) && !Opened(sess, i) && !sess.phase.Ended? ==>
          StillTrue(s, sess.slots[i], sess.manifest[i], sess.offers[i]))
  }

  /** A file about to be opened, where no directory is in the way, is opened at the offset offered for it. */
  predicate OpensAsOffered(s: State, sess: Session) {
    sess.phase.Opening? && sess.phase.index in sess.offers && sess.phase.index in sess.slots
    && Tmp(sess.slots[sess.phase.index]) !in s.dirs ==>
      sess.phase.offset == sess.offers[sess.phase.index]
  }

  predicate OffersOk(s: State, sess: Session) {
    && (forall i | i in sess.offers :: OfferAt(s, sess, i))
    && OpensAsOffered(s, sess)
  }

  ghost predicate SessOk(h: Hash, s: State, sess: Session) {
    && CleanManifest(sess.manifest)
    && (forall i | i in sess.slots :: SlotOk(s, sess, i))
    && PhaseOk(h, s, sess)
    && OffersOk(s, sess)
  }

  predicate Live(s: State, sid: Sid, i: nat) {
    sid in s.sessions && i in s.sessions[sid].slots && i !in s.sessions[sid].released
  }

  function DestOf(s: State, sid: Sid, i: nat): Path
    requires Live(s, sid, i)
  {
    s.sessions[sid].slots[i]
  }

  /** Live slots have pairwise distinct destinations, so distinct temporaries and sidecars. */
  ghost predicate Distinct(s: State) {
    forall a, i, b, j | Live(s, a, i) && Live(s, b, j) && DestOf(s, a, i) == DestOf(s, b, j) :: a == b && i == j
  }

  /** Every claim belongs to a live slot. */
  ghost predicate ClaimsOwned(s: State) {
    forall t | t in s.claims :: exists a, i :: Live(s, a, i) && t == Tmp(DestOf(s, a, i))
  }

  predicate DeliveredOk(h: Hash, s: State) {
    forall p | p in s.delivered :: p in s.files && !TempName(p) && FitsEntry(h, s.files[p], s.delivered[p])
  }

  ghost predicate Inv(h: Hash, s: State) {
    && (forall a | a in s.sessions :: SessOk(h, s, s.sessions[a]))
    && Distinct(s)
    && ClaimsOwned(s)
    && DeliveredOk(h, s)
  }

  /** Every file that is not a temporary is still there with the same bytes. */
  predicate Preserves(s: State, s': State) {
    && (forall p | p in s.files && !TempName(p) :: p in s'.files && s'.files[p] == s.files[p])
    && (forall p | p in s.delivered :: p in s'.delivered && s'.delivered[p] == s.delivered[p])
  }

  // ----- frames: what another session's step leaves alone -------------------

  predicate SameAt(f: Files, g: Files, p: Path) {
    (p in f <==> p in g) && (p in f ==> f[p] == g[p])
  }

  /** A directory at p is still there, and one that is new has not replaced a file. */
  predicate DirAt(files: Files, dirs: set<Path>, dirs': set<Path>, p: Path) {
    && (p in dirs ==> p in dirs')
    && (p in dirs' && p !in dirs ==> p !in files)
  }

  ghost predicate DirsGrow(s: State, s': State) {
    forall p :: DirAt(s.files, s.dirs, s'.dirs, p)
  }

  predicate Untouched(s: State, s': State, d: Path) {
    && SameAt(s.files, s'.files, Tmp(d)) && SameAt(s.files, s'.files, Sidecar(d))
    && DirAt(s.files, s.dirs, s'.dirs, Tmp(d)) && DirAt(s.files, s.dirs, s'.dirs, Sidecar(d))
  }

  predicate MapsInto(m: map<Path, FileMeta>, m': map<Path, FileMeta>) {
    forall p | p in m :: p in m' && m'[p] == m[p]
  }

  /** A session whose own paths did not change is still fine. */
  lemma SessFrame(h: Hash, s: State, s': State, sess: Session)
    requires SessOk(h, s, sess)
    requires MapsInto(s.delivered, s'.delivered)
    requires forall i | i in sess.slots && i !in sess.released ::
      && Untouched(s, s', sess.slots[i])
      && Tmp(sess.slots[i]) in s'.claims
      && (!Committed(sess, i) ==> sess.slots[i] !in s'.files && sess.slots[i] !in s'.delivered)
    ensures SessOk(h, s', sess)
  {
    hide Legal, TempName, FitsEntry, PartialLen;
    forall i | i in sess.slots ensures SlotOk(s', sess, i) {
      assert SlotOk(s, sess, i);
    }
    forall i | i in sess.offers ensures OfferAt(s', sess, i) {
      assert OfferAt(s, sess, i);
      if i !in sess.released { SamePartial(s, s', sess.slots[i], sess.manifest[i]); }
    }
    if sess.phase.Opening? || sess.phase.Body? || sess.phase.Renaming? {
      assert Untouched(s, s', sess.slots[sess.phase.index]);
    }
  }

  /** The two states differ on disk at most at the temporary and the sidecar of d. */
  ghost predicate OnlyTemps(s: State, s': State, d: Path) {
    forall p :: p == Tmp(d) || p == Sidecar(d) || (SameAt(s.files, s'.files, p) && DirAt(s.files, s.dirs, s'.dirs, p))
  }

  /** As OnlyTemps, and possibly a new file at d itself. */
  ghost predicate OnlyPaths(s: State, s': State, d: Path) {
    forall p :: p == d || p == Tmp(d) || p == Sidecar(d) || (SameAt(s.files, s'.files, p) && DirAt(s.files, s.dirs, s'.dirs, p))
  }

  /** Working on the paths of d leaves alone every session that does not hold d. */
  lemma OtherSession(h: Hash, s: State, s': State, sess: Session, d: Path)
    requires SessOk(h, s, sess) && Legal(d) && !TempName(d)
    requires s'.claims == s.claims && OnlyPaths(s, s', d)
    requires MapsInto(s.delivered, s'.delivered) && s'.delivered.Keys <= s.delivered.Keys + {d}
    requires forall j | j in sess.slots && j !in sess.released :: sess.slots[j] != d
    ensures SessOk(h, s', sess)
  {
    hide Legal, TempName, FitsEntry, PartialLen;
    forall j | j in sess.slots && j !in sess.released
      ensures Untouched(s, s', sess.slots[j])
      ensures Tmp(sess.slots[j]) in s'.claims
      ensures !Committed(sess, j) ==> sess.slots[j] !in s'.files && sess.slots[j] !in s'.delivered
    {
      assert SlotOk(s, sess, j);
      ApartIsSame(s, s', d, sess.slots[j]);
    }
    SessFrame(h, s, s', sess);
  }

  lemma OnlyTempsPreserves(h: Hash, s: State, s': State, d: Path)
    requires Legal(d) && OnlyTemps(s, s', d) && s'.delivered == s.delivered
    ensures Preserves(s, s')
    ensures DeliveredOk(h, s) ==> DeliveredOk(h, s')
  {
    TempPathsAreTempNames(d);
    forall p | p in s.files && !TempName(p) ensures p in s'.files && s'.files[p] == s.files[p] {
      assert SameAt(s.files, s'.files, p);
    }
  }

  /** The state keeps everything session sess relies on for its slots other than i. */
  predicate KeepsOthers(s: State, s': State, sess: Session, i: nat) {
    forall j | j in sess.slots && j !in sess.released && j != i ::
      && Untouched(s, s', sess.slots[j])
      && Tmp(sess.slots[j]) in s'.claims
      && (sess.slots[j] !in s.files ==> sess.slots[j] !in s'.files)
      && (sess.slots[j] !in s.delivered ==> sess.slots[j] !in s'.delivered)
  }

  /** The same session, with a new phase for index i. */
  ghost predicate SameButIndex(sess: Session, sess': Session, i: nat) {
    && sess'.manifest == sess.manifest && sess'.resume == sess.resume
    && sess'.slots == sess.slots && sess'.released == sess.released
    && (forall j | j != i :: Committed(sess', j) == Committed(sess, j) && !Opened(sess', j) && !Opened(sess, j))
    && sess'.offers.Keys <= sess.offers.Keys + {i}
    && (forall j | j in sess'.offers && j != i :: sess'.offers[j] == sess.offers[j])
    && !sess.phase.Ended?
  }

  lemma SamePartial(s: State, s': State, d: Path, meta: FileMeta)
    requires Untouched(s, s', d)
    ensures forall offer :: StillTrue(s, d, meta, offer) ==> StillTrue(s', d, meta, offer)
  {
    hide EqualFold, TrimSpace;
  }

  lemma OwnFrame(h: Hash, s: State, s': State, sess: Session, sess': Session, i: nat)
    requires SessOk(h, s, sess) && SameButIndex(sess, sess', i) && KeepsOthers(s, s', sess, i)
    requires MapsInto(s.delivered, s'.delivered)
    ensures CleanManifest(sess'.manifest)
    ensures forall j | j in sess'.slots && j != i :: SlotOk(s', sess', j)
    ensures forall j | j in sess'.offers && j != i :: OfferAt(s', sess', j)
  {
    hide Legal, TempName, FitsEntry, PartialLen;
    forall j | j in sess'.slots && j != i ensures SlotOk(s', sess', j) {
      assert SlotOk(s, sess, j);
    }
    forall j | j in sess'.offers && j != i ensures OfferAt(s', sess', j) {
      assert OfferAt(s, sess, j);
      if j !in sess.released { SamePartial(s, s', sess.slots[j], sess.manifest[j]); }
    }
  }

  /** Working on the paths of slot i keeps what the session relies on for its other slots. */
  lemma OwnPaths(h: Hash, s: State, s': State, sid: Sid, i: nat)
    requires Inv(h, s) && Live(s, sid, i)
    requires OnlyPaths(s, s', DestOf(s, sid, i))
    requires s'.claims == s.claims && s'.delivered.Keys <= s.delivered.Keys + {DestOf(s, sid, i)}
    ensures KeepsOthers(s, s', s.sessions[sid], i)
  {
    hide Legal, TempName, FitsEntry, PartialLen, SessOk;
    var sess, d := s.sessions[sid], DestOf(s, sid, i);
    SlotFacts(h, s, sid, i);
    forall j | j in sess.slots && j !in sess.released && j != i
      ensures Untouched(s, s', sess.slots[j])
      ensures Tmp(sess.slots[j]) in s'.claims
      ensures SameAt(s.files, s'.files, sess.slots[j])
      ensures sess.slots[j] !in s.delivered ==> sess.slots[j] !in s'.delivered
    {
      assert Live(s, sid, j);
      SlotFacts(h, s, sid, j);
      ApartIsSame(s, s', d, DestOf(s, sid, j));
    }
  }

  lemma ApartIsSame(s: State, s': State, d: Path, e: Path)
    requires d != e && Legal(d) && Legal(e) && !TempName(d) && !TempName(e) && OnlyPaths(s, s', d)
    ensures Untouched(s, s', e) && SameAt(s.files, s'.files, e)
  {
    PathsApart(d, e);
    assert SameAt(s.files, s'.files, Tmp(e)) && SameAt(s.files, s'.files, Sidecar(e)) && SameAt(s.files, s'.files, e);
  }

  lemma PathsApart(d: Path, e: Path)
    requires d != e && Legal(d) && Legal(e) && !TempName(d) && !TempName(e)
    ensures Tmp(e) !in {d, Tmp(d), Sidecar(d)}
    ensures Sidecar(e) !in {d, Tmp(d), Sidecar(d)}
    ensures e !in {d, Tmp(d), Sidecar(d)}
  {
    TempPathsDiffer(d, e);
    TempPathsDiffer(e, d);
    TempPathsAreTempNames(d);
    TempPathsAreTempNames(e);
  }

  lemma SlotFacts(h: Hash, s: State, sid: Sid, i: nat)
    requires Inv(h, s) && sid in s.sessions && i in s.sessions[sid].slots
    ensures SlotOk(s, s.sessions[sid], i)
  {
    assert SessOk(h, s, s.sessions[sid]);
  }

  /** s' differs from s in the sessions only at sid, whose slots it keeps. */
  predicate OnlySession(s: State, s': State, sid: Sid) {
    && sid in s.sessions && s'.sessions.Keys == s.sessions.Keys
    && (forall a | a in s.sessions && a != sid :: s'.sessions[a] == s.sessions[a])
    && s'.sessions[sid].slots == s.sessions[sid].slots && s'.sessions[sid].released == s.sessions[sid].released
  }

  /** A step of sid that writes at most the temporaries of its live slot i. */
  lemma WriteKeepsInv(h: Hash, s: State, s': State, sid: Sid, i: nat)
    requires Inv(h, s) && Live(s, sid, i) && OnlySession(s, s', sid)
    requires s'.claims == s.claims && s'.delivered == s.delivered && OnlyTemps(s, s', DestOf(s, sid, i))
    requires SessOk(h, s', s'.sessions[sid])
    ensures Inv(h, s') && Preserves(s, s')
  {
    hide Legal, TempName, FitsEntry, PartialLen, SessOk;
    var d := DestOf(s, sid, i);
    SlotFacts(h, s, sid, i);
    forall a | a in s'.sessions ensures SessOk(h, s', s'.sessions[a]) {
      if a != sid {
        OthersHold(s, sid, i, a);
        OtherSession(h, s, s', s.sessions[a], d);
      }
    }
    OnlyTempsPreserves(h, s, s', d);
    SameSlots(s, s', sid);
  }

  lemma OthersHold(s: State, sid: Sid, i: nat, a: Sid)
    requires Distinct(s) && Live(s, sid, i) && a in s.sessions && a != sid
    ensures forall j | j in s.sessions[a].slots && j !in s.sessions[a].released :: s.sessions[a].slots[j] != DestOf(s, sid, i)
  {
    forall j | j in s.sessions[a].slots && j !in s.sessions[a].released
      ensures s.sessions[a].slots[j] != DestOf(s, sid, i)
    {
      assert Live(s, a, j) && DestOf(s, a, j) == s.sessions[a].slots[j];
    }
  }

  lemma SameSlots(s: State, s': State, sid: Sid)
    requires OnlySession(s, s', sid) && s'.claims == s.claims
    ensures Distinct(s) ==> Distinct(s')
    ensures ClaimsOwned(s) ==> ClaimsOwned(s')
  {
    hide Legal, TempName, FitsEntry, PartialLen, SessOk;
    assert forall a, i :: Live(s, a, i) <==> Live(s', a, i);
    if ClaimsOwned(s) {
      forall t | t in s'.claims ensures exists a, i :: Live(s', a, i) && t == Tmp(DestOf(s', a, i)) {
        var a, i :| Live(s, a, i) && t == Tmp(DestOf(s, a, i));
        assert Live(s', a, i) && t == Tmp(DestOf(s', a, i));
      }
    }
  }

  /** A step that changes only the session record and the directories. */
  lemma QuietKeepsInv(h: Hash, s: State, s': State, sid: Sid)
    requires Inv(h, s) && OnlySession(s, s', sid)
    requires s'.claims == s.claims && s'.delivered == s.delivered && s'.files == s.files && DirsGrow(s, s')
    requires SessOk(h, s', s'.sessions[sid])
    ensures Inv(h, s') && Preserves(s, s')
  {
    hide Legal, TempName, FitsEntry, PartialLen, SessOk;
    forall a | a in s'.sessions ensures SessOk(h, s', s'.sessions[a]) {
      if a != sid {
        ReservedOther(h, s, s', s.sessions[a]);
      }
    }
    SameSlots(s, s', sid);
  }

  // ----- directories only grow when made ---------------------------------------

  lemma {:induction false} MakeDirsGrow(files: Files, dirs: set<Path>, parts: seq<string>)
    ensures var r := MakeDirs(files, dirs, parts);
            dirs <= r.dirs && forall p | p in r.dirs && p !in dirs :: p !in files
  {
    hide Join;
    if parts != [] { MakeDirsGrow(files, dirs, parts[..|parts| - 1]); }
  }

  lemma CreateGrows(s: State, rel: string)
    ensures DirsGrow(s, s.(dirs := CreateDirectory(s.files, s.dirs, rel).dirs))
  {
    hide MakeDirs, Split, ValidRelPath;
    MakeDirsGrow(s.files, s.dirs, Split(rel));
  }

  lemma ReserveGrows(s: State, meta: FileMeta)
    ensures DirsGrow(s, s.(dirs := Reserve(s, meta).dirs))
  {
    hide CreateDirectory, Split, Join, FreeName, WantedName, Occupied;
    if WantedName(meta).Some? {
      var parts := Split(WantedName(meta).value);
      CreateGrows(s, Join(parts[..|parts| - 1]));
    }
  }

  // ----- the steps, one lemma each -------------------------------------------

  /** A destination handed out by the reservation is free, legal and never a temporary. */
  lemma GrantedIsFree(s: State, meta: FileMeta)
    requires Reserve(s, meta).Granted?
    requires WantedName(meta).Some? ==> !Reserved(WantedName(meta).value)
    ensures var d := Reserve(s, meta).dest;
            && Legal(d) && !TempName(d)
            && d !in s.files && d !in s.dirs && Tmp(d) !in s.claims
  {
    var name := WantedName(meta).value;
    if meta.relPath == "" { SanitizedIsLegal(meta.name); }
    var i := FirstFree(name, Occupied(s), 0);
    CandidateIsLegal(name, i);
    UnreservedStaysUnreserved(name, i);
  }

  /** The session that got slot d for index i. */
  lemma ReservedSession(h: Hash, s: State, s': State, sess: Session, i: nat, d: Path, phase: Phase)
    requires SessOk(h, s, sess) && !sess.phase.Ended?
    requires sess.phase == QueryReserve(i) || sess.phase == Reserving(i)
    requires i < |sess.manifest| && i !in sess.slots && !sess.manifest[i].isDir
    requires Legal(d) && !TempName(d) && d !in s.files && d !in s.delivered
    requires s'.files == s.files && s'.delivered == s.delivered && s'.claims == s.claims + {Tmp(d)} && DirsGrow(s, s')
    requires phase == QueryProbe(i) || phase == Probing(i) || (phase == Opening(i, 0) && !sess.resume)
    requires if phase == QueryProbe(i) then sess.resume else i !in sess.completed
    requires phase == Probing(i) ==> sess.resume
    ensures SessOk(h, s', sess.(slots := sess.slots[i := d], phase := phase))
  {
    hide Legal, TempName, FitsEntry, PartialLen;
    var sess' := sess.(slots := sess.slots[i := d], phase := phase);
    assert PhaseOk(h, s, sess) && OffersOk(s, sess);
    assert forall j | j in sess.offers :: OfferAt(s, sess, j);
    forall j | j in sess'.slots ensures SlotOk(s', sess', j) {
      if j != i { assert SlotOk(s, sess, j); }
    }
    forall j | j in sess'.offers ensures OfferAt(s', sess', j) {
      assert OfferAt(s, sess, j);
      SamePartial(s, s', sess.slots[j], sess.manifest[j]);
    }
  }

  /** Adding one slot at a destination nobody claims keeps the destinations distinct and the claims owned. */
  lemma ReservedDistinct(s: State, s': State, sid: Sid, i: nat, d: Path)
    requires Distinct(s) && ClaimsOwned(s) && sid in s.sessions && i !in s.sessions[sid].slots && i !in s.sessions[sid].released
    requires forall a, j | Live(s, a, j) :: DestOf(s, a, j) != d
    requires s'.sessions.Keys == s.sessions.Keys && s'.claims == s.claims + {Tmp(d)}
    requires forall a | a in s.sessions && a != sid :: s'.sessions[a] == s.sessions[a]
    requires s'.sessions[sid].slots == s.sessions[sid].slots[i := d] && s'.sessions[sid].released == s.sessions[sid].released
    ensures Distinct(s') && ClaimsOwned(s')
  {
    hide Legal, TempName, FitsEntry, PartialLen, SessOk;
    forall a, j | Live(s', a, j)
      ensures if a == sid && j == i then DestOf(s', a, j) == d else Live(s, a, j) && DestOf(s', a, j) == DestOf(s, a, j)
    {
    }
    forall t | t in s'.claims ensures exists a, j :: Live(s', a, j) && t == Tmp(DestOf(s', a, j)) {
      if t == Tmp(d) {
        assert Live(s', sid, i) && t == Tmp(DestOf(s', sid, i));
      } else {
        var a, j :| Live(s, a, j) && t == Tmp(DestOf(s, a, j));
        assert Live(s', a, j) && t == Tmp(DestOf(s', a, j));
      }
    }
  }

  lemma UnclaimedIsUnheld(h: Hash, s: State, d: Path)
    requires Inv(h, s) && Tmp(d) !in s.claims
    ensures forall a, j | Live(s, a, j) :: DestOf(s, a, j) != d
  {
    forall a, j | Live(s, a, j) ensures DestOf(s, a, j) != d {
      assert SessOk(h, s, s.sessions[a]) && SlotOk(s, s.sessions[a], j);
    }
  }

  lemma ReservedOther(h: Hash, s: State, s': State, sess: Session)
    requires SessOk(h, s, sess)
    requires s'.files == s.files && s'.delivered == s.delivered && s.claims <= s'.claims && DirsGrow(s, s')
    ensures SessOk(h, s', sess)
  {
    hide Legal, TempName, FitsEntry, PartialLen;
    forall j | j in sess.slots ensures SlotOk(s, sess, j) {}
    SessFrame(h, s, s', sess);
  }

  lemma ReserveKeepsInv(h: Hash, s: State, s': State, sid: Sid, i: nat, d: Path, phase: Phase)
    requires Inv(h, s) && sid in s.sessions
    requires var sess := s.sessions[sid];
             && (sess.phase == QueryReserve(i) || sess.phase == Reserving(i))
             && i < |sess.manifest| && i !in sess.slots && i !in sess.released && !sess.manifest[i].isDir
             && (phase == QueryProbe(i) || phase == Probing(i) || (phase == Opening(i, 0) && !sess.resume))
             && (if phase == QueryProbe(i) then sess.resume else i !in sess.completed)
             && (phase == Probing(i) ==> sess.resume)
             && s'.sessions == s.sessions[sid := sess.(slots := sess.slots[i := d], phase := phase)]
    requires Legal(d) && !TempName(d) && d !in s.files && Tmp(d) !in s.claims
    requires s'.files == s.files && s'.delivered == s.delivered && s'.claims == s.claims + {Tmp(d)} && DirsGrow(s, s')
    ensures Inv(h, s') && Preserves(s, s')
  {
    hide Legal, TempName, FitsEntry, PartialLen, SessOk;
    var sess := s.sessions[sid];
    assert d !in s.delivered;
    ReservedSession(h, s, s', sess, i, d, phase);
    UnclaimedIsUnheld(h, s, d);
    ReservedDistinct(s, s', sid, i, d);
    forall a | a in s'.sessions && a != sid ensures SessOk(h, s', s'.sessions[a]) {
      ReservedOther(h, s, s', s.sessions[a]);
    }
  }

  /** Releasing slot i of an ended session: only its claim goes. */
  lemma ReleasedSession(h: Hash, s: State, s': State, a: Sid, d: Path)
    requires a in s.sessions && SessOk(h, s, s.sessions[a])
    requires s'.files == s.files && s'.delivered == s.delivered && s'.claims == s.claims - {Tmp(d)} && DirsGrow(s, s')
    requires forall j | Live(s, a, j) :: DestOf(s, a, j) != d
    ensures SessOk(h, s', s.sessions[a])
  {
    hide Legal, TempName, FitsEntry, PartialLen;
    var sess := s.sessions[a];
    forall j | j in sess.slots && j !in sess.released ensures Tmp(sess.slots[j]) in s'.claims && SlotOk(s, sess, j) {
      assert Live(s, a, j) && SlotOk(s, sess, j);
      TempPathsDiffer(DestOf(s, a, j), d);
    }
    SessFrame(h, s, s', sess);
  }

  lemma ReleasedOwn(h: Hash, s: State, s': State, sess: Session, i: nat)
    requires SessOk(h, s, sess) && sess.phase.Ended? && i in sess.slots && i !in sess.released
    requires forall j | j in sess.slots && j !in sess.released && j != i :: sess.slots[j] != sess.slots[i]
    requires s'.files == s.files && s'.delivered == s.delivered && s'.claims == s.claims - {Tmp(sess.slots[i])} && DirsGrow(s, s')
    ensures SessOk(h, s', sess.(released := sess.released + {i}))
  {
    hide Legal, TempName, FitsEntry, PartialLen;
    var sess' := sess.(released := sess.released + {i});
    forall j | j in sess'.slots ensures SlotOk(s', sess', j) {
      assert SlotOk(s, sess, j);
      TempPathsDiffer(sess.slots[j], sess.slots[i]);
    }
  }

  lemma ReleasedDistinct(s: State, s': State, sid: Sid, i: nat)
    requires Distinct(s) && ClaimsOwned(s) && Live(s, sid, i)
    requires s'.sessions == s.sessions[sid := s.sessions[sid].(released := s.sessions[sid].released + {i})]
    requires s'.claims == s.claims - {Tmp(DestOf(s, sid, i))}
    ensures Distinct(s') && ClaimsOwned(s')
  {
    hide Legal, TempName, FitsEntry, PartialLen, SessOk;
    forall a, j ensures Live(s', a, j) <==> Live(s, a, j) && !(a == sid && j == i) {}
    forall a, j | Live(s', a, j) ensures DestOf(s', a, j) == DestOf(s, a, j) {}
    forall t | t in s'.claims ensures exists a, j :: Live(s', a, j) && t == Tmp(DestOf(s', a, j)) {
      var a, j :| Live(s, a, j) && t == Tmp(DestOf(s, a, j));
      assert Live(s', a, j) && t == Tmp(DestOf(s', a, j));
    }
  }

  lemma ReleaseKeepsInv(h: Hash, s: State, s': State, sid: Sid, i: nat)
    requires Inv(h, s) && Live(s, sid, i) && s.sessions[sid].phase.Ended?
    requires s'.files == s.files && s'.delivered == s.delivered && s'.claims == s.claims - {Tmp(DestOf(s, sid, i))} && DirsGrow(s, s')
    requires s'.sessions == s.sessions[sid := s.sessions[sid].(released := s.sessions[sid].released + {i})]
    ensures Inv(h, s') && Preserves(s, s')
  {
    hide Legal, TempName, FitsEntry, PartialLen, SessOk;
    var d := DestOf(s, sid, i);
    forall j | j in s.sessions[sid].slots && j !in s.sessions[sid].released && j != i
      ensures s.sessions[sid].slots[j] != d
    {
      assert Live(s, sid, j) && DestOf(s, sid, j) == s.sessions[sid].slots[j];
    }
    ReleasedOwn(h, s, s', s.sessions[sid], i);
    forall a | a in s'.sessions && a != sid ensures SessOk(h, s', s'.sessions[a]) {
      OthersHold(s, sid, i, a);
      forall j | Live(s, a, j) ensures DestOf(s, a, j) != d { assert s.sessions[a].slots[j] != d; }
      ReleasedSession(h, s, s', a, d);
    }
    ReleasedDistinct(s, s', sid, i);
  }

  /** The session whose partial was renamed into place. */
  lemma RenamedOwn(h: Hash, s: State, s': State, sess: Session, i: nat)
    requires SessOk(h, s, sess) && sess.phase == Renaming(i)
    requires s'.claims == s.claims && KeepsOthers(s, s', sess, i)
    requires sess.slots[i] !in s.delivered && s'.delivered == s.delivered[sess.slots[i] := sess.manifest[i]]
    ensures SessOk(h, s', sess.(phase := Cleaning(i)))
  {
    hide Legal, TempName, FitsEntry, PartialLen;
    var sess' := sess.(phase := Cleaning(i));
    OwnFrame(h, s, s', sess, sess', i);
    assert SlotOk(s, sess, i) && SlotOk(s', sess', i);
    if i in sess.offers { assert OfferAt(s, sess, i) && OfferAt(s', sess', i); }
  }

  lemma RenameKeepsInv(h: Hash, s: State, s': State, sid: Sid, i: nat, d: Path, meta: FileMeta)
    requires Inv(h, s) && Live(s, sid, i) && d == DestOf(s, sid, i)
    requires s.sessions[sid].phase == Renaming(i) && i < |s.sessions[sid].manifest| && meta == s.sessions[sid].manifest[i]
    requires Tmp(d) in s.files && FitsEntry(h, s.files[Tmp(d)], meta)
    requires Legal(d) && !TempName(d) && d !in s.files && d !in s.delivered
    requires s'.files == (s.files - {Tmp(d)})[d := s.files[Tmp(d)]] && s'.claims == s.claims && s'.dirs == s.dirs
    requires s'.delivered == s.delivered[d := meta]
    requires s'.sessions == s.sessions[sid := s.sessions[sid].(phase := Cleaning(i))]
    ensures Inv(h, s') && Preserves(s, s')
  {
    hide Legal, TempName, FitsEntry, PartialLen, SessOk;
    assert DeliveredOk(h, s') && Preserves(s, s') by { RenamePreserves(h, s, s', d, meta); }
    RenameOnlyPaths(s, s', d);
    RenamedAll(h, s, s', sid, i, d);
    SameSlots(s, s', sid);
  }

  lemma RenamedAll(h: Hash, s: State, s': State, sid: Sid, i: nat, d: Path)
    requires Inv(h, s) && Live(s, sid, i) && d == DestOf(s, sid, i)
    requires s.sessions[sid].phase == Renaming(i) && i < |s.sessions[sid].manifest|
    requires Legal(d) && !TempName(d) && d !in s.delivered && OnlyPaths(s, s', d)
    requires s'.claims == s.claims && s'.delivered == s.delivered[d := s.sessions[sid].manifest[i]]
    requires s'.sessions == s.sessions[sid := s.sessions[sid].(phase := Cleaning(i))]
    ensures forall a | a in s'.sessions :: SessOk(h, s', s'.sessions[a])
  {
    hide Legal, TempName, FitsEntry, PartialLen, SessOk;
    OwnPaths(h, s, s', sid, i);
    RenamedOwn(h, s, s', s.sessions[sid], i);
    forall a | a in s'.sessions && a != sid ensures SessOk(h, s', s'.sessions[a]) {
      OthersHold(s, sid, i, a);
      OtherSession(h, s, s', s.sessions[a], d);
    }
  }

  lemma RenameOnlyPaths(s: State, s': State, d: Path)
    requires Tmp(d) in s.files && s'.files == (s.files - {Tmp(d)})[d := s.files[Tmp(d)]] && s'.dirs == s.dirs
    ensures OnlyPaths(s, s', d)
  {
  }

  lemma RenamePreserves(h: Hash, s: State, s': State, d: Path, meta: FileMeta)
    requires DeliveredOk(h, s) && Legal(d) && !TempName(d) && d !in s.files && d !in s.delivered
    requires Tmp(d) in s.files && FitsEntry(h, s.files[Tmp(d)], meta)
    requires s'.files == (s.files - {Tmp(d)})[d := s.files[Tmp(d)]] && s'.delivered == s.delivered[d := meta]
    ensures DeliveredOk(h, s') && Preserves(s, s')
  {
    hide Legal, TempName, FitsEntry, PartialLen, SessOk;
    TempPathsAreTempNames(d);
  }

  /** Only the phase changes, and no open file becomes unopened in a running session. */
  lemma PhaseChange(h: Hash, s: State, s': State, sid: Sid, phase: Phase)
    requires Inv(h, s) && sid in s.sessions
    requires s'.files == s.files && s'.claims == s.claims && s'.delivered == s.delivered && DirsGrow(s, s')
    requires s'.sessions == s.sessions[sid := s.sessions[sid].(phase := phase)]
    requires var sess := s.sessions[sid];
             && !sess.phase.Ended? && !sess.phase.Cleaning? && !phase.Cleaning? && !phase.Opening?
             && PhaseOk(h, s', sess.(phase := phase))
             && (!phase.Ended? ==> forall j | Opened(sess, j) :: Opened(sess.(phase := phase), j))
    ensures Inv(h, s') && Preserves(s, s')
  {
    hide Legal, TempName, FitsEntry, PartialLen, SessOk, PhaseOk;
    PhaseOwn(h, s, s', s.sessions[sid], phase);
    QuietKeepsInv(h, s, s', sid);
  }

  lemma PhaseOwn(h: Hash, s: State, s': State, sess: Session, phase: Phase)
    requires SessOk(h, s, sess) && PhaseOk(h, s', sess.(phase := phase))
    requires s'.files == s.files && s'.claims == s.claims && s'.delivered == s.delivered && DirsGrow(s, s')
    requires !sess.phase.Ended? && !sess.phase.Cleaning? && !phase.Cleaning? && !phase.Opening?
    requires !phase.Ended? ==> forall j | Opened(sess, j) :: Opened(sess.(phase := phase), j)
    ensures SessOk(h, s', sess.(phase := phase))
  {
    hide Legal, TempName, FitsEntry, PartialLen, PhaseOk;
    var sess' := sess.(phase := phase);
    forall j | j in sess'.slots ensures SlotOk(s', sess', j) { assert SlotOk(s, sess, j); }
    forall j | j in sess'.offers ensures OfferAt(s', sess', j) {
      assert OfferAt(s, sess, j);
      SamePartial(s, s', sess.slots[j], sess.manifest[j]);
    }
  }

  /** A directory entry is done: the session's index i joins the completed ones. */
  lemma DirDoneKeepsInv(h: Hash, s: State, s': State, sid: Sid, i: nat)
    requires Inv(h, s) && sid in s.sessions && s.sessions[sid].phase == DirEntry(i)
    requires s'.files == s.files && s'.claims == s.claims && s'.delivered == s.delivered && DirsGrow(s, s')
    requires s'.sessions == s.sessions[sid := s.sessions[sid].(completed := s.sessions[sid].completed + {i}, phase := Idle)]
    ensures Inv(h, s') && Preserves(s, s')
  {
    hide Legal, TempName, FitsEntry, PartialLen, SessOk;
    var sess := s.sessions[sid];
    DirFacts(h, s, sess, i);
    DirDoneOwn(h, s, s', sess, i);
    QuietKeepsInv(h, s, s', sid);
  }

  lemma DirFacts(h: Hash, s: State, sess: Session, i: nat)
    requires SessOk(h, s, sess) && sess.phase == DirEntry(i)
    ensures i < |sess.manifest| && sess.manifest[i].isDir
  {
  }

  lemma DirDoneOwn(h: Hash, s: State, s': State, sess: Session, i: nat)
    requires SessOk(h, s, sess) && sess.phase == DirEntry(i) && i < |sess.manifest| && sess.manifest[i].isDir
    requires s'.files == s.files && s'.claims == s.claims && s'.delivered == s.delivered && DirsGrow(s, s')
    ensures SessOk(h, s', sess.(completed := sess.completed + {i}, phase := Idle))
  {
    hide Legal, TempName, PartialLen;
    var sess' := sess.(completed := sess.completed + {i}, phase := Idle);
    forall j | j in sess'.slots ensures SlotOk(s', sess', j) { assert SlotOk(s, sess, j); }
    forall j | j in sess'.offers ensures OfferAt(s', sess', j) {
      assert OfferAt(s, sess, j);
      SamePartial(s, s', sess.slots[j], sess.manifest[j]);
    }
  }

  lemma AssembleSess(h: Hash, s: State, sess: Session)
    requires CleanManifest(sess.manifest) && PhaseOk(h, s, sess)
    requires forall j | j in sess.slots :: SlotOk(s, sess, j)
    requires forall j | j in sess.offers :: OfferAt(s, sess, j)
    requires OpensAsOffered(s, sess)
    ensures SessOk(h, s, sess)
  {
    hide Legal, TempName, FitsEntry, PartialLen, SlotOk, OfferAt, PhaseOk;
  }

  /** Probing, opening or extending the partial of slot i, or giving it up. */
  lemma WorkOnPart(h: Hash, s: State, s': State, sid: Sid, i: nat, sess': Session)
    requires Inv(h, s) && Live(s, sid, i) && OnlyTemps(s, s', DestOf(s, sid, i))
    requires s'.claims == s.claims && s'.delivered == s.delivered && s'.sessions == s.sessions[sid := sess']
    requires SameButIndex(s.sessions[sid], sess', i)
    requires Committed(s.sessions[sid], i) == Committed(sess', i)
    requires PhaseOk(h, s', sess')
    requires i in sess'.offers ==> OfferAt(s', sess', i)
    requires OpensAsOffered(s', sess')
    ensures Inv(h, s') && Preserves(s, s')
  {
    hide Legal, TempName, FitsEntry, PartialLen, SessOk;
    var sess := s.sessions[sid];
    OwnPaths(h, s, s', sid, i);
    OwnFrame(h, s, s', sess, sess', i);
    SlotFacts(h, s, sid, i);
    TempPathsAreTempNames(DestOf(s, sid, i));
    assert SameAt(s.files, s'.files, DestOf(s, sid, i));
    assert SlotOk(s', sess', i);
    AssembleSess(h, s', sess');
    WriteKeepsInv(h, s, s', sid, i);
  }
}
