/**
 * The receiving daemon as a state machine over its sessions' steps.
 *
 * A step is one thing a session does between two points where other sessions may run:
 * taking a frame, reserving a slot (one critical section), probing a partial, opening it,
 * writing some bytes of a chunk, renaming, removing the sidecar, releasing one slot.
 * A connection may drop before any frame and inside any chunk.
 */
module Receiver {
  import opened Basics
  import opened Names

  type Sid = nat
  type Files = map<Path, Bytes>

  datatype FileMeta = FileMeta(isDir: bool, name: string, size: int, sha: Bytes, relPath: string)

  datatype Frame =
    | SessionEnd
    | Progress
    | ResumeQuery(index: int)
    | FileHeader(index: int)
    | Chunk(length: int)
    | FileEnd(index: int, length: int)
    | Unexpected

  datatype Reply =
    | Offer(index: int, bytes: int)
    | Ack(index: int, ok: bool)

  datatype Phase =
    | Idle
    | QueryReserve(index: nat)
    | QueryProbe(index: nat)
    | Reserving(index: nat)
    | Probing(index: nat)
    | Opening(index: nat, offset: nat)
    | Body(index: nat, got: nat, length: nat, left: nat, hashed: Bytes)
    | Renaming(index: nat)
    | Cleaning(index: nat)
    | DirEntry(index: nat)
    | Ended(ok: bool)

  /** slots maps an index to its destination; released are the slots already given back. */
  datatype Session = Session(
    manifest: seq<FileMeta>, resume: bool,
    slots: map<nat, Path>, released: set<nat>,
    completed: set<nat>, offers: map<nat, nat>, phase: Phase)

  /** delivered records every file renamed into place, with the entry that declared it. */
  datatype State = State(
    files: Files, dirs: set<Path>, claims: set<Path>,
    sessions: map<Sid, Session>, delivered: map<Path, FileMeta>)

  datatype Event =
    | Start(sid: Sid, manifest: seq<FileMeta>, resume: bool)
    | Recv(sid: Sid, frame: Frame)
    | Data(sid: Sid, bytes: Bytes)
    | Advance(sid: Sid)
    | ProbeDir(sid: Sid, size: nat)
    | Drop(sid: Sid)
    | Release(sid: Sid, index: nat)

  datatype Outcome = Outcome(state: State, replies: seq<Reply>)

  // ----- directories and slots --------------------------------------------

  datatype DirResult = DirResult(ok: bool, dirs: set<Path>)

  function MakeDirs(files: Files, dirs: set<Path>, parts: seq<string>): DirResult {
    if parts == [] then DirResult(true, dirs)
    else
      var r := MakeDirs(files, dirs, parts[..|parts| - 1]);
      if !r.ok || Join(parts) in files then DirResult(false, r.dirs)
      else DirResult(true, r.dirs + {Join(parts)})
  }

  function CreateDirectory(files: Files, dirs: set<Path>, rel: string): DirResult {
    if !ValidRelPath(rel) then DirResult(false, dirs) else MakeDirs(files, dirs, Split(rel))
  }

  /** The name a manifest entry asks for, or None for an unsafe relative path. */
  function WantedName(meta: FileMeta): Option<string> {
    if meta.relPath == "" then Some(SanitizeName(meta.name))
    else if ValidRelPath(meta.relPath) then Some(meta.relPath)
    else None
  }

  function Occupied(s: State): set<Path> {
    s.files.Keys + s.dirs + ClaimedNames(s.claims)
  }

  datatype Reservation = Granted(dest: Path, dirs: set<Path>) | Refused(dirs: set<Path>)

  function Reserve(s: State, meta: FileMeta): Reservation {
    match WantedName(meta)
    case None => Refused(s.dirs)
    case Some(name) =>
      var dest := FreeName(name, Occupied(s));
      var parts := Split(name);
      if meta.relPath != "" && |parts| > 1 then
        var r := CreateDirectory(s.files, s.dirs, Join(parts[..|parts| - 1]));
        if r.ok then Granted(dest, r.dirs) else Refused(r.dirs)
      else Granted(dest, s.dirs)
  }

  // ----- partials ---------------------------------------------------------

  function RemovePart(files: Files, dest: Path): Files {
    files - {Tmp(dest), Sidecar(dest)}
  }

  predicate EmptyDir(files: Files, dirs: set<Path>, p: Path) {
    p in dirs && forall q | q in files.Keys + dirs :: !(p + "/" <= q)
  }

  /** The directories left when os.Remove is called on some paths: it removes empty directories as well as files. */
  function Swept(files: Files, dirs: set<Path>, paths: set<Path>): set<Path> {
    dirs - (set p | p in paths && EmptyDir(files, dirs, p))
  }

  /** removePart on the whole disk. */
  function Removed(s: State, dest: Path): State {
    s.(files := RemovePart(s.files, dest), dirs := Swept(s.files, s.dirs, {Tmp(dest), Sidecar(dest)}))
  }

  predicate SidecarMatches(files: Files, dest: Path, meta: FileMeta) {
    Sidecar(dest) in files && EqualFold(TrimSpace(files[Sidecar(dest)]), meta.sha)
  }

  /** A partial that is non-empty and shorter than the declared size. */
  predicate HasPartial(files: Files, dest: Path, meta: FileMeta) {
    Tmp(dest) in files && 0 < |files[Tmp(dest)]| < meta.size
  }

  /** partialBytes, its result. */
  function PartialLen(files: Files, dest: Path, meta: FileMeta): nat {
    if HasPartial(files, dest, meta) && SidecarMatches(files, dest, meta) then |files[Tmp(dest)]| else 0
  }

  /** partialBytes, its effect: a partial of another original is removed. */
  function Probe(files: Files, dest: Path, meta: FileMeta): Files {
    if HasPartial(files, dest, meta) && !SidecarMatches(files, dest, meta) then RemovePart(files, dest) else files
  }

  /** The same, for directories in place of the partial or its sidecar. */
  function ProbeDirs(files: Files, dirs: set<Path>, dest: Path, meta: FileMeta): set<Path> {
    if HasPartial(files, dest, meta) && !SidecarMatches(files, dest, meta)
    then Swept(files, dirs, {Tmp(dest), Sidecar(dest)}) else dirs
  }

  function Probed(s: State, dest: Path, meta: FileMeta): State {
    s.(files := Probe(s.files, dest, meta), dirs := ProbeDirs(s.files, s.dirs, dest, meta))
  }

  /** The directory of the path exists; the download directory always does. */
  predicate HasParent(dirs: set<Path>, path: Path) {
    |Split(path)| > 1 ==> Join(Front(path)) in dirs
  }

  // ----- steps ------------------------------------------------------------

  function With(s: State, sid: Sid, sess: Session): State {
    s.(sessions := s.sessions[sid := sess])
  }

  /** The session ends with an error after refusing index i. */
  function Refuse(s: State, sid: Sid, sess: Session, i: int): Outcome {
    Outcome(With(s, sid, sess.(phase := Ended(false))), [Ack(i, false)])
  }

  function Abort(s: State, sid: Sid, sess: Session): Outcome {
    Outcome(With(s, sid, sess.(phase := Ended(false))), [])
  }

  function IdleFrame(s: State, sid: Sid, sess: Session, frame: Frame): Outcome {
    match frame
    case SessionEnd =>
      var ok := |sess.completed| == |sess.manifest|;
      Outcome(With(s, sid, sess.(phase := Ended(ok))), [Ack(0, ok)])
    case Progress => Outcome(s, [])
    case ResumeQuery(i) =>
      if sess.resume && 0 <= i < |sess.manifest| && !sess.manifest[i].isDir
      then Outcome(With(s, sid, sess.(phase := QueryReserve(i))), [])
      else Outcome(s, [Offer(i, 0)])
    case FileHeader(i) =>
      if i < 0 || i >= |sess.manifest| || i in sess.completed then Abort(s, sid, sess)
      else if sess.manifest[i].isDir then Outcome(With(s, sid, sess.(phase := DirEntry(i))), [])
      else Outcome(With(s, sid, sess.(phase := Reserving(i))), [])
    case _ => Abort(s, sid, sess)
  }

  function DirFrame(s: State, sid: Sid, sess: Session, i: nat, frame: Frame): Outcome
    requires i < |sess.manifest|
  {
    var meta := sess.manifest[i];
    if frame == FileEnd(i, 0) && meta.size == 0 && meta.sha == [] then
      var r := CreateDirectory(s.files, s.dirs, meta.relPath);
      if r.ok then
        Outcome(With(s.(dirs := r.dirs), sid, sess.(completed := sess.completed + {i}, phase := Idle)), [Ack(i, true)])
      else Refuse(s.(dirs := r.dirs), sid, sess, i)
    else Refuse(s, sid, sess, i)
  }

  function BodyFrame(h: Hash, s: State, sid: Sid, sess: Session, frame: Frame): Outcome
    requires sess.phase.Body? && sess.phase.index in sess.slots && sess.phase.index < |sess.manifest|
  {
    var b := sess.phase;
    var i := b.index;
    var dest, meta := sess.slots[i], sess.manifest[i];
    var discard := Refuse(Removed(s, dest), sid, sess, i);
    match frame
    case Chunk(n) =>
      if n < 0 || b.got + n > meta.size then discard
      else Outcome(With(s, sid, sess.(phase := b.(length := n, left := n))), [])
    case Progress => Outcome(s, [])
    case FileEnd(_, _) =>
      if b.got != meta.size || !EqualFold(h(b.hashed), meta.sha) then discard
      else Outcome(With(s, sid, sess.(phase := Renaming(i))), [])
    case _ => discard
  }

  /** Some bytes of the current chunk reach the file and the hasher. */
  function BodyData(s: State, sid: Sid, sess: Session, bytes: Bytes): Outcome
    requires sess.phase.Body? && sess.phase.index in sess.slots && |bytes| <= sess.phase.left
  {
    var b := sess.phase;
    var tmp := Tmp(sess.slots[b.index]);
    var left := b.left - |bytes|;
    var b' := if left == 0
              then Body(b.index, b.got + b.length, 0, 0, b.hashed + bytes)
              else b.(left := left, hashed := b.hashed + bytes);
    var old' := if tmp in s.files then s.files[tmp] else [];
    Outcome(With(s.(files := s.files[tmp := old' + bytes]), sid, sess.(phase := b')), [])
  }

  /** slotFor: the session's slot for i, reserving it on first use. */
  function SlotFor(s: State, sid: Sid, sess: Session, i: nat): (State, Session, bool)
    requires i < |sess.manifest|
  {
    if i in sess.slots then (s, sess, true)
    else
      match Reserve(s, sess.manifest[i])
      case Refused(dirs) => (s.(dirs := dirs), sess, false)
      case Granted(dest, dirs) =>
        (s.(dirs := dirs, claims := s.claims + {Tmp(dest)}), sess.(slots := sess.slots[i := dest]), true)
  }

  /** writePartMeta: the sidecar, unless a directory is in its place. */
  function Recorded(files: Files, dirs: set<Path>, dest: Path, meta: FileMeta): Files {
    if Sidecar(dest) in dirs then files else files[Sidecar(dest) := Lower(meta.sha)]
  }

  function OpenPart(s: State, sid: Sid, sess: Session, i: nat, offset: nat): Outcome
    requires i in sess.slots && i < |sess.manifest|
  {
    var dest, meta := sess.slots[i], sess.manifest[i];
    var tmp := Tmp(dest);
    if tmp in s.dirs || (tmp !in s.files && (offset > 0 || !HasParent(s.dirs, dest))) then Refuse(s, sid, sess, i)
    else
      var seed := if offset > 0 then s.files[tmp] else [];
      Outcome(With(s.(files := Recorded(s.files[tmp := seed], s.dirs, dest, meta)),
                   sid, sess.(phase := Body(i, offset, 0, 0, seed))), [])
  }

  function RenamePart(s: State, sid: Sid, sess: Session, i: nat): Outcome
    requires i in sess.slots && i < |sess.manifest|
  {
    var dest, meta := sess.slots[i], sess.manifest[i];
    var tmp := Tmp(dest);
    if tmp !in s.files || dest in s.dirs then Refuse(Removed(s, dest), sid, sess, i)
    else
      Outcome(With(s.(files := (s.files - {tmp})[dest := s.files[tmp]], delivered := s.delivered[dest := meta]),
                   sid, sess.(phase := Cleaning(i))), [])
  }

  /** The steps a session takes without reading from its connection. */
  function AdvanceStep(s: State, sid: Sid, sess: Session): Outcome
    requires PhaseInRange(sess)
  {
    match sess.phase
    case QueryReserve(i) =>
      var (s1, sess1, ok) := SlotFor(s, sid, sess, i);
      if ok then Outcome(With(s1, sid, sess1.(phase := QueryProbe(i))), [])
      else Outcome(With(s1, sid, sess1.(phase := Idle)), [Offer(i, 0)])
    case QueryProbe(i) =>
      var dest, meta := sess.slots[i], sess.manifest[i];
      var n := PartialLen(s.files, dest, meta);
      Outcome(With(Probed(s, dest, meta), sid, sess.(phase := Idle, offers := sess.offers[i := n])), [Offer(i, n)])
    case Reserving(i) =>
      var (s1, sess1, ok) := SlotFor(s, sid, sess, i);
      if !ok then Refuse(s1, sid, sess1, i)
      else Outcome(With(s1, sid, sess1.(phase := if sess.resume then Probing(i) else Opening(i, 0))), [])
    case Probing(i) =>
      var dest, meta := sess.slots[i], sess.manifest[i];
      Outcome(With(Probed(s, dest, meta), sid, sess.(phase := Opening(i, PartialLen(s.files, dest, meta)))), [])
    case Opening(i, offset) => OpenPart(s, sid, sess, i, offset)
    case Renaming(i) => RenamePart(s, sid, sess, i)
    case Cleaning(i) =>
      var side := Sidecar(sess.slots[i]);
      Outcome(With(s.(files := s.files - {side}, dirs := Swept(s.files, s.dirs, {side})), sid,
                   sess.(phase := Idle, completed := sess.completed + {i})), [Ack(i, true)])
    case _ => Outcome(s, [])
  }

  /**
   * A probe that finds a directory in place of the partial. Its size is what the file system says it is; only
   * one between zero and the declared size is taken for a partial.
   */
  function ProbeDirStep(s: State, sid: Sid, sess: Session, size: nat): Outcome
    requires PhaseInRange(sess)
  {
    if !sess.phase.QueryProbe? && !sess.phase.Probing? then Outcome(s, [])
    else
      var i := sess.phase.index;
      var dest, meta := sess.slots[i], sess.manifest[i];
      if Tmp(dest) !in s.dirs || size == 0 || size >= meta.size then Outcome(s, [])
      else
        var matches := SidecarMatches(s.files, dest, meta);
        var s1, n := if matches then s else Removed(s, dest), if matches then size else 0;
        if sess.phase.QueryProbe?
        then Outcome(With(s1, sid, sess.(phase := Idle, offers := sess.offers[i := n])), [Offer(i, n)])
        else Outcome(With(s1, sid, sess.(phase := Opening(i, n))), [])
  }

  predicate PhaseInRange(sess: Session) {
    match sess.phase
    case Idle | Ended(_) => true
    case QueryReserve(i) => i < |sess.manifest|
    case Reserving(i) => i < |sess.manifest|
    case DirEntry(i) => i < |sess.manifest|
    case QueryProbe(i) => i < |sess.manifest| && i in sess.slots
    case Probing(i) => i < |sess.manifest| && i in sess.slots
    case Opening(i, _) => i < |sess.manifest| && i in sess.slots
    case Body(i, _, _, _, _) => i < |sess.manifest| && i in sess.slots
    case Renaming(i) => i < |sess.manifest| && i in sess.slots
    case Cleaning(i) => i < |sess.manifest| && i in sess.slots
  }

  /** A read failed: only the partial of an open file is kept, for the next attempt. */
  function DropStep(s: State, sid: Sid, sess: Session): Outcome {
    match sess.phase
    case Idle => Abort(s, sid, sess)
    case DirEntry(i) => Refuse(s, sid, sess, i)
    case Body(i, _, _, _, _) => Refuse(s, sid, sess, i)
    case _ => Outcome(s, [])
  }

  /** The next frame of the connection, in a phase that reads one. */
  function FrameStep(h: Hash, s: State, sid: Sid, sess: Session, frame: Frame): Outcome
    requires PhaseInRange(sess)
  {
    if sess.phase.Idle? then IdleFrame(s, sid, sess, frame)
    else if sess.phase.DirEntry? then DirFrame(s, sid, sess, sess.phase.index, frame)
    else if sess.phase.Body? && sess.phase.left == 0 then BodyFrame(h, s, sid, sess, frame)
    else Outcome(s, [])
  }

  predicate Ready(s: State, sid: Sid) {
    sid in s.sessions && PhaseInRange(s.sessions[sid])
  }

  /** One step. An event that is not possible in the session's phase changes nothing. */
  function Step(h: Hash, s: State, e: Event): Outcome {
    match e
    case Start(sid, manifest, resume) =>
      if sid in s.sessions then Outcome(s, [])
      else Outcome(With(s, sid, Session(manifest, resume, map[], {}, {}, map[],
                                         if manifest == [] then Ended(false) else Idle)), [])
    case Release(sid, i) =>
      if sid !in s.sessions then Outcome(s, [])
      else
        var sess := s.sessions[sid];
        if sess.phase.Ended? && i in sess.slots && i !in sess.released then
          Outcome(With(s.(claims := s.claims - {Tmp(sess.slots[i])}), sid,
                       sess.(released := sess.released + {i})), [])
        else Outcome(s, [])
    case Drop(sid) =>
      if Ready(s, sid) then DropStep(s, sid, s.sessions[sid]) else Outcome(s, [])
    case Advance(sid) =>
      if Ready(s, sid) then AdvanceStep(s, sid, s.sessions[sid]) else Outcome(s, [])
    case ProbeDir(sid, size) =>
      if Ready(s, sid) then ProbeDirStep(s, sid, s.sessions[sid], size) else Outcome(s, [])
    case Data(sid, bytes) =>
      if Ready(s, sid) && s.sessions[sid].phase.Body? && 0 < |bytes| <= s.sessions[sid].phase.left
      then BodyData(s, sid, s.sessions[sid], bytes)
      else Outcome(s, [])
    case Recv(sid, frame) =>
      if Ready(s, sid) then FrameStep(h, s, sid, s.sessions[sid], frame) else Outcome(s, [])
  }

  /** The state after a list of events. */
  function Run(h: Hash, s: State, events: seq<Event>): State {
    if events == [] then s
    else Step(h, Run(h, s, events[..|events| - 1]), events[|events| - 1]).state
  }
}
