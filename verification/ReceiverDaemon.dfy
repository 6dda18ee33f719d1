/**
 * The receive code in its own form: one connection served by loops over its messages, working on
 * the download directory and the table of claimed paths. Every method is proved against the step machine,
 * so what holds of every run of the machine holds of this code.
 */
module ReceiverDaemon {
  import opened Basics
  import opened Names
  import opened Receiver
  import opened ReceiverDrive
  import A = Attempts

  lemma {:induction false} MakeDirsStops(files: Files, dirs: set<Path>, parts: seq<string>, k: nat)
    requires k <= |parts| && !MakeDirs(files, dirs, parts[..k]).ok
    ensures MakeDirs(files, dirs, parts) == MakeDirs(files, dirs, parts[..k])
  {
    if k == |parts| {
      assert parts[..k] == parts;
    } else {
      var init := parts[..|parts| - 1];
      assert init[..k] == parts[..k];
      MakeDirsStops(files, dirs, init, k);
    }
  }

  lemma MakeDirsNext(files: Files, dirs: set<Path>, parts: seq<string>, k: nat)
    requires k < |parts| && MakeDirs(files, dirs, parts[..k]).ok
    ensures var r, current := MakeDirs(files, dirs, parts[..k]), Join(parts[..k + 1]);
            MakeDirs(files, dirs, parts[..k + 1])
            == if current in files then DirResult(false, r.dirs) else DirResult(true, r.dirs + {current})
  {
    assert parts[..k + 1][..k] == parts[..k];
  }

  lemma JoinNext(parts: seq<string>, k: nat)
    requires k < |parts|
    ensures Join(parts[..k + 1]) == if k == 0 then parts[0] else Join(parts[..k]) + "/" + parts[k]
  {
    if k == 0 {
      assert parts[..1] == [parts[0]];
    } else {
      assert parts[..k + 1] == parts[..k] + [parts[k]];
      JoinSnoc(parts[..k], parts[k]);
    }
  }

  class Daemon {
    const hash: Hash
    var files: Files
    var dirs: set<Path>
    var claims: set<Path>
    // what the other connections are doing, and what was delivered so far
    ghost var sessions: map<Sid, Session>
    ghost var delivered: map<Path, FileMeta>

    constructor (hash: Hash, files: Files, dirs: set<Path>)
      ensures this.hash == hash && Now() == State(files, dirs, {}, map[], map[])
    {
      this.hash, this.files, this.dirs, claims, sessions, delivered := hash, files, dirs, {}, map[], map[];
    }

    ghost function Now(): State
      reads this
    {
      State(files, dirs, claims, sessions, delivered)
    }

    method MakeDirectory(rel: string) returns (ok: bool)
      modifies this`dirs
      ensures DirResult(ok, dirs) == CreateDirectory(files, old(dirs), rel)
    {
      hide MakeDirs, Join, Split;
      if !ValidRelPath(rel) { return false; }
      var parts := Split(rel);
      var k, current := 0, "";
      MakeNone(files, dirs);
      assert parts[..0] == [];
      while k < |parts|
        invariant k <= |parts| && (k > 0 ==> current == Join(parts[..k]))
        invariant MakeDirs(files, old(dirs), parts[..k]) == DirResult(true, dirs)
      {
        JoinNext(parts, k);
        MakeDirsNext(files, old(dirs), parts, k);
        current := if k == 0 then parts[k] else current + "/" + parts[k];
        if current in files {
          MakeDirsStops(files, old(dirs), parts, k + 1);
          return false;
        }
        dirs := dirs + {current};
        k := k + 1;
      }
      assert parts[..k] == parts;
      ok := true;
    }

    /** reserveSlot: one critical section. */
    method ReserveSlot(meta: FileMeta) returns (slot: Option<Path>)
      modifies this`dirs, this`claims
      ensures match Reserve(old(Now()), meta)
              case Refused(d) => slot == None && dirs == d && claims == old(claims)
              case Granted(dest, d) => slot == Some(dest) && dirs == d && claims == old(claims) + {Tmp(dest)}
    {
      hide CreateDirectory, FreeName, SanitizeName, ValidRelPath, Split, Join;
      var name := SanitizeName(meta.name);
      if meta.relPath != "" {
        if !ValidRelPath(meta.relPath) { return None; }
        name := meta.relPath;
      }
      var dest := UniquePathExcept(name, files.Keys + dirs, claims);
      var parts := Split(name);
      if meta.relPath != "" && |parts| > 1 {
        var ok := MakeDirectory(Join(parts[..|parts| - 1]));
        if !ok { return None; }
      }
      claims := claims + {Tmp(dest)};
      slot := Some(dest);
    }

    /** os.Remove: a file, or an empty directory. */
    method Remove(path: Path)
      modifies this`files, this`dirs
      ensures files == old(files) - {path} && dirs == Swept(old(files), old(dirs), {path})
    {
      if EmptyDir(files, dirs, path) {
        dirs := dirs - {path};
      }
      files := files - {path};
    }

    method RemovePart(dest: Path)
      modifies this`files, this`dirs
      ensures Now() == Removed(old(Now()), dest)
    {
      hide Swept;
      Remove(Tmp(dest));
      Remove(Sidecar(dest));
      SweptTwice(old(files), old(dirs), dest);
    }

    /** size is what the file system says of a directory in place of the partial. */
    method PartialBytes(dest: Path, meta: FileMeta, size: nat) returns (n: nat)
      modifies this`files, this`dirs
      ensures (Now(), n) == ProbedAt(old(Now()), dest, meta, size)
      ensures n > 0 ==> Tmp(dest) in files || Tmp(dest) in dirs
    {
      hide EqualFold, TrimSpace, Swept;
      n := 0;
      if Tmp(dest) in files { n := |files[Tmp(dest)]|; }
      if Tmp(dest) in dirs && 0 < size < meta.size { n := size; }
      if n == 0 || n >= meta.size { return 0; }
      if Sidecar(dest) !in files || !EqualFold(TrimSpace(files[Sidecar(dest)]), meta.sha) {
        RemovePart(dest);
        return 0;
      }
    }

    /** Opens the part file, truncated or for append, and records whose part it is. */
    method OpenPartFile(sid: Sid, ghost sess: Session, i: nat, meta: FileMeta, dest: Path, offset: nat)
      returns (ok: bool, hashed: Bytes)
      requires sid in sessions && i < |sess.manifest| && sess.manifest[i] == meta && i in sess.slots && sess.slots[i] == dest
      requires offset > 0 ==> Tmp(dest) in files || Tmp(dest) in dirs
      modifies this`files, this`sessions
      ensures OpenPart(old(Now()), sid, sess, i, offset) == Outcome(Now(), if ok then [] else [Ack(i, false)])
      ensures Reads(Now(), sid)
      ensures sessions == old(sessions)[sid := sess.(phase := if ok then Body(i, offset, 0, 0, hashed) else Ended(false))]
    {
      hide Lower, HasParent;
      var tmp := Tmp(dest);
      hashed := [];
      if tmp in dirs || (tmp !in files && !HasParent(dirs, dest)) {
        Stop(sid, sess);
        return false, hashed;
      }
      if offset > 0 {
        hashed := files[tmp];
      } else {
        files := files[tmp := []];
      }
      if Sidecar(dest) !in dirs {
        files := files[Sidecar(dest) := Lower(meta.sha)];
      }
      sessions := sessions[sid := sess.(phase := Body(i, offset, 0, 0, hashed))];
      OpenedNow(old(Now()), Now(), sid, sess, i, offset);
      ok := true;
    }

    /** The partial cannot be trusted: it goes, and the session ends. */
    method Discard(sid: Sid, ghost sess: Session, i: nat, dest: Path, ghost input: seq<Message>, ghost k: nat, ghost rs: seq<Reply>)
      requires i < |sess.manifest| && i in sess.slots && sess.slots[i] == dest && k < |input|
      requires sid in sessions && BodyAs(Now(), sid, sess.(phase := sessions[sid].phase), i) && Reads(Now(), sid)
      requires BadFrame(hash, sessions[sid], i, input[k].frame)
      modifies this`files, this`dirs, this`sessions
      ensures sessions == old(sessions)[sid := sess.(phase := Ended(false))] && Reads(Now(), sid)
      ensures Drive(hash, Outcome(old(Now()), rs), sid, input[k..])
           == Drive(hash, Outcome(Now(), rs + [Ack(i, false)]), sid, input[k + 1..])
    {
      hide Drive, Handle, BadFrame, Removed;
      ghost var s, at := Now(), sessions[sid];
      DriveBad(hash, Outcome(s, rs), sid, at, i, input, k);
      RemovePart(dest);
      Stop(sid, sess);
      DiscardIs(s, Now(), sid, at, sess, dest);
      DriveEnded(hash, Outcome(Now(), rs + [Ack(i, false)]), sid, input[k + 1..]);
    }

    /** The connection was lost inside a chunk: what arrived is kept. */
    method KeepShort(sid: Sid, ghost sess: Session, i: nat, dest: Path, input: seq<Message>, k: nat, ghost rs: seq<Reply>)
      requires i < |sess.manifest| && i in sess.slots && sess.slots[i] == dest && k < |input|
      requires sid in sessions && BodyAs(Now(), sid, sess.(phase := sessions[sid].phase), i) && Reads(Now(), sid)
      requires input[k].frame.Chunk? && input[k].frame.length > |input[k].payload|
      requires sessions[sid].phase.got + input[k].frame.length <= sess.manifest[i].size
      modifies this`files, this`sessions
      ensures sessions == old(sessions)[sid := sess.(phase := Ended(false))] && Reads(Now(), sid)
      ensures Drive(hash, Outcome(old(Now()), rs), sid, input[k..])
           == Drive(hash, Outcome(Now(), rs + [Ack(i, false)]), sid, input[k + 1..])
    {
      hide Drive, Handle;
      ghost var s, at := Now(), sessions[sid];
      DriveShort(hash, Outcome(s, rs), sid, at, i, input, k);
      Append(Tmp(dest), input[k].payload);
      Stop(sid, sess);
      StopIs(s, Now(), sid, at, sess, files);
      DriveEnded(hash, Outcome(Now(), rs + [Ack(i, false)]), sid, input[k + 1..]);
    }

    /** A chunk that arrived whole goes to the file and the hasher. */
    method TakeChunk(sid: Sid, ghost sess: Session, i: nat, dest: Path, got: nat, hashed: Bytes,
                     input: seq<Message>, k: nat, ghost rs: seq<Reply>) returns (got': nat, hashed': Bytes)
      requires i < |sess.manifest| && i in sess.slots && sess.slots[i] == dest && k < |input|
      requires sid in sessions && sessions[sid] == sess.(phase := Body(i, got, 0, 0, hashed)) && Reads(Now(), sid)
      requires input[k].frame.Chunk? && 0 <= input[k].frame.length <= |input[k].payload|
      requires got + input[k].frame.length <= sess.manifest[i].size
      modifies this`files, this`sessions
      ensures sessions == old(sessions)[sid := sess.(phase := Body(i, got', 0, 0, hashed'))] && Reads(Now(), sid)
      ensures Drive(hash, Outcome(old(Now()), rs), sid, input[k..]) == Drive(hash, Outcome(Now(), rs), sid, input[k + 1..])
    {
      hide Drive, Handle;
      ghost var s, at := Now(), sessions[sid];
      var n := input[k].frame.length;
      got', hashed' := got, hashed;
      if n == 0 {
        DriveSkip(hash, Outcome(s, rs), sid, at, i, input, k);
        assert sessions[sid := at] == sessions;
      } else {
        DriveChunk(hash, Outcome(s, rs), sid, at, i, input, k);
        Append(Tmp(dest), input[k].payload[..n]);
        got', hashed' := got + n, hashed + input[k].payload[..n];
        sessions := sessions[sid := sess.(phase := Body(i, got', 0, 0, hashed'))];
        GrownNow(s, Now(), sid, at, sess, i, input[k].payload[..n]);
      }
    }

    /** file_end with the right size and digest: rename, then remove the sidecar. */
    method Commit(sid: Sid, ghost sess: Session, i: nat, meta: FileMeta, dest: Path,
                  ghost input: seq<Message>, ghost k: nat, ghost rs: seq<Reply>) returns (ok: bool)
      requires i < |sess.manifest| && sess.manifest[i] == meta && i in sess.slots && sess.slots[i] == dest && k < |input|
      requires sid in sessions && BodyAs(Now(), sid, sess.(phase := sessions[sid].phase), i) && Reads(Now(), sid)
      requires input[k].frame.FileEnd? && !BadFrame(hash, sessions[sid], i, input[k].frame)
      modifies this`files, this`dirs, this`sessions, this`delivered
      ensures sessions == old(sessions)[sid := if ok then sess.(phase := Idle, completed := sess.completed + {i})
                                               else sess.(phase := Ended(false))]
      ensures Reads(Now(), sid)
      ensures Drive(hash, Outcome(old(Now()), rs), sid, input[k..])
           == Drive(hash, Outcome(Now(), rs + [Ack(i, ok)]), sid, input[k + 1..])
    {
      hide Drive, Handle, BadFrame, Removed, Swept;
      ghost var s, at := Now(), sessions[sid];
      DriveEnd(hash, Outcome(s, rs), sid, at, i, input, k);
      var tmp := Tmp(dest);
      if tmp !in files || dest in dirs {
        RemovePart(dest);
        Stop(sid, sess);
        DiscardIs(s, Now(), sid, at, sess, dest);
        DriveEnded(hash, Outcome(Now(), rs + [Ack(i, false)]), sid, input[k + 1..]);
        return false;
      }
      files := (files - {tmp})[dest := files[tmp]];
      Remove(Sidecar(dest));
      delivered := delivered[dest := meta];
      sessions := sessions[sid := sess.(phase := Idle, completed := sess.completed + {i})];
      FinishedNow(s, Now(), sid, at, sess, i);
      ok := true;
    }

    /**
     * receiveOneFile, from the open of the part file to the rename, over the messages from start on.
     * The acknowledgement is the caller's; next is the first message not read.
     */
    method ReceiveOneFile(sid: Sid, ghost sess: Session, i: nat, meta: FileMeta, dest: Path, offset: nat,
                          input: seq<Message>, start: nat, ghost rs: seq<Reply>) returns (ok: bool, next: nat)
      requires sid in sessions && i < |sess.manifest| && sess.manifest[i] == meta && i in sess.slots && sess.slots[i] == dest
      requires start <= |input| && (offset > 0 ==> Tmp(dest) in files || Tmp(dest) in dirs)
      modifies this`files, this`dirs, this`sessions, this`delivered
      ensures start <= next <= |input|
      ensures sessions == old(sessions)[sid := if ok then sess.(phase := Idle, completed := sess.completed + {i})
                                               else sess.(phase := Ended(false))]
      ensures Reads(Now(), sid) && Reads(OpenPart(old(Now()), sid, sess, i, offset).state, sid)
      ensures Drive(hash, Then(Outcome(old(Now()), rs), OpenPart(old(Now()), sid, sess, i, offset)), sid, input[start..])
           == Drive(hash, Outcome(Now(), rs + [Ack(i, ok)]), sid, input[next..])
    {
      hide Drive, OpenPart, EqualFold, Reads, Handle, Stopped, Discarded, Removed;
      next := start;
      var isOpen, hashed := OpenPartFile(sid, sess, i, meta, dest, offset);
      assert rs + [] == rs;
      if !isOpen {
        DriveEnded(hash, Outcome(Now(), rs + [Ack(i, false)]), sid, input[start..]);
        return false, next;
      }
      ghost var target := Drive(hash, Outcome(Now(), rs), sid, input[start..]);
      var got: nat := offset;
      while next < |input|
        invariant start <= next <= |input| && Reads(Now(), sid)
        invariant sessions == old(sessions)[sid := sess.(phase := Body(i, got, 0, 0, hashed))]
        invariant Drive(hash, Outcome(Now(), rs), sid, input[next..]) == target
      {
        var m, k := input[next], next;
        next := next + 1;
        match m.frame {
          case Chunk(n) =>
            if n < 0 || got + n > meta.size {
              Discard(sid, sess, i, dest, input, k, rs);
              return false, next;
            }
            if n > |m.payload| {
              KeepShort(sid, sess, i, dest, input, k, rs);
              return false, next;
            }
            got, hashed := TakeChunk(sid, sess, i, dest, got, hashed, input, k, rs);
          case Progress =>
            DriveSkip(hash, Outcome(Now(), rs), sid, sessions[sid], i, input, k);
          case FileEnd(_, _) =>
            if got != meta.size || !EqualFold(hash(hashed), meta.sha) {
              Discard(sid, sess, i, dest, input, k, rs);
              return false, next;
            }
            ok := Commit(sid, sess, i, meta, dest, input, k, rs);
            return ok, next;
          case _ =>
            Discard(sid, sess, i, dest, input, k, rs);
            return false, next;
        }
      }
      ghost var s := Now();
      DriveGone(hash, Outcome(s, rs), sid, sessions[sid], i, input);
      Stop(sid, sess);
      StopIs(s, Now(), sid, s.sessions[sid], sess, files);
      DriveEnded(hash, Outcome(Now(), rs + [Ack(i, false)]), sid, input[next..]);
      ok := false;
    }

    /** slotFor: the slot already held for i, or a new one. */
    method SlotOf(sid: Sid, ghost sess: Session, slots: map<nat, Path>, i: nat, meta: FileMeta)
      returns (ok: bool, slots': map<nat, Path>)
      requires i < |sess.manifest| && sess.manifest[i] == meta && sess.slots == slots
      modifies this`dirs, this`claims
      ensures SlotFor(old(Now()), sid, sess, i) == (Now(), sess.(slots := slots'), ok)
      ensures ok ==> i in slots'
    {
      hide Reserve;
      slots' := slots;
      if i in slots { return true, slots; }
      var slot := ReserveSlot(meta);
      match slot {
        case None => ok := false;
        case Some(dest) => ok, slots' := true, slots[i := dest];
      }
    }

    /** The answer to a resume_query about a file of the manifest. */
    method AnswerQuery(sid: Sid, ghost sess: Session, slots: map<nat, Path>, i: nat, meta: FileMeta, size: nat)
      returns (n: nat, slots': map<nat, Path>, ghost offers: map<nat, nat>)
      requires i < |sess.manifest| && sess.manifest[i] == meta && sess.slots == slots && sess.phase == Idle
      requires sid in sessions && sessions[sid] == sess
      modifies this
      ensures Outcome(Now(), [Offer(i, n)]) == QueryResult(old(Now()), sid, sess, i, size)
      ensures sessions == old(sessions)[sid := sess.(slots := slots', offers := offers)]
    {
      hide SlotFor, ProbedAt;
      n, offers := 0, sess.offers;
      var ok;
      ok, slots' := SlotOf(sid, sess, slots, i, meta);
      if ok {
        n := PartialBytes(slots'[i], meta, size);
        offers := offers[i := n];
      }
      sessions := sessions[sid := sess.(slots := slots', offers := offers)];
    }

    /** A directory entry after its header: its end frame is read, and the directory made. */
    method ReceiveDirectory(sid: Sid, ghost sess: Session, i: nat, meta: FileMeta,
                            input: seq<Message>, start: nat, ghost rs: seq<Reply>) returns (ok: bool, next: nat)
      requires sid in sessions && i < |sess.manifest| && sess.manifest[i] == meta && start <= |input|
      requires sess.phase == Idle && sessions[sid] == sess.(phase := DirEntry(i))
      modifies this`dirs, this`sessions
      ensures start <= next <= |input|
      ensures sessions == old(sessions)[sid := if ok then sess.(completed := sess.completed + {i})
                                               else sess.(phase := Ended(false))]
      ensures Reads(old(Now()), sid) && Reads(Now(), sid)
      ensures Drive(hash, Outcome(old(Now()), rs), sid, input[start..])
           == Drive(hash, Outcome(Now(), rs + [Ack(i, ok)]), sid, input[next..])
    {
      hide Drive, Handle, DirFrame;
      ghost var o, at := Outcome(Now(), rs), sessions[sid];
      next := start;
      if start == |input| {
        DirGone(hash, o, sid, at, i, input);
        Stop(sid, sess);
        DriveEnded(hash, Outcome(Now(), rs + [Ack(i, false)]), sid, input[start..]);
        return false, next;
      }
      DriveNext(hash, o, sid, input, start);
      DirHandled(hash, o, sid, at, i, input[start]);
      ok := EndDirectory(sid, at, i, meta, input[start].frame);
      next := start + 1;
    }

    method EndDirectory(sid: Sid, ghost sess: Session, i: nat, meta: FileMeta, frame: Frame) returns (ok: bool)
      requires i < |sess.manifest| && sess.manifest[i] == meta
      modifies this`dirs, this`sessions
      ensures Outcome(Now(), [Ack(i, ok)]) == DirFrame(old(Now()), sid, sess, i, frame)
      ensures sessions == old(sessions)[sid := if ok then sess.(phase := Idle, completed := sess.completed + {i})
                                               else sess.(phase := Ended(false))]
    {
      hide CreateDirectory;
      ok := frame == FileEnd(i, 0) && meta.size == 0 && meta.sha == [];
      if ok {
        ok := MakeDirectory(meta.relPath);
      }
      if ok {
        sessions := sessions[sid := sess.(phase := Idle, completed := sess.completed + {i})];
      } else {
        sessions := sessions[sid := sess.(phase := Ended(false))];
      }
    }

    /** A file after its header: slot, offset recomputed, body. */
    method ReceiveFile(sid: Sid, ghost sess: Session, slots: map<nat, Path>, i: nat, meta: FileMeta, resume: bool,
                       size: nat, input: seq<Message>, start: nat, ghost rs: seq<Reply>)
      returns (ok: bool, slots': map<nat, Path>, next: nat)
      requires sid in sessions && i < |sess.manifest| && sess.manifest[i] == meta && sess.slots == slots && sess.resume == resume
      requires start <= |input|
      modifies this
      ensures start <= next <= |input|
      ensures sessions == old(sessions)[sid := if ok then sess.(slots := slots', phase := Idle, completed := sess.completed + {i})
                                               else sess.(slots := slots', phase := Ended(false))]
      ensures Reads(Now(), sid) && Reads(HeaderResult(old(Now()), sid, sess, i, size).state, sid)
      ensures Drive(hash, Then(Outcome(old(Now()), rs), HeaderResult(old(Now()), sid, sess, i, size)), sid, input[start..])
           == Drive(hash, Outcome(Now(), rs + [Ack(i, ok)]), sid, input[next..])
    {
      hide SlotFor, Drive, OpenPart, ProbedAt;
      next := start;
      ok, slots' := SlotOf(sid, sess, slots, i, meta);
      ghost var sess1 := sess.(slots := slots');
      if !ok {
        Stop(sid, sess1);
        DriveEnded(hash, Outcome(Now(), rs + [Ack(i, false)]), sid, input[start..]);
        return;
      }
      var offset := 0;
      if resume {
        offset := PartialBytes(slots'[i], meta, size);
      }
      ok, next := ReceiveOneFile(sid, sess1, i, meta, slots'[i], offset, input, start, rs);
    }

    /** The frame loop of one session: its result, its answers, and the slots it holds at the end. */
    method ServeSession(sid: Sid, manifest: seq<FileMeta>, resume: bool, input: seq<Message>)
      returns (ok: bool, replies: seq<Reply>, slots: map<nat, Path>)
      requires manifest != [] && sid in sessions && sessions[sid] == Session(manifest, resume, map[], {}, {}, map[], Idle)
      modifies this
      ensures Reads(old(Now()), sid)
      ensures Outcome(Now(), replies) == Drive(hash, Outcome(old(Now()), []), sid, input)
      ensures sid in sessions && sessions[sid].phase == Ended(ok) && sessions[sid].slots == slots && sessions[sid].released == {}
    {
      hide Drive, Handle, IdleFrame, HeaderResult, QueryResult, DirFrame, Reads;
      slots := map[];
      IdleReads(Now(), sid, sessions[sid]);
      var completed: set<nat> := {};
      ghost var offers: map<nat, nat> := map[];
      replies := [];
      var k := 0;
      ghost var target := Drive(hash, Outcome(Now(), []), sid, input);
      assert input[0..] == input;
      assert sessions[sid := sessions[sid]] == sessions;
      while k < |input|
        invariant k <= |input|
        invariant sid in sessions && sessions[sid] == Session(manifest, resume, slots, {}, completed, offers, Idle)
        invariant Reads(Now(), sid)
        invariant Drive(hash, Outcome(Now(), replies), sid, input[k..]) == target
      {
        ghost var s, sess := Now(), sessions[sid];
        var m := input[k];
        DriveNext(hash, Outcome(s, replies), sid, input, k);
        k := k + 1;
        match m.frame {
          case SessionEnd =>
            ok := |completed| == |manifest|;
            EndIs(hash, s, replies, sid, sess, m, input, k);
            replies := replies + [Ack(0, ok)];
            sessions := sessions[sid := sess.(phase := Ended(ok))];
            return;
          case Progress =>
            ProgressIs(hash, s, replies, sid, sess, m);
          case ResumeQuery(i) =>
            if resume && 0 <= i < |manifest| && !manifest[i].isDir {
              QueryHandled(hash, Outcome(s, replies), sid, sess, i, m);
              var n;
              n, slots, offers := AnswerQuery(sid, sess, slots, i, manifest[i], m.dirSize);
              replies := replies + [Offer(i, n)];
            } else {
              NoQueryIs(hash, s, replies, sid, sess, m);
              replies := replies + [Offer(i, 0)];
            }
          case FileHeader(i) =>
            if i < 0 || i >= |manifest| || i in completed {
              AbortIs(hash, s, replies, sid, sess, m, input, k);
              Stop(sid, sess);
              return false, replies, slots;
            }
            if manifest[i].isDir {
              DirStartIs(hash, s, replies, sid, sess, m);
              sessions := sessions[sid := sess.(phase := DirEntry(i))];
              ok, k := ReceiveDirectory(sid, sess, i, manifest[i], input, k, replies);
            } else {
              HeaderHandled(hash, Outcome(s, replies), sid, sess, i, m);
              ok, slots, k := ReceiveFile(sid, sess, slots, i, manifest[i], resume, m.dirSize, input, k, replies);
            }
            replies := replies + [Ack(i, ok)];
            if !ok {
              DriveEnded(hash, Outcome(Now(), replies), sid, input[k..]);
              return false, replies, slots;
            }
            completed := completed + {i};
          case _ =>
            AbortIs(hash, s, replies, sid, sess, m, input, k);
            Stop(sid, sess);
            return false, replies, slots;
        }
        IdleReads(Now(), sid, sessions[sid]);
      }
      ghost var sess := sessions[sid];
      IdleGone(hash, Outcome(Now(), replies), sid, sess, input);
      Stop(sid, sess);
      ok := false;
    }

    /** The deferred releases. */
    method ReleaseSlots(ghost sid: Sid, slots: map<nat, Path>)
      requires sid in sessions && sessions[sid].slots == slots
      modifies this`claims, this`sessions
      ensures Now() == ReleaseAll(old(Now()), sid)
    {
      var todo := slots.Keys;
      ghost var all := set i | i in slots :: Tmp(slots[i]);
      while todo != {}
        invariant todo <= slots.Keys && sessions == old(sessions)
        invariant claims == old(claims) - (set i | i in slots && i !in todo :: Tmp(slots[i]))
        decreases |todo|
      {
        var i :| i in todo;
        claims := claims - {Tmp(slots[i])};
        todo := todo - {i};
      }
      assert (set i | i in slots && i !in todo :: Tmp(slots[i])) == all;
      sessions := sessions[sid := sessions[sid].(released := slots.Keys)];
    }

    /**
     * receiveFiles: one connection from its session_start to the release of its slots. The directory, the
     * claims and the answers are exactly those of the step machine driven by the same messages.
     */
    method ReceiveFiles(sid: Sid, manifest: seq<FileMeta>, resume: bool, input: seq<Message>)
      returns (ok: bool, replies: seq<Reply>)
      requires sid !in sessions
      modifies this
      ensures var s := Step(hash, old(Now()), Start(sid, manifest, resume)).state;
              if manifest == [] then Now() == s && !ok && replies == []
              else
                && Reads(s, sid)
                && var d := Drive(hash, Outcome(s, []), sid, input);
                   && sid in d.state.sessions && d.state.sessions[sid].phase == Ended(ok)
                   && Now() == ReleaseAll(d.state, sid) && replies == d.replies
    {
      hide Drive, ReleaseAll;
      replies := [];
      sessions := sessions[sid := Session(manifest, resume, map[], {}, {}, map[], if manifest == [] then Ended(false) else Idle)];
      if manifest == [] { return false, []; }
      var slots;
      ok, replies, slots := ServeSession(sid, manifest, resume, input);
      ReleaseSlots(sid, slots);
    }

    /** Bytes written to the open part file. */
    method Append(tmp: Path, bytes: Bytes)
      modifies this`files
      ensures files == if bytes == [] then old(files)
                       else old(files)[tmp := (if tmp in old(files) then old(files)[tmp] else []) + bytes]
    {
      if bytes != [] {
        files := files[tmp := (if tmp in files then files[tmp] else []) + bytes];
      }
    }

    ghost method Stop(sid: Sid, sess: Session)
      modifies this`sessions
      ensures sessions == old(sessions)[sid := sess.(phase := Ended(false))]
    {
      sessions := sessions[sid := sess.(phase := Ended(false))];
    }
  }

  lemma IdleReads(s: State, sid: Sid, sess: Session)
    requires IdleAs(s, sid, sess)
    ensures Reads(s, sid)
  {
  }

  lemma MakeNone(files: Files, dirs: set<Path>)
    ensures MakeDirs(files, dirs, []) == DirResult(true, dirs)
  {
  }

  /** Removing the part file first does not change whether the sidecar's path is an empty directory. */
  lemma SweptTwice(files: Files, dirs: set<Path>, d: Path)
    ensures Swept(files - {Tmp(d)}, Swept(files, dirs, {Tmp(d)}), {Sidecar(d)}) == Swept(files, dirs, {Tmp(d), Sidecar(d)})
    ensures files - {Tmp(d)} - {Sidecar(d)} == Receiver.RemovePart(files, d)
  {
    hide EmptyDir;
    TempPathsDiffer(d, d);
    A.EmptyStays(files, dirs, files - {Tmp(d)}, Swept(files, dirs, {Tmp(d)}), d, Sidecar(d));
  }

  lemma OpenedNow(s: State, now: State, sid: Sid, sess: Session, i: nat, offset: nat)
    requires sid in s.sessions && i < |sess.manifest| && i in sess.slots
    requires var dest, meta := sess.slots[i], sess.manifest[i];
             var seed := if offset > 0 && Tmp(dest) in s.files then s.files[Tmp(dest)] else [];
             var files := if offset == 0 then s.files[Tmp(dest) := []] else s.files;
             && Tmp(dest) !in s.dirs && (Tmp(dest) in s.files || (offset == 0 && HasParent(s.dirs, dest)))
             && now == s.(files := Recorded(files, s.dirs, dest, meta),
                          sessions := s.sessions[sid := sess.(phase := Body(i, offset, 0, 0, seed))])
    ensures OpenPart(s, sid, sess, i, offset) == Outcome(now, [])
    ensures Reads(now, sid)
  {
    hide Lower, HasParent;
    var tmp := Tmp(sess.slots[i]);
    if offset > 0 {
      assert s.files[tmp := s.files[tmp]] == s.files;
    }
  }

  lemma StopIs(s: State, now: State, sid: Sid, at: Session, sess: Session, files: Files)
    requires at == sess.(phase := at.phase)
    requires now == s.(files := files, sessions := s.sessions[sid := sess.(phase := Ended(false))])
    ensures now == Stopped(s, sid, at, files) && Reads(now, sid) && now.sessions[sid].phase.Ended?
  {
  }

  lemma DiscardIs(s: State, now: State, sid: Sid, at: Session, sess: Session, dest: Path)
    requires at == sess.(phase := at.phase)
    requires now == Removed(s, dest).(sessions := s.sessions[sid := sess.(phase := Ended(false))])
    ensures now == Discarded(s, sid, at, dest) && Reads(now, sid) && now.sessions[sid].phase.Ended?
  {
  }

  lemma GrownNow(s: State, now: State, sid: Sid, at: Session, sess: Session, i: nat, bytes: Bytes)
    requires BodyAs(s, sid, at, i) && at == sess.(phase := at.phase) && bytes != []
    requires var tmp := Tmp(sess.slots[i]);
             now == s.(files := s.files[tmp := (if tmp in s.files then s.files[tmp] else []) + bytes],
                       sessions := s.sessions[sid := sess.(phase := Body(i, at.phase.got + |bytes|, 0, 0, at.phase.hashed + bytes))])
    ensures now == Grown(s, sid, at, i, bytes)
  {
  }

  lemma FinishedNow(s: State, now: State, sid: Sid, at: Session, sess: Session, i: nat)
    requires BodyAs(s, sid, at, i) && at == sess.(phase := at.phase) && Tmp(sess.slots[i]) in s.files
    requires var dest, tmp := sess.slots[i], Tmp(sess.slots[i]);
             var files := (s.files - {tmp})[dest := s.files[tmp]];
             now == s.(files := files - {Sidecar(dest)}, dirs := Swept(files, s.dirs, {Sidecar(dest)}),
                       delivered := s.delivered[dest := sess.manifest[i]],
                       sessions := s.sessions[sid := sess.(phase := Idle, completed := sess.completed + {i})])
    ensures now == Finished(s, sid, at, i) && Reads(now, sid)
  {
    hide Swept;
  }

  // ----- frames of an idle session, with their effect on the rest of the connection ----------------

  lemma EndIs(h: Hash, s: State, rs: seq<Reply>, sid: Sid, sess: Session, m: Message, input: seq<Message>, k: nat)
    requires IdleAs(s, sid, sess) && m.frame == SessionEnd && k <= |input|
    ensures var ok := |sess.completed| == |sess.manifest|;
            var s1 := s.(sessions := s.sessions[sid := sess.(phase := Ended(ok))]);
            Reads(s, sid) && Drive(h, Handle(h, Outcome(s, rs), sid, m), sid, input[k..]) == Outcome(s1, rs + [Ack(0, ok)])
  {
    hide Handle;
    PlainHandled(h, Outcome(s, rs), sid, sess, m);
    DriveEnded(h, Handle(h, Outcome(s, rs), sid, m), sid, input[k..]);
  }

  lemma AbortIs(h: Hash, s: State, rs: seq<Reply>, sid: Sid, sess: Session, m: Message, input: seq<Message>, k: nat)
    requires IdleAs(s, sid, sess) && k <= |input|
    requires m.frame.FileHeader? ==> m.frame.index < 0 || m.frame.index >= |sess.manifest| || m.frame.index in sess.completed
    requires !m.frame.SessionEnd? && !m.frame.Progress? && !m.frame.ResumeQuery?
    ensures var s1 := s.(sessions := s.sessions[sid := sess.(phase := Ended(false))]);
            Reads(s, sid) && Drive(h, Handle(h, Outcome(s, rs), sid, m), sid, input[k..]) == Outcome(s1, rs)
  {
    hide Handle;
    PlainHandled(h, Outcome(s, rs), sid, sess, m);
    assert rs + [] == rs;
    DriveEnded(h, Handle(h, Outcome(s, rs), sid, m), sid, input[k..]);
  }

  lemma ProgressIs(h: Hash, s: State, rs: seq<Reply>, sid: Sid, sess: Session, m: Message)
    requires IdleAs(s, sid, sess) && m.frame == Progress
    ensures Reads(s, sid) && Handle(h, Outcome(s, rs), sid, m) == Outcome(s, rs)
  {
    hide Handle;
    PlainHandled(h, Outcome(s, rs), sid, sess, m);
    assert rs + [] == rs;
  }

  lemma NoQueryIs(h: Hash, s: State, rs: seq<Reply>, sid: Sid, sess: Session, m: Message)
    requires IdleAs(s, sid, sess) && m.frame.ResumeQuery? && !Queries(sess, m.frame.index)
    ensures Reads(s, sid) && Handle(h, Outcome(s, rs), sid, m) == Outcome(s, rs + [Offer(m.frame.index, 0)])
  {
    hide Handle;
    PlainHandled(h, Outcome(s, rs), sid, sess, m);
  }

  lemma DirStartIs(h: Hash, s: State, rs: seq<Reply>, sid: Sid, sess: Session, m: Message)
    requires IdleAs(s, sid, sess) && m.frame.FileHeader? && 0 <= m.frame.index < |sess.manifest|
    requires m.frame.index !in sess.completed && sess.manifest[m.frame.index].isDir
    ensures var s1 := s.(sessions := s.sessions[sid := sess.(phase := DirEntry(m.frame.index))]);
            Reads(s, sid) && Reads(s1, sid) && Handle(h, Outcome(s, rs), sid, m) == Outcome(s1, rs)
  {
    hide Handle;
    PlainHandled(h, Outcome(s, rs), sid, sess, m);
    assert rs + [] == rs;
  }

  lemma DirGone(h: Hash, o: Outcome, sid: Sid, sess: Session, i: nat, input: seq<Message>)
    requires sid in o.state.sessions && o.state.sessions[sid] == sess && sess.phase == DirEntry(i) && i < |sess.manifest|
    ensures var s1 := o.state.(sessions := o.state.sessions[sid := sess.(phase := Ended(false))]);
            Reads(o.state, sid) && Drive(h, o, sid, input[|input|..]) == Outcome(s1, o.replies + [Ack(i, false)])
  {
    DriveOver(h, o, sid, input);
  }

  lemma IdleGone(h: Hash, o: Outcome, sid: Sid, sess: Session, input: seq<Message>)
    requires IdleAs(o.state, sid, sess)
    ensures var s1 := o.state.(sessions := o.state.sessions[sid := sess.(phase := Ended(false))]);
            Reads(o.state, sid) && Drive(h, o, sid, input[|input|..]) == Outcome(s1, o.replies)
  {
    DriveOver(h, o, sid, input);
    assert o.replies + [] == o.replies;
  }
}
