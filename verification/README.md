# adrop: a verified model

adrop moves files and clipboards between paired devices. This project models the parts of it where something can go
wrong in a way that no single function shows: the resumable, concurrent receive protocol and the sender that drives it,
the queue of waiting sends, the clipboard that travels in pieces, the pairing dialogue, the choice of hubs, and the three
byte formats underneath. `dafny verify dfyconfig.toml` checks all of it.

## How it is built

The receiver is a state machine (`Receiver`) over a download directory (`map<Path, Bytes>` and a set of directories), the
table of claimed part paths, and any number of sessions. A step is what a session does between two points where others
can run: take a frame, reserve a slot (one critical section), probe a partial, open it, write some bytes of a chunk,
rename, remove the sidecar, release one slot. A connection may drop before any frame and inside any chunk. `ReceiverSafety` and
`ReceiverRuns` hold the invariant and the proof that every step keeps it; `Overwrites` drops the assumption on names
and finds exactly which names are safe; `Confinement` is about where files go, `Portability` about the characters in their paths; `Attempts` gives the exact state an
uninterrupted attempt leaves, `Resume` what happens across attempts, `Transfer` adds the sender and the connection.
`FileTree` shows that the disk stays a file tree, `Removals` which files and directories a step can remove, `Arrival` what
has arrived when the sender reports success, and `Vanishing` exactly which acknowledged directories can then be missing.
`Agreement`, `AgreedOffsets` and `Disagreement` are about the offset: when the two sides agree on it, and the exact
condition under which they may not. `HonestSenders` shows what the sender's bytes leave on disk, `Undisturbed` that an
undisturbed transfer succeeds, and `PlainPlan` a condition on the manifest and the disk under which it does.

`ReceiverDaemon` is the receive code in its own form, a class with the loops of the source. Its methods are proved to do
exactly what the step machine does when driven by the same messages (`ReceiverDrive`), so the machine's theorems are about
that code: `Served` states them for a whole connection. `Sender` does the same for the sending side, and `FolderWalk` and
`Folders` follow a directory tree from the manifest to the disk of the receiver; `FolderTransfer` joins the two ends, so
that a folder sent by a joint run is rebuilt.

The smaller machines stand alone: `Hdlc`, `Framing`, `HubClipboard`, `SendQueue`, `TapPairing`, `HubManager` and
`PairingPayload`. Each has the code's loops as methods proved against functions, and the theorems about those functions.

## Assumptions

- SHA-256 is any function from bytes to bytes. Only the end-to-end, self-healing and honest-sender
  results ask that it have no collisions, the last also that digests are printed in hex, as explicit hypotheses
  (`Hex.HashesExist` shows that they can be met). Digests compare without regard to ASCII case.
- The header encoding is any codec that decodes what it encodes and never encodes to nothing; PEM, base64 and the JSON of
  old pairing payloads are functions given as parameters.
- Nothing but adrop touches the download directory, writes succeed, and random ids are fresh.
- Where directories matter (`FileTree`, `Arrival`, `Vanishing`, honest partials and resuming) the disk at the start is a
  file tree: no path is both a file and a directory, and everything lies in a directory that is there. That every
  slot is one of the names tried for its entry (`WellNamed`) is likewise given of the start; it holds when no session
  has started yet, and every step keeps it.
- What the file system says is the size of a directory is an input of the steps that look at one.
- The theorems of `ReceiverRuns`, `Transfer`, `Served` and the modules about offsets are for manifests in which no file
  has a reserved name: one ending in ".adrop-part", or the sidecar of a legal name. Directory entries may have any name. `Overwrites` and `Confinement` are for all names, and
  `LostExactlyWhenReserved` shows that the restriction is exact.
- Sizes are unbounded integers; the source's sum of received bytes and chunk length is taken not to wrap.

## Where the code and its description differ

- A resume_offer is described as the number of bytes of the partial that already exist (internal/proto/proto.go:68-70); a
  partial that already has the full length is offered as zero bytes and restarted (internal/daemon/receive.go:400). The
  model follows the code.
- A queued empty clipboard is stored without its contents and comes back as a send of no files
  (internal/daemon/queue.go:44); a queued clipboard of any type is retried as plain text (internal/daemon/queue.go:146).
- A hub refused at once (internal/rns/hubs.go:205-211) is stamped with the time of the selection, not of the refusal, so
  its back-off counts from there. Connections that fail later, in the background, are found and stamped by the measurement.
- A resume_query whose slot is refused is answered with an offer of zero (internal/daemon/receive.go:246-256). If the file
  in the way is another transfer's part file or sidecar, it can be gone when the file_header comes, and a partial can
  have appeared: the file is then opened at a positive offset while the sender streams from zero
  (internal/daemon/send.go:345-351), and fails its size check. `Disagreement` gives the run and the exact condition.
- An acknowledged directory can be missing when SendFiles has returned without an error. os.Remove of a part file or a
  sidecar (internal/daemon/receive.go:390-393, 491) also removes an empty directory of that name, and a sidecar that cannot
  be written is passed over (internal/daemon/receive.go:386-388). Sending the directory "q.adrop-part.meta" and then the
  file "q" is enough. `Vanishing` gives the runs and the exact condition; `Arrival` states what has arrived all the same.
- For the same reason a dropped transfer is not resumed, but restarted, where a directory sits at its sidecar
  (internal/daemon/receive.go:403-406): `Resume.InterruptedTransferResumes` has the exact offer for both cases.
- The runner takes every error but an unreachable peer for a refusal (internal/daemon/queue.go:166-169). A send that is
  cancelled while it dials (internal/daemon/send.go:99-100, 146-147), or whose connection is lost after that, is neither,
  and the item is dropped though nothing was refused. `SendQueue` gives the run and the exact condition.
- A tap pairing may end with one side saved and the other not (internal/daemon/tappair.go:202-234).

## Model

| member | source | states |
|---|---|---|
| `Names.SanitizedIsLegal` | internal/daemon/util.go:20-27 | whatever a peer sends as a name, the cleaned name is one single component, not empty, "." or ".." |
| `Names.SanitizeIs` | internal/daemon/util.go:20-27 | a name is cleaned to its last component; empty components and "." do not count |
| `Names.SanitizeTakesBack` | internal/daemon/util.go:20-27 | ".." takes back the component before it |
| `Names.SanitizeOne` | internal/daemon/util.go:20-27 | a single component is kept, and "file" is what is left of none |
| `Names.UniquePathExcept` | internal/daemon/util.go:39-58 | the search ends for every finite set of existing and claimed paths and returns the first free candidate in order: every earlier one is on disk or claimed |
| `Names.CandidateInjective` | internal/daemon/util.go:50-57 | two different counters never give the same candidate, through stem, decimal number and extension |
| `Names.CandidateIsLegal` | internal/daemon/util.go:50-57 | renaming a legal path gives a legal path in the same directory |
| `Names.CandidateIs` | internal/daemon/util.go:50-57 | the number goes before the last extension: "stem.ext" is tried as "stem (n).ext" |
| `Names.PlainCandidateIs` | internal/daemon/util.go:50-57 | a name without an extension gets the number at its end, whatever dots its directories have |
| `Names.UnreservedStaysUnreserved` | internal/daemon/util.go:50-57 | an auto-renamed name is reserved, or a temporary, only if the original name was reserved |
| `Names.TempPathsDiffer` | internal/daemon/receive.go:363-384 | part files and sidecars of different destinations are different paths, and a part is never a sidecar |
| `Names.TempNamesAre` | internal/daemon/receive.go:324-384 | the part file of "q" is "q.adrop-part" and its sidecar "q.adrop-part.meta" |
| `Basics.EqualFoldIs` | internal/daemon/receive.go:404 | digests compare equal exactly when they are the same but for the case of letters |
| `Basics.TrimSpaceIs` | internal/daemon/receive.go:404 | trimming takes the white space off both ends of a recorded digest, all of it and nothing else |
| `ReceiverRuns.StepKeepsInv` | internal/daemon/receive.go:184-205 | one inductive invariant over all sessions, files and claims is kept by every step any session can take |
| `ReceiverRuns.RunKeepsInv` | internal/daemon/receive.go:208-314 | the invariant holds in every interleaving, and no file that is not a temporary is lost or changed by it |
| `ReceiverRuns.DeliveredFilesAreIntact` | internal/daemon/receive.go:449-492 | in every run, every file renamed into place is still there with exactly the length and digest its entry declares |
| `ReceiverRuns.NothingIsOverwritten` | internal/daemon/receive.go:349-376 | between any two moments of any run, no file but a temporary disappears or changes |
| `ReceiverRuns.LiveSlotsAreDisjoint` | internal/daemon/receive.go:184-188 | two live slots never share a destination, a part file or a sidecar |
| `ReceiverRuns.ClaimsAreReturned` | internal/daemon/receive.go:365-376 | no claim leaks: when every session has released its slots the table is empty |
| `ReceiverRuns.HasherSeesTheDisk` | internal/daemon/receive.go:423-469 | while a file is open, what was hashed is what is on disk, and the count is its length |
| `ReceiverRuns.OffsetsAgree` | internal/daemon/receive.go:293-297 | whatever ran in between, a file is opened at the offset last recorded as offered on its slot, unless a directory is in place of the part file; Agreement.OpensAtLastOffer is about every offer made |
| `ReceiverRuns.SessionEndMeansComplete` | internal/daemon/receive.go:213-220 | session_end is answered OK exactly when every index was completed, and then every file entry is in place with its length and digest |
| `ReceiverRuns.CompletedOnce` | internal/daemon/receive.go:262-267 | a second file_header for a completed index ends the session and touches no file |
| `ReceiverRuns.AcceptedOnce` | internal/daemon/receive.go:265-304 | over a whole run an index is accepted at most once in a session, and exactly once when it is completed |
| `ReceiverRuns.StepFrame` | internal/daemon/receive.go:184-188 | another session's step leaves a session and the temporaries of its slots alone |
| `Overwrites.OrdinaryFilesAreSafe` | internal/daemon/receive.go:339-377 | with any names at all, no file outside the temporaries is lost or changed over any run |
| `Overwrites.UnreservedIsNeverLost` | internal/daemon/receive.go:354-364 | a file received under an unreserved name is never lost, whatever other transfers do |
| `Overwrites.LostExactlyWhenReserved` | internal/daemon/receive.go:354-364 | for every hash and every name, a received file can be lost to a later transfer if and only if an entry can ask for the name and it ends in ".adrop-part" or is the sidecar of a legal name; both losing runs are given |
| `Overwrites.WantedIsWantable` | internal/daemon/receive.go:340-347 | the names entries can ask for are exactly the valid relative paths, which Confinement.ValidIs spells out, and the single legal components |
| `Confinement.ValidIs` | internal/daemon/receive.go:508-519 | a relative path is taken if and only if it is one or more components joined by slashes, none of them empty, "." or "..", none with a slash, backslash, colon or NUL |
| `Portability.UnsafeIsRefused` | internal/daemon/receive.go:339-347 | an entry whose path has any other component is granted no slot and no directory, and nothing changes |
| `Portability.PathsArePortable` | internal/daemon/receive.go:508-546 | in every run, with any manifests, each directory made and each destination granted to an entry with a relative path is free of backslash, colon and NUL |
| `Portability.DirectoryEntryIs` | internal/daemon/receive.go:269-285 | a directory entry is acknowledged if and only if its end comes next and carries nothing, the entry has no size and digest, its path is safe and no file is on the way; then its directories are there, and otherwise the session ends |
| `Confinement.MakeDirsExactly` | internal/daemon/receive.go:531-545 | making a path of directories succeeds exactly when no file is in the way, and makes exactly the directories on the path |
| `Confinement.EverythingIsConfined` | internal/daemon/receive.go:508-546 | in every run, for any manifests, every path created has only components other than empty, "." and ".." |
| `FileTree.RunIsTree` | internal/daemon/receive.go:387-393 | in every interleaving a disk that is a file tree stays one: no path becomes both a file and a directory, and nothing loses the directory it lies in |
| `Removals.FileStays` | internal/daemon/receive.go:390-393 | no step removes a file but the part file or sidecar of an unreserved destination |
| `Removals.DirStays` | internal/daemon/receive.go:390-393 | no step removes a directory unless it is empty and at the path of such a part file or sidecar |
| `Attempts.BodyArrives` | internal/daemon/receive.go:449-472 | however the sender chunks it, the part file ends as the kept bytes followed by the rest of the source |
| `Attempts.ChunksAreShort` | internal/daemon/send.go:356-373 | a chunk that is sent carries from 1 byte to 256 KiB |
| `Attempts.QueryRuns` | internal/daemon/receive.go:242-258 | a resume_query reserves the slot and is answered with exactly the bytes that can be kept |
| `Attempts.AttemptRuns` | internal/daemon/receive.go:286-313 | the exact state an uninterrupted attempt leaves: in place exactly when kept bytes and streamed rest have the declared digest, else rejected with the partial gone; and the directories that are left |
| `Resume.AttemptOutcome` | internal/daemon/receive.go:420-498 | an attempt delivers exactly the source when the kept bytes are a prefix of it, and otherwise fails and removes the partial |
| `Resume.SelfHealing` | internal/daemon/receive.go:398-409 | from any partial and sidecar, wrong bytes with a matching sidecar included, at most one uninterrupted attempt fails and the next delivers the source under the same name |
| `Resume.PartialSurvives` | internal/daemon/receive.go:417-419 | no run of other sessions touches the partial of a dropped transfer while its slot is held |
| `Resume.InterruptedTransferResumes` | internal/daemon/receive.go:445-468 | after a drop at any byte and any run, under the condition of SameNameAgain, the next session gets the same name and is offered exactly the bytes on disk at the drop, or zero exactly where a directory was in place of the sidecar |
| `Resume.SameNameAgain` | internal/daemon/receive.go:349-376 | once the dropped slot is released, a new session granted any slot gets the same name if and only if no directory took it and every earlier candidate is still taken |
| `Resume.FirstNameResumes` | internal/daemon/receive.go:349-376 | a file received under its own name is resumed under it, with that same offer, unless a directory took the name |
| `Resume.FreeNameIs` | internal/daemon/util.go:46-57 | the k-th candidate is granted if and only if it is free and every earlier one is not |
| `Resume.HonestPartialsArePrefixes` | internal/daemon/receive.go:428-453 | if every delivered byte extends what the receiver has as an original of the declared digest does, then across all interleavings and drops a partial whose sidecar has the digest of x is a prefix of x; HonestSenders proves that hypothesis of the sender |
| `Resume.HonestSeedIsPrefix` | internal/daemon/receive.go:398-409 | so the bytes an attempt continues from are a prefix of its source |
| `ReceiverDrive.DriveIsRun` | internal/daemon/receive.go:208-314 | serving a connection message by message is a run of the step machine, by steps of that session only |
| `ReceiverDrive.DriveEnds` | internal/daemon/receive.go:208-220 | every connection, whatever arrives on it, is served to an end |
| `ReceiverDrive.ReleaseIsRun` | internal/daemon/receive.go:190-194 | the deferred releases, in any order, give back exactly the session's claims |
| `ReceiverDaemon.Daemon.MakeDirectory` | internal/daemon/receive.go:521-546 | the loop over the components makes the directories of the specification and stops at the same failure; the paths refused are those of Portability.UnsafeIsRefused |
| `ReceiverDaemon.Daemon.ReserveSlot` | internal/daemon/receive.go:339-377 | the critical section grants the specified destination, creates its parents and claims exactly its part path; the paths refused are those of Portability.UnsafeIsRefused |
| `ReceiverDaemon.Daemon.PartialBytes` | internal/daemon/receive.go:398-409 | the resumable length, also where a directory is in place of the partial, and the removal of a partial of another original with whatever empty directories are at its paths |
| `ReceiverDaemon.Daemon.ReceiveOneFile` | internal/daemon/receive.go:420-498 | the body loop leaves the directory, the session and the rest of the connection exactly as the step machine does, on every outcome, with directories at the part path or the sidecar too |
| `ReceiverDaemon.Daemon.ReceiveDirectory` | internal/daemon/receive.go:269-285 | a directory entry's end frame, or the end of the connection, comes to what the step machine makes of it |
| `ReceiverDaemon.Daemon.ReceiveFile` | internal/daemon/receive.go:286-308 | slot, offset recomputed, body: the same as the step machine from the file_header on |
| `ReceiverDaemon.Daemon.ServeSession` | internal/daemon/receive.go:195-315 | the frame loop gives the state and the answers of the step machine driven by the same messages |
| `ReceiverDaemon.Daemon.ReceiveFiles` | internal/daemon/receive.go:172-322 | a whole connection, with the deferred release of its slots: exactly the machine's state, answers and result |
| `Served.ServingIsSafe` | internal/daemon/receive.go:172-322 | serving any connection in any reachable state keeps the invariant and every file in place, returns the claims to what they were, and success means every file is in place with its length and digest |
| `Transfer.JointRunKeepsInv` | internal/daemon/send.go:279-330 | sender and receiver stay in step in every joint run, with cuts at any byte, directories of any size in place of partials, and other sessions stepping in between |
| `Transfer.OffersTakenUp` | internal/daemon/send.go:345-351 | an offer of some but not all of the bytes is taken up, and any other number starts the file over |
| `Transfer.SidesAgreeOnOffset` | internal/daemon/send.go:345-351 | when the receiver opens a file it made an offer for on a granted slot, whether the sender has given up or not, the partial has the offered length and what the sender streams starts at that offset |
| `Transfer.SenderIsHonest` | internal/daemon/send.go:356-373 | for such a file, the payload under way is what the source holds at the receiver's position |
| `Transfer.UnfailingRuns` | internal/daemon/send.go:290-326 | a sender that gives up leaves the receiver and the stream as one that merely takes no further step |
| `Arrival.DirectoriesStay` | internal/daemon/receive.go:390-393 | over any run a directory, made in it or there before, stays, unless its path is removable: then it can be gone, with everything below it |
| `Arrival.KeptByFile` | internal/daemon/receive.go:390-393 | a directory with a file below it that is no temporary stays in any case |
| `Arrival.EarlierRunsAreFine` | internal/daemon/receive.go:208-314 | every state that earlier sessions, cut anywhere, can leave on a file tree is one the end-to-end theorem starts from |
| `Arrival.SentMeansArrived` | internal/daemon/send.go:279-330 | if SendFiles returns no error, every file has arrived at a place of its own with exactly its source bytes, and so has every directory whose path is not removable or that has a firm entry below it; one that has not is removable and bare |
| `Vanishing.SidecarVanishes` | internal/daemon/receive.go:491 | for every sidecar path of an unreserved destination, an undisturbed run of one sender that ends in success with the directory acknowledged and gone |
| `Vanishing.PartVanishes` | internal/daemon/receive.go:398-409 | the same for every part path, where the probe finds a directory of size one |
| `Vanishing.VanishesExactly` | internal/daemon/receive.go:386-409 | a directory entry can be acknowledged and missing after success if and only if its path is valid and is the part file or sidecar path of an unreserved destination |
| `Agreement.RefusedIs` | internal/daemon/receive.go:339-364 | a slot is refused exactly for a path that Confinement.ValidIs excludes, or when a file is in the way of the directories that lead to it |
| `Agreement.RefusalStands` | internal/daemon/receive.go:339-364 | a refusal stands in every step of every session, unless a directory of the path is named like another transfer's part file or sidecar |
| `Agreement.OpensAtLastOffer` | internal/daemon/receive.go:242-297 | in every run, for an entry with no such directory on its path, a resuming session that opens the file's part does so at the offset it offered last, granted or refused |
| `AgreedOffsets.JointRunKeepsAgreed` | internal/daemon/send.go:286-313 | in every joint run the offer the sender acts on is recorded at the receiver, or the slot is still refused |
| `AgreedOffsets.SidesAgree` | internal/daemon/send.go:345-351 | in every reachable joint state, the sender having given up or not, for an entry with no such directory on its path, the offset offered, the one the sender starts from and the one the part is opened at are equal, and the partial has that length |
| `Disagreement.DisagreementRuns` | internal/daemon/receive.go:246-256 | the other case is real: a refused query answered with zero, the file in the way removed by another session, a partial left by a third, and the file opened at one while the sender streams from zero |
| `Disagreement.DisagreeExactly` | internal/daemon/receive.go:246-256 | a transfer of an entry can come to a disagreement, before or after the sender gives up, if and only if a proper leading directory of its path is so named, its source has at least two bytes, and its digest compares equal to what a sidecar records |
| `HonestSenders.JointDataIsHonest` | internal/daemon/send.go:356-380 | every payload byte a joint run delivers, before or after the sender gives up, continues what the receiver has as the source does |
| `HonestSenders.JointKeepsPrefixes` | internal/daemon/receive.go:428-453 | a joint run whose other sessions are honest keeps every partial with a matching sidecar a prefix |
| `HonestSenders.DrivenPartialsArePrefixes` | internal/daemon/receive.go:428-453 | when the payload of every session comes from such senders, in every interleaving and across every drop, a partial whose sidecar has the digest of x is a prefix of x |
| `Undisturbed.TakenFile` | internal/daemon/receive.go:286-313 | an entry that can be taken ends in place with exactly the source's bytes |
| `Undisturbed.UndisturbedSucceeds` | internal/daemon/send.go:279-330 | any manifest that describes its sources, whose entries can be taken one after the other, is transferred without an error by a run that nothing disturbs, and the receiver is left as if each had been taken; PlainPlan and FolderTransfer give conditions on the manifest and the disk |
| `PlainPlan.PlainSucceeds` | internal/daemon/send.go:279-330 | if nothing on the disk is in the way of an entry, no file is on the way of another entry, and no temporary of a file on that of an earlier one, the transfer succeeds, every entry is where it asks to be, and nothing else changes |
| `PlainPlan.SuccessIsReachable` | internal/daemon/send.go:279-330 | the hypotheses of the end-to-end theorem can be met, for a file of any content |
| `Sender.SendOneFile` | internal/daemon/send.go:332-382 | for any read sizes and any point at which it is stopped, what is written is the file_header and a script that carries the source from the accepted offset to its end, or the beginning of one |
| `Sender.SendFiles` | internal/daemon/send.go:279-330 | the loop takes the sender's steps; unless cancelled or a write fails it succeeds if and only if every entry got an offer and an acceptance and the session an acceptance |
| `Sender.SenderView` | internal/daemon/send.go:279-330 | the sender's part of any joint run is a run of those same steps on the answers that reached it |
| `Sender.SendFilesMeansArrived` | internal/daemon/send.go:279-330 | when the answers that reached the sender are those on which SendFiles succeeds, the manifest has arrived in the sense of Arrival.SentMeansArrived |
| `FolderWalk.BuildManifest` | internal/daemon/send.go:425-505 | a manifest is built exactly when every path given is a file or a sendable folder; FileEntryIs and EntryIs say what its entries are |
| `FolderWalk.FileEntryIs` | internal/daemon/send.go:445-457 | among any paths given, a plain file's entry has its own base name, no relative path, its size and digest, and among plain files the k-th entry is the k-th file |
| `FolderWalk.EntryIs` | internal/daemon/send.go:476-495 | an entry of a folder has its node's path, the last component of it as its name, and the node's size and digest, or none for a directory |
| `FolderWalk.WalkDir` | internal/daemon/send.go:460-496 | the walk appends one entry and one source per node in order, and fails exactly on the trees that WalksExactly excludes |
| `FolderWalk.WalksExactly` | internal/daemon/send.go:470-487 | a folder is walked to its end if and only if its own name and every name in it is free of slash, backslash, colon and NUL and is not empty, "." or "..", and everything in it is a regular file or a directory |
| `FolderWalk.WalkIsOrdered` | internal/daemon/send.go:460-496 | in the walk no later path is a prefix of an earlier one, so no temporary of a file is an entry before it |
| `FolderWalk.WalkHasParents` | internal/daemon/send.go:476-480 | every entry's directory has an entry before it |
| `FolderWalk.LookupIsWalked` | internal/daemon/send.go:460-496 | every path of the tree is walked |
| `FolderWalk.WalkedIsLookup` | internal/daemon/send.go:460-496 | every walked node is what the tree holds at that path |
| `Folders.NameIsKept` | internal/daemon/receive.go:339-377 | an entry of a folder received at a free root gets its own path: no renaming |
| `Folders.DirectoryArrives` | internal/daemon/receive.go:268-285 | a directory entry adds exactly its directory |
| `Folders.FileArrives` | internal/daemon/receive.go:286-308 | a file entry adds exactly its file |
| `Folders.FolderRoundTrip` | internal/daemon/send.go:425-505 | any tree with sendable names, received where the root is free, is rebuilt: every path with its contents, empty directories included, nothing else new, nothing renamed, session acknowledged |
| `FolderTransfer.ListingIsPlain` | internal/daemon/send.go:460-496 | the walk of a tree, at a root that is free on the disk, is a plain manifest: so it needs no simulation to know that it will be taken |
| `FolderTransfer.FolderIsSent` | internal/daemon/send.go:425-505 | the manifest that is built for any folder with sendable, unreserved names is transferred by a joint run to a receiver without anything at or below its name, SendFiles succeeds, and the receiver has the same tree |
| `FolderTransfer.FilesAreSent` | internal/daemon/send.go:445-457 | plain files with distinct names that are free at the receiver are transferred by a joint run: SendFiles succeeds, each is there under its own name with its bytes, and all else is as it was |
| `Framing.ParseHeader` | internal/proto/proto.go:199-217 | a written header is read back, with what follows it |
| `Framing.ParseCut` | internal/proto/proto.go:199-217 | a header cut anywhere is an error, never another header |
| `Framing.ParsesExactly` | internal/proto/proto.go:199-217 | exactly what is read as a header: four bytes of length, the most significant first, of 1 byte to 1 MiB, that many bytes, which decode, and what is left |
| `Framing.CutStream` | internal/proto/proto.go:159-217 | of a stream cut at any byte the reader sees exactly the whole messages, then the header and payload prefix of the cut one |
| `Framing.WholeStream` | internal/proto/proto.go:159-217 | of an uncut stream the reader sees every header and every payload, in order and unchanged |
| `Framing.Conn.WriteMessage` | internal/proto/proto.go:159-189 | exactly when it succeeds, and what it has written in either case |
| `Framing.Conn.ReadHeader` | internal/proto/proto.go:199-217 | it returns and consumes exactly the header at the front of the input, or fails |
| `Hdlc.Encode` | internal/rns/hubconn.go:92-101 | the loop writes the flag, the stuffed data and the flag |
| `Hdlc.Decoder.Feed` | internal/rns/hubconn.go:125-159 | reading a buffer moves the decoder as reading its bytes one by one |
| `Hdlc.FlipIsXor` | internal/rns/hubconn.go:92-159 | an escaped byte is changed in the bit of 0x20 and no other |
| `Hdlc.StuffedBytes` | internal/rns/hubconn.go:92-101 | a flag goes out as 7D 5E, an escape as 7D 5D, every other byte as it is, and no flag is left inside |
| `Hdlc.SegmentIsRead` | internal/rns/hubconn.go:131-158 | any bytes between two flags, well-formed or not, hand on what they stand for if that is a packet of 1 to the maximum size, and nothing otherwise |
| `Hdlc.SplitDoesNotMatter` | internal/rns/hubconn.go:131-158 | how the stream is split into reads does not matter |
| `Hdlc.StreamIsRecovered` | internal/rns/hubconn.go:92-159 | after any garbage and under any split, exactly the packets of 1 to the maximum size come out, unchanged and in order |
| `Hdlc.StreamRoundTrip` | internal/rns/hubconn.go:92-159 | decoding an encoded list of deliverable packets gives the list |
| `Hdlc.OnlyDeliverable` | internal/rns/hubconn.go:136-157 | whatever arrives, only packets of 1 to the maximum size are handed on |
| `HubClipboard.SendParts` | internal/daemon/queue.go:252-264 | the loop sends the parts in order, up to the first one not taken |
| `HubClipboard.PartsAre` | internal/daemon/queue.go:248-264 | a text of up to 4096 bytes goes out in at most 30 parts, each of 138 bytes but the last, which is not empty unless the text is |
| `HubClipboard.Receiver.ReceiveClipPart` | internal/daemon/queue.go:279-316 | the table and the completed text are those of the specification, for any part |
| `HubClipboard.JoinedParts` | internal/daemon/queue.go:313-316 | the parts together are the data |
| `HubClipboard.KeyInjective` | internal/daemon/queue.go:287 | two clips never share a key of the table |
| `HubClipboard.RunKeepsInv` | internal/daemon/queue.go:239-329 | every table entry holds only its sender's parts, in every run of any number of devices |
| `HubClipboard.OnlySetToSentData` | internal/daemon/queue.go:279-329 | under any loss, repetition, reordering, mixing and expiry, a clipboard is only set to data sent to it |
| `HubClipboard.SuccessMeansSet` | internal/daemon/queue.go:265-271 | the sender reports success only for a clip that was set, unchanged, on the device it was for; exactly when it does is ReportedExactly |
| `HubClipboard.ReportedExactly` | internal/daemon/queue.go:265-271 | over every run a clip is reported as sent if and only if its sender returned so, once, after an acknowledgement for it had arrived while it waited |
| `HubClipboard.AcknowledgedIsReported` | internal/daemon/rns.go:193-199 | a clip that was set, acknowledged, and whose acknowledgement arrives before the sender gives up is reported as sent |
| `HubClipboard.ClipGoesThrough` | internal/daemon/queue.go:239-271 | for any text of up to 4096 bytes there is a run in which it is set on its device and reported as sent |
| `HubClipboard.ExpiredMustComeAgain` | internal/daemon/queue.go:288-298 | after the minute is over the clip is set again only once every part of it has come again |
| `HubClipboard.RefusedIsNotSet` | internal/daemon/queue.go:317-321 | a text that the system clipboard does not take is not set |
| `HubClipboard.PingIsAnswered` | internal/daemon/rns.go:177-209 | a ping is answered with a pong, which its sender takes for the answer |
| `HubClipboard.TableStaysBounded` | internal/daemon/queue.go:279-316 | whatever parts arrive, from anyone, no collection has more than 30 parts of at most 138 bytes, none is kept once complete, and no text is longer than that |
| `HubClipboard.AllPartsMeanSet` | internal/daemon/queue.go:299-316 | once every part has arrived, in any order, without expiry, the clipboard has been set to the data |
| `HubClipboard.SetAtMostAsOften` | internal/daemon/queue.go:299-308 | a clip is set at most as often as each of its parts was delivered |
| `SendQueue.Queue.Enqueue` | internal/daemon/queue.go:68-78 | the item is added at the end, as it will read back |
| `SendQueue.Queue.Unqueue` | internal/daemon/queue.go:100-111 | exactly the item with this id is removed, and success says whether there was one |
| `SendQueue.Queue.Settle` | internal/daemon/queue.go:150-176 | the critical section after a send changes only the item it was for, as its outcome says |
| `SendQueue.Queue.RetryPass` | internal/daemon/queue.go:136-178 | an undisturbed pass, cancelled anywhere, in a send too, sends every item before that point once, in order, with exactly its paths or its clip as plain text, and leaves what SurvivorIs says and the rest |
| `SendQueue.SurvivorIs` | internal/daemon/queue.go:157-172 | what a pass leaves are exactly the items that were not reached, with one more try and the reason; a send of no files is refused |
| `SendQueue.UndisturbedPass` | internal/daemon/queue.go:136-178 | a pass of the state machine that nothing disturbs makes one attempt per item, in order, and leaves the list that RetryPass leaves |
| `SendQueue.QueueIsConserved` | internal/daemon/queue.go:68-178 | in every interleaving the list is exactly the items queued and not gone, in order, contents unchanged |
| `SendQueue.ListedAsQueued` | internal/daemon/queue.go:68-172 | in every run what is on the list has the peer, paths and clip it was queued with, its tries are those it came with and one for every noted send that did not reach the peer, and its reason is the last one given |
| `SendQueue.AttemptsCarryTheItem` | internal/daemon/queue.go:144-149 | in every run every send is of an item that was queued, to its peer, with its non-empty clip as plain text or else exactly the paths queued |
| `SendQueue.LeavesOnlyForAReason` | internal/daemon/queue.go:157-172 | an item leaves only because a send of it went through, was refused or was cut off, or because it was unqueued |
| `SendQueue.GoneExactly` | internal/daemon/queue.go:100-172 | over every run, an item is gone for a reason if and only if at some step that very thing took it off the list |
| `SendQueue.LostExactlyWhenCutOff` | internal/daemon/queue.go:166-169 | a queued item is off the list without success, refusal or unqueue if and only if a send of it that was cancelled or cut was settled while it was on the list |
| `SendQueue.CutOffIsLost` | internal/daemon/queue.go:166-169 | the run: the daemon is stopped while the runner dials, and the item is gone though no peer was reached |
| `SendQueue.NeverReturns` | internal/daemon/queue.go:150-176 | what left the list never comes back |
| `SendQueue.FinalSendsAreNotRepeated` | internal/daemon/queue.go:158-172 | a send that went through, was refused or was cut off is not made again, unless the daemon stopped before noting it |
| `SendQueue.NothingLostWithoutRestart` | internal/daemon/queue.go:150-176 | without a restart no outcome is forgotten, so that exception does not arise |
| `SendQueue.RepeatedAfterRestart` | internal/daemon/queue.go:146-175 | the exception is real: a stop between a send and its note makes it happen twice |
| `SendQueue.RetryIsFaithful` | internal/daemon/queue.go:144-149 | a queued clipboard is retried as what was to be sent if and only if it is non-empty plain text; an empty one is refused and dropped |
| `TapPairing.AwaitAnswers` | internal/daemon/tappair.go:191-235 | the select loop ends as the fold of its turns does |
| `TapPairing.StoppedEnds` | internal/daemon/tappair.go:202-221 | the first refusal, failed write, timeout or cancellation before both have said yes ends the side with that reason |
| `TapPairing.BothEnds` | internal/daemon/tappair.go:222-234 | both yeses before any of these end it saved, or with the failure to save |
| `TapPairing.NeitherWaits` | internal/daemon/tappair.go:202-221 | without either the side still waits |
| `TapPairing.SideEnds` | internal/daemon/tappair.go:202-221 | between the two endpoints, what ends a side and with what, and what reaches the other when a write fails |
| `TapPairing.RefusalArrives` | internal/daemon/tappair.go:192-196 | a refusal that was written, or a lost connection, ends the other side when it reads |
| `TapPairing.EndedSideStays` | internal/daemon/tappair.go:61-78 | a side that has ended stays as it ended, and later answers are not taken |
| `TapPairing.RunKeepsInv` | internal/daemon/tappair.go:155-235 | what each side knows comes from the first answers, in every run of the two endpoints |
| `TapPairing.SavedMeansBothSaidYes` | internal/daemon/tappair.go:191-235 | a side saves its peer only if both users' first answers were yes |
| `TapPairing.OneRefusalIsEnough` | internal/daemon/tappair.go:61-78 | one refusal means neither side saves, whatever is answered later |
| `TapPairing.BothSaveWhenNothingFails` | internal/daemon/tappair.go:202-234 | without loss, timeout or cancellation, two yeses end with both sides saved |
| `TapPairing.OnlyOneMaySave` | internal/daemon/tappair.go:202-234 | both saving is not guaranteed: a run in which one side saves and the other times out |
| `HubManager.DedupKeeps` | internal/rns/hubs.go:242-252 | the candidates are distinct and are exactly the non-empty hubs given |
| `HubManager.DedupAppend` | internal/rns/hubs.go:106-110 | adding hubs keeps the earlier candidates as a prefix |
| `HubManager.Manager.AddCandidates` | internal/rns/hubs.go:105-110 | the new candidate list, and that the old one is its prefix |
| `HubManager.Manager.Fill` | internal/rns/hubs.go:181-216 | what is picked, held and marked bad after a fill, for any set of failing connections |
| `HubManager.Manager.Measure` | internal/rns/hubs.go:145-179 | in any iteration order, what is kept and what is marked bad; GivenUpExactly says which hubs those are |
| `HubManager.GivenUpExactly` | internal/rns/hubs.go:150-176 | over every run, at a check: a hub the node does not know is forgotten unmarked; one it knows is given up and marked if and only if it is disconnected for longer than the grace since its selection, or brought no data for longer than the silence since its counter last rose or, if it never did, since its selection |
| `HubManager.LiveHubStays` | internal/rns/hubs.go:155-171 | a connected hub whose counter rose since it was last looked at stays |
| `HubManager.LeavesOnlyThen` | internal/rns/hubs.go:150-211 | a held hub leaves only at such a check or when its connection is refused |
| `HubManager.DefaultsAre` | internal/rns/hubs.go:47-69 | zero settings are 3 hubs, 20 seconds, 90 seconds and 30 minutes, and the others are taken as they are |
| `HubManager.PickedInListOrder` | internal/rns/hubs.go:189-202 | a candidate is picked if and only if it is eligible and fewer than the needed number of eligible ones come before it |
| `HubManager.SelectedExactly` | internal/rns/hubs.go:181-203 | over every run a selection takes a candidate if and only if it is not held, the back-off since each stamp it was given up with is over, and fewer than the missing number of such candidates come before it |
| `HubManager.SelectionIsFull` | internal/rns/hubs.go:183-202 | after a selection the wanted number is held or no candidate is eligible |
| `HubManager.AtMostWanted` | internal/rns/hubs.go:181-203 | over every run at most the wanted number of hubs is held, all of them candidates |
| `HubManager.BackoffIsKept` | internal/rns/hubs.go:172-200 | a hub given up is not selected again before the back-off has passed since its stamp; from a refusal on, the wait is shorter by the time from the selection to the refusal |
| `HubManager.DropsAreStamped` | internal/rns/hubs.go:172-175 | the stamp is the time of giving up, unless that was a refused connection |
| `HubManager.RefusalShortensTheWait` | internal/rns/hubs.go:204-211 | that bound is met: a refused hub can be selected again exactly a back-off after its selection, however late it was refused |
| `HubManager.CandidatesOnlyGrow` | internal/rns/hubs.go:106-110 | over every run, candidates are only added at the end |
| `PairingPayload.EncodeRaw` | internal/pairing/pairing.go:51-98 | the bytes appended are the layout of the payload's fields, and it refuses exactly the payloads that have none |
| `PairingPayload.EncodesExactly` | internal/pairing/pairing.go:51-86 | exactly which payloads Encode takes: name and address of 1 to 255 bytes, 64 hex digits of fingerprint, a certificate of at most 65535 bytes, 128 hex digits of Reticulum key or, without one, version 0, 2 or 3 |
| `PairingPayload.LayoutIs` | internal/pairing/pairing.go:88-96 | where each field lies in the bytes, lengths of two bytes with the high one first |
| `PairingPayload.DecodeCompact` | internal/pairing/pairing.go:129-190 | the cursor reads exactly the fields of the specification, and no input makes it read out of bounds |
| `Hex.HexRoundTrip` | internal/pairing/pairing.go:167 | hex text decodes to the bytes it was made from |
| `Hex.HexLowers` | internal/pairing/pairing.go:71 | upper-case hex reads the same and is written back in lower case |
| `Hex.HexAccepts` | internal/pairing/pairing.go:60-79 | exactly the strings of an even number of hex digits decode |
| `Hex.HexOfBytes` | internal/pairing/pairing.go:167 | two bytes in hex, high digit first, in lower case |
| `PairingPayload.ParseIsLayout` | internal/pairing/pairing.go:129-190 | whatever is accepted is the layout of acceptable fields |
| `PairingPayload.LayoutParses` | internal/pairing/pairing.go:129-190 | what can be written is read back unchanged if and only if it is acceptable |
| `PairingPayload.DecodeUndoesEncode` | internal/pairing/pairing.go:51-98 | what Encode wrote is accepted if and only if the certificate is not empty, matches the fingerprint, and version 3 has a Reticulum key; then the payload comes back |
| `PairingPayload.EncodeUndoesDecode` | internal/pairing/pairing.go:129-190 | every accepted compact byte string encodes back to itself |
| `PairingPayload.UriRoundTrip` | internal/pairing/pairing.go:97-114 | the same through the URI |
| `PairingPayload.SchemeIs` | internal/pairing/pairing.go:97-107 | a URI begins with adrop://pair?d= |
| `PairingPayload.DecodesExactly` | internal/pairing/pairing.go:103-190 | exactly what Decode accepts and as what: the scheme and the base64 of a layout of acceptable fields, or of a JSON payload whose certificate has the fingerprint it names, which comes back unchanged |
| `PairingPayload.FingerprintIsOfCertificate` | internal/pairing/pairing.go:103-127 | no URI is accepted, compact or JSON, whose fingerprint is not that of its certificate |

## Left out

- TLS, certificates, signatures, SHA-256, JSON, base64 and PEM are library code and appear as parameters.
- Dialling a peer, waking it and the wording of failures; a send goes through, is unreachable, refused or cut off. An unknown device, a fingerprint that does not match and a missing file count as refusals.
- Command line, IPC, notifications, the system clipboard, the QR window and rendering, the catalogue download: input and output.
- Symbolic links, case-insensitive file systems, other programs writing to the directory, failing disk writes, names the file system refuses.
- Open file handles are paths: under reserved names, where one session's part can be another's destination, a write through a handle to a renamed file is modelled as a write to the path.
- White space and letter case of digests are ASCII only.
- A payload attached to a frame other than a chunk is not modelled; the frames read in its place are covered by arbitrary frames.
- ReceiverDaemon.Daemon.ReceiveFiles: serves one connection at a time; interleaving with other connections is the step machine's, of which the method is proved to be a run.
- Resume.InterruptedTransferResumes: takes as given that the retry is granted a slot at all; Agreement.RefusedIs says exactly when it is not.
- SendQueue.Queue.RetryPass: a pass no other call disturbs; passes disturbed by other calls are covered by the run theorems. An item unqueued during a pass may still be sent, since the pass works from a snapshot.
- HubClipboard: the one-minute expiry is an event that may happen at any time, which covers the timer of an earlier collection under the same key.
- Transfer counters, log lines and the announcing of hubs.
