# Verification of the object store

A Dafny model of an object store whose database is the file system, and proofs of what it
promises. Objects are files, their metadata extended attributes; a sorted listing index beside
the files must agree with them. The model covers the commit protocol, the index with its
reconcile, paging and delimiter roll-up, multipart uploads, group commit, byte ranges, the
bucket-access cache and the order in which handlers change files and index.

`dafny verify dfyconfig.toml` checks everything.

## How the system is modelled

- **Commit protocol** (`CommitProtocol`, `CommitSafety`, `CreateOnce`, `CompareAndSwap`,
  `GuardedSwap`, `StaleFlock`, `SharedExpectation`, `LostKeys`, `TempSweep`, `LoneCalls`,
  `CommitRuns`, `CommitLimits`). A heap of inodes, a map from paths to inodes, a map of held flocks
  and a program counter per process. Uploads, uploads of parts, copies, assemblies of parts, readers, moves,
  deletes and sweeps are processes or steps of one machine. `open`, `rename`, `renameat2`,
  `unlink`, `flock`, `fdatasync` and each attribute write are atomic steps. Any number of processes
  interleave freely; any call may fail, temp files may be swept and the machine may crash at any
  point. A crash ends every process and may garble whatever was never synced.
- **Listing index** (`ByteStrings`, `FileTree`, `ListingIndex`, `Reconcile`, `Paging`,
  `Delimiter`, over `Sequences` and `Keys`). The embedded database is a strictly ascending sequence
  of byte strings. The class `Index` carries out insert, delete, scan and reconcile with the source's loops; a
  directory tree is a datatype whose entries come in any order.
- **Multipart** (`TempFile`, `Etags`, `Decimal`, `UploadPlaces`, `Multipart`, `MultipartRuns`,
  `UploadHistory`, `AstrayNames`).
  Files and directories are absolute paths, and an upload name is looked up the way the kernel does,
  with slashes, dots and double dots. `Apply` says what each call does; the class `Uploads` carries the
  calls out, part bytes buffer by buffer; `UploadHistory` follows an upload over whole runs.
- **Handlers** (`KeyPaths`, `IndexAgreement`, `HandlerEffects`, `Overlaps`). Put, delete, move and
  completion run one effect at a time, interleaved with failures, lock files, directory creation,
  crashes and restarts. The index holds keys as clients spell them, the file system the paths they
  resolve to; a move of a directory moves everything below it, and a completed upload is filed under
  the key it was initiated for and indexed under the key of the request.
- **Bucket access** (`BucketAccess`, `BucketHistory`, `CacheRaces`). Whole calls in a class, and the
  same calls split into their effects and interleaved.
- **Small agreeing pairs** (`RangeHeader`, `ObjectAttrs`, `SyncGroup`).

MD5 and the JSON codec are parameters. Clocks, ages and upload names are parameters or free
choices of a step: a sweep may take any temp file, a process any unused name. `DESIGN.md` describes
If-None-Match by exclusive creation; the model follows the code, a rename that does not replace.

## Where the code does not do what it is said to do

Each of these is a lemma that gives a failing run or the exact condition, or both; the property is
then proved for exactly the inputs that have it, or under a hypothesis that excludes the failing
family.

- The tests and comments of `crates/storage/src/write.rs` present If-Match as compare-and-swap.
  The winner unlinks the lock file while others wait on it, so of two later writers with one
  expectation the second can replace what the first has just published (`CommitLimits.TwoWinners`).
  After a flock whose re-check passes, every continuation is compare-and-swap exactly when the file
  locked is the one at the lock path (`StaleFlock.SafeExactlyOnCurrentLock`). Clients are safe
  without that check when writers that overlap on a key share their expectation and none brings the
  version it expects (`SharedExpectation.PoliteSwapsMatch`); then a round has at most one winner
  (`CompareAndSwap.AtMostOneSwap`).
- If-Match on a missing key ends with an attribute error and leaves the temp file, where the
  interface speaks of not-found (`CommitLimits.MissingKeyIsAttributeError`). A missing part ends with
  an attribute error instead of "not uploaded" (`Multipart.MissingPartIsAttributeError`).
- A key that ends in `.lock` shares its path with another key's lock file: it can vanish without a
  delete, a move or an abort that reaches it, and those are the only keys that can
  (`LostKeys.LostExactly`); and it can lead to a lock file, which is no object
  (`CommitLimits.LockFileVisible`).
- Upload names are joined to the multipart directory as they come. An abort spares all objects and all
  other uploads exactly when its name does not lead above the uploads, into another upload or into a
  bucket (`AstrayNames.AbortSparesExactly`); `AstrayNames.WriteSparesExactly` is the same for
  parts. One upload has many names (`UploadPlaces.DotSpelling`). The promises about runs are proved for
  names that lead to the directory of an upload, however they are spelled.
- A completed upload appears under the key it was initiated for, and the key of the request is
  indexed: agreement is kept exactly when they are the same, or both had objects before
  (`HandlerEffects.CompleteKeepsAgreementExactly`, `HandlerEffects.CompletedUnderAnotherKey`).
- A copy reads bytes and attributes by path one after the other, and skips its sync when the temp
  file cannot be reopened (`CommitLimits.TornCopy`, `CommitLimits.SkippedSyncLosesBytes`,
  `CommitLimits.CopyIsWholeExactly`).
- An assembly compares a part's etag and opens the part by path afterwards; its digests match its
  bytes exactly when the part opened has the digest compared
  (`CommitLimits.AppendPartKeepsPairingExactly`).
- PATCH onto the same key, from a key without object, or of a directory leaves a wrong index
  (`HandlerEffects.PatchKeepsAgreementExactly`, `HandlerEffects.DirectoryPatchLosesFiles`). So do
  keys not spelled like the path they lead to (`HandlerEffects.PutKeepsAgreementExactly`,
  `HandlerEffects.AliasOutlivesItsFile`), a lock file left by a failed PUT
  (`HandlerEffects.LockFileStays`) and handlers that overlap on a key: `Overlaps.OverlapAgreesExactly`
  gives the condition for any two calls, `Overlaps.PutDeleteOverlap` and
  `Overlaps.UploadDuringPatchIsHidden` are failing runs.
- Reconcile keeps an entry whose path has become a directory
  (`Reconcile.ReconcileRestoresAgreement`), and an entry whose key leads out of the bucket
  (`IndexAgreement.CrashThenRestart`); PATCH makes such entries before it refuses the key.
- A range bound of 2^64 or more is refused although section 14.1.2 of RFC 9110 makes the range
  satisfiable (`RangeHeader.ParseEncodeAgree`).
- Bucket calls that overlap can leave an old level in the cache for good
  (`CacheRaces.StaleFill`, `CacheRaces.StaleInsert`); `CacheRaces.CacheRightExactly` says when.
- Overwriting attributes in place would keep old ones that the new object lacks; reading by handle
  refuses an empty etag that reading by path accepts (`ObjectAttrs.AttributesRoundTrip`).

## Model

| member | source | states |
|---|---|---|
| CommitProtocol.StepKeepsWellFormed | crates/storage/src/write.rs:36-183 | every step of every process keeps the invariant: a writer's inode is hidden until its commit, holds exactly what has been sent or gathered, carries its etag once tagged and is synced exactly from its sync on; a lock holder owns the flock |
| CommitProtocol.RunKeepsWellFormed | crates/storage/src/write.rs:36-183 | the invariant holds after every interleaving of any number of uploads, part uploads, copies, assemblies, readers, moves, deletes, sweeps and crashes |
| CommitSafety.VisibleInodesNeverChange | crates/storage/src/write.rs:195-218 | an inode that a key, a part, an open handle or a running copy refers to is never written again; a crash spares it once synced |
| CommitSafety.PublishedOnlyAfterSync | crates/storage/src/multipart.rs:128-152 | no rename of an upload, a part or an assembly happens before the sync of its own file succeeded, and what it publishes is its whole body |
| CommitSafety.CommitPublishesComplete | crates/storage/src/write.rs:160-176 | what a commit is about to publish is complete: for uploads, parts, assemblies and undisturbed copies |
| CommitSafety.EndStreamGenuine | crates/storage/src/multipart.rs:418-476 | the version an assembly ends with has the composite etag of the uploads its bytes consist of, an upload its own digest |
| CommitSafety.StepKeepsSafe | crates/storage/src/read.rs:53-172 | each step keeps every visible object and part complete, every finished version genuine, and every reader's size and etag those of its inode |
| CommitSafety.RunKeepsSafe | crates/storage/src/read.rs:53-172 | the same over every run |
| CommitSafety.VisibleObjectsAreComplete | crates/storage/src/write.rs:36-183 | in every state reachable from the empty store, crashes and sweeps included, a key leads to the bytes and etag of one finished upload or assembly, synced to disk, and the etag is the digest or the composite of those bytes |
| CommitSafety.HandleKeepsItsObject | crates/storage/src/read.rs:53-91 | an open handle keeps one inode with consistent bytes, size and etag however others overwrite, move, delete or sweep |
| TempSweep.SweepIsInvisible | crates/storage/src/gc.rs:8-40 | sweeping the temp file of a process that has returned or was lost in a crash changes nothing for any later run: same steps, same state but for that name |
| CreateOnce.CreateFoundKeyAbsent | crates/storage/src/write.rs:101-138 | a successful If-None-Match commit found its key absent and left it holding the writer's inode |
| CreateOnce.CreatesBounded | crates/storage/src/write.rs:279-302 | over every run mixing all writers with moves, deletes and crashes, creates on a key are at most one more than its removals, counted exactly by its presence before and after |
| CreateOnce.CreatorsCounted | crates/storage/src/write.rs:122-137 | no If-None-Match writer reports success without a create of its own |
| CreateOnce.AtMostOneCreator | crates/storage/src/write.rs:101-138 | while nothing removes the key at most one If-None-Match writer succeeds, none if the key existed |
| LoneCalls.LoneCallDoesWhatItMeans | crates/storage/src/write.rs:36-183 | every fault-free run of a PUT, part upload, copy or assembly that is alone ends as a sequential reading of the call says: refused with nothing changed, or the destination holding the bytes and etag meant, and no other name changed |
| LoneCalls.LoneCallEnds | crates/storage/src/write.rs:36-183 | every such call whose lock file is free can be run to its end |
| LoneCalls.CheckPassesExactly | crates/storage/src/write.rs:74-96 | If-Match passes exactly for an object that has an etag when the text is `*` or `"*"`, and otherwise when the etag is that text; and each refusal's error |
| LoneCalls.WildcardReplaces | crates/storage/src/write.rs:241-272 | a PUT with `If-Match: *` alone on an object with any etag succeeds with its inode at the key |
| LoneCalls.LoneCallIsOrdinary | crates/storage/src/write.rs:36-183 | what the theorems on runs ask of the steps holds of such a call: it is tame under an ordinary key, free of faults, and one of a cohort when it expects the etag and brings another |
| LoneCalls.OpenedObjectIsRead | crates/storage/src/read.rs:53-91 | who opens a key reads the bytes, size and etag that the object had at that moment, whatever others do meanwhile |
| LoneCalls.ReaderLearns | crates/storage/src/read.rs:53-91 | an open handle can be asked for size and etag at any time and answers with those of its inode |
| CompareAndSwap.OneVerified | crates/storage/src/write.rs:241-265 | before the first swap at most one writer of a cohort is past its re-check under the lock |
| CompareAndSwap.SwapKeepsCohort | crates/storage/src/write.rs:267-272 | the swap moves the cohort from the phase before to the phase after, in which nobody can be past the re-check |
| CompareAndSwap.StepKeepsCohort | crates/storage/src/write.rs:220-273 | every step of a cohort run keeps: before the swap each opened lock is the one at the lock path, after it the publisher is unique |
| CompareAndSwap.OldStaysGone | crates/storage/src/write.rs:247-265 | nothing in a cohort run brings the expected etag back |
| CompareAndSwap.SwapsBounded | crates/storage/src/write.rs:220-273 | from any state of a cohort run the swaps still to come are at most one, and none once the etag has changed |
| CompareAndSwap.AtMostOneSwap | crates/storage/src/write.rs:74-96 | any number of If-Match writers that expect the current etag and bring another swap at most once, although the winner removes the lock file |
| CompareAndSwap.ExactlyOneSucceeds | crates/storage/src/write.rs:220-273 | without faults, when all writers of the cohort have returned, exactly one has succeeded |
| GuardedSwap.OneInCriticalSection | crates/storage/src/write.rs:241-271 | under the lock discipline, mutual exclusion from the flock to the unlinking of the lock file |
| GuardedSwap.FlockKeepsGuardedExactly | crates/storage/src/write.rs:234-245 | a flock keeps the discipline exactly when the file locked is the one at the lock path |
| GuardedSwap.StepKeepsGuarded | crates/storage/src/write.rs:220-273 | every other step keeps it, for any mix of expectations and If-None-Match writers |
| GuardedSwap.GuardedSwapsMatch | crates/storage/src/write.rs:220-273 | over every disciplined run each swap replaces an object with the etag its writer expected |
| StaleFlock.StaleFlockLosesUpdates | crates/storage/src/write.rs:241-272 | from any state with a verified writer on a stale lock, whatever it expects, a disciplined continuation in which a version is replaced that its writer never compared |
| StaleFlock.SafeExactlyOnCurrentLock | crates/storage/src/write.rs:234-245 | after any flock whose re-check passes, wildcards included, all disciplined continuations are compare-and-swap if and only if the file locked is the one at the lock path |
| StaleFlock.RunKeepsFlocksOwned | crates/storage/src/write.rs:241-245 | in every reachable state each flock is held by the process that took it |
| SharedExpectation.StepKeepsPolite | crates/storage/src/write.rs:220-273 | while the expected etag stands every overlapping writer waits on the current lock file, and a verified writer has the etag it expects |
| SharedExpectation.PoliteSwapsMatch | crates/storage/src/write.rs:74-96 | when overlapping If-Match writers share their expectation, every swap over any number of rounds replaces the version its writer expected |
| CommitLimits.TwoWinners | crates/storage/src/write.rs:267-272 | a run from the empty store that loses an update: two writers with one expectation succeed, the second over what the first published |
| CommitLimits.LockKeyLost | crates/storage/src/write.rs:230-240 | a run in which an object stored under a `.lock` key vanishes though nobody deleted or moved it |
| CommitLimits.LockFileVisible | crates/storage/src/write.rs:230-240 | a run in which a key leads to a lock file that is no object |
| LostKeys.RemovalIs | crates/storage/src/read.rs:95-109 | a key is taken away by a delete, a move to another key, an abort that reaches it, or as a lock file, and by nothing else |
| LostKeys.HeldKeyStays | crates/storage/src/write.rs:267-272 | over every run with valid keys a key that is no lock path stays held until it is deleted, moved or reached by an abort |
| LostKeys.LostExactly | crates/storage/src/write.rs:230-272 | a key can be lost without a delete, a move or an abort that reaches it exactly when it is the lock path of a valid key |
| CommitLimits.TornCopy | crates/storage/src/read.rs:141-167 | a run in which a copy pairs old bytes with a new etag |
| CommitLimits.SkippedSyncLosesBytes | crates/storage/src/read.rs:145-150 | a run in which a copy with a skipped sync is emptied by a crash |
| CommitLimits.CopyIsWholeExactly | crates/storage/src/read.rs:141-167 | a copy ends complete exactly when its sync was not skipped and the copied bytes are a finished version under the etag the source has when its attributes are read |
| CommitLimits.UnchangedEtagCopies | crates/storage/src/read.rs:151-167 | a synced copy is complete when the source still has the etag of the version copied |
| CommitLimits.AppendPartKeepsPairingExactly | crates/storage/src/multipart.rs:418-464 | appending a part keeps pieces and digests in step exactly when the part opened has the digest whose etag was compared |
| Etags.HexRoundTrip | crates/storage/src/multipart.rs:437-452 | hex decoding undoes hex encoding, for all byte strings |
| Etags.EtagRoundTrip | crates/storage/src/multipart.rs:437-452 | the raw digest is recovered from any quoted etag |
| Etags.TagText | crates/storage/src/write.rs:195-218 | a tag is a quote, two lower-case hexadecimal digits for each byte of the digest, and a quote |
| TempFile.StreamToTemp | crates/storage/src/write.rs:195-218 | the temp file, size and etag are those of the bytes before end of stream; any failing read, write, creation or flush fails the whole |
| TempFile.BodyIsJoined | crates/storage/src/write.rs:195-218 | the body is what the reads bring up to the first that brings nothing, joined in order, and is lost if that one is a failure |
| Multipart.Uploads.InitMultipart | crates/storage/src/multipart.rs:75-103 | refused for invalid names and on a failing disk; a sidecar that cannot be written leaves the directory; on success the sidecar is there; no other file is touched |
| Multipart.Uploads.WritePartFrom | crates/storage/src/multipart.rs:108-157 | any failure up to the rename changes nothing; otherwise the part is stored whole, with its own etag, at the place the name leads to, also when the directory sync then reports an error |
| Multipart.Uploads.AbortMultipart | crates/storage/src/multipart.rs:249-256 | every file left is as it was, and only files below the place the name leads to are gone |
| Multipart.Uploads.CompleteMultipart | crates/storage/src/multipart.rs:261-331 | the whole new store and answer, each rejection in the order of the code; directories and keys are compared as paths, not as spelled |
| Multipart.AppendFile | crates/storage/src/multipart.rs:455-463 | copying buffer by buffer appends the part's bytes and counts them |
| Multipart.AssembleParts | crates/storage/src/multipart.rs:406-477 | the loop over the parts yields the assembled bytes, size and composite etag, or the first bad part's error |
| Multipart.MissingPartIsAttributeError | crates/storage/src/multipart.rs:420-426 | when the first bad part of a list was never uploaded, completion answers with an attribute error |
| UploadHistory.StoredPartsAreLatest | crates/storage/src/multipart.rs:108-157 | after any run of calls, under any spellings of the upload names, the directory of an upload holds exactly the last body accepted for each part, under that body's tag, and the metadata it was initiated with |
| UploadHistory.PartAcceptedExactly | crates/storage/src/multipart.rs:108-157 | a part is accepted exactly for a number in range and an open upload, whether or not it was sent before; each refusal has its error |
| UploadHistory.ListingShowsParts | crates/storage/src/multipart.rs:159-198 | a listing shows exactly the parts sent, each under its number with its body's tag |
| UploadHistory.AssembleIsConcatenation | crates/storage/src/multipart.rs:418-464 | assembly succeeds exactly when every listed part was last sent as a body with the listed tag, and joins those bodies and their raw digests |
| UploadHistory.CompletePublishesConcatenation | crates/storage/src/multipart.rs:261-331 | for every run of calls: when completion is accepted, that a refusal changes nothing, and that the object at the bucket and key of the initiating call has the joined bytes, the composite tag and that call's own metadata; nothing else changes |
| UploadHistory.CompletionErrors | crates/storage/src/multipart.rs:266-293 | the error of a refused completion is that of the first check that fails |
| UploadHistory.FirstBadPart | crates/storage/src/multipart.rs:418-440 | a list is refused for its first bad part: an attribute error if it was never sent, else an invalid part |
| UploadHistory.AcceptedListsUsePartsOnce | crates/storage/src/multipart.rs:273-282 | an accepted list never uses a part twice |
| UploadHistory.LifecycleEnds | crates/storage/src/multipart.rs:249-331 | after a cleaned completion or an abort an upload yields not-found for ever under every spelling of its name, and abort stays idempotent; a spelling through a file is an I/O error |
| UploadHistory.WhatEnds | crates/storage/src/multipart.rs:249-256 | an abort ends exactly an open upload, a completion exactly when it is accepted and its clean-up works |
| UploadHistory.BegunExactly | crates/storage/src/multipart.rs:75-103 | an upload is begun exactly for a valid bucket and key where its directory can be made, and then its sidecar holds the metadata |
| MultipartRuns.StepInside | crates/storage/src/multipart.rs:108-331 | each call changes the files and directories of uploads only as its outcome says |
| AstrayNames.AbortSparesExactly | crates/storage/src/multipart.rs:249-256 | an abort leaves every object and every other upload alone, in every store, exactly when its name leads neither above the uploads nor into another one nor into a bucket |
| AstrayNames.BucketAborted | crates/storage/src/multipart.rs:249-256 | the abort of double dots and a bucket's name takes all objects of the bucket and reports success |
| AstrayNames.WriteSparesExactly | crates/storage/src/multipart.rs:60-71 | a part upload leaves them alone exactly when the path of its part is none of theirs, or the name passes through that path as a directory |
| AstrayNames.UploadPlacesAreSafe | crates/storage/src/multipart.rs:60-71 | aborting any name that leads to the directory of an upload is safe |
| UploadPlaces.PlainPlace | crates/storage/src/multipart.rs:60-71 | a name of one ordinary piece, as every fresh one is, leads to a directory of its own |
| UploadPlaces.DotSpelling | crates/storage/src/multipart.rs:60-71 | the name with a leading dot and slash leads to the same directory |
| UploadPlaces.ParentSpelling | crates/storage/src/multipart.rs:60-71 | a name with leading double dots leads beside the multipart directory |
| UploadPlaces.AbsoluteSpelling | crates/storage/src/multipart.rs:60-71 | an absolute name leads out of the data directory |
| Decimal.ParseU64OfDecimal | crates/server/src/routes/objects.rs:696-715 | printing and parsing a number are inverse exactly below 2^64 |
| ByteStrings.NothingBetween | crates/index/src/lib.rs:90-100 | no byte string lies between a cursor and the cursor followed by a zero byte |
| ListingIndex.BumpIsPrefixBound | crates/index/src/lib.rs:246-261 | increment with carry over 0xFF bytes is the exact upper bound of all strings with a prefix |
| ListingIndex.RangeIsPrefix | crates/index/src/lib.rs:241-263 | a byte string lies between the scan bounds exactly when it starts with the encoded prefix |
| ListingIndex.HiBound | crates/index/src/lib.rs:241-263 | the loop ends, never empties the vector and meets that bound |
| ListingIndex.CursorUnderPrefix | crates/index/src/lib.rs:79-98 | for a cursor under the prefix the range selects the keys under the prefix after the cursor |
| ListingIndex.RangeListsMatching | crates/index/src/lib.rs:103-122 | the range form lists in order exactly what filtering every entry of the index selects |
| ListingIndex.PageIsUnique | crates/index/src/lib.rs:83-125 | the description of a page determines it |
| ListingIndex.DecodeEncode | crates/index/src/lib.rs:165-179 | splitting an entry at its first zero byte recovers bucket and key |
| ListingIndex.Index.Insert | crates/index/src/lib.rs:66-68 | exactly one entry is added and the order kept |
| ListingIndex.Index.Delete | crates/index/src/lib.rs:70-72 | exactly one entry is removed and the order kept |
| ListingIndex.Index.Scan | crates/index/src/lib.rs:83-125 | the first `limit` matching keys in ascending order, whatever entries are skipped on the way |
| ListingIndex.Index.WalkBucket | crates/index/src/lib.rs:198-234 | the walk ends on every tree and inserts and counts exactly the files that were missing |
| ListingIndex.Index.InsertWalked | crates/index/src/lib.rs:136-157 | the first pass adds the files of all buckets; the count is the size of the set difference |
| ListingIndex.Index.RemoveStale | crates/index/src/lib.rs:161-188 | the second pass removes and counts exactly the decodable entries whose path is gone |
| ListingIndex.Index.Reconcile | crates/index/src/lib.rs:129-196 | both passes together: the resulting index and both counts as exact set differences |
| FileTree.JoinInjective | crates/index/src/lib.rs:218-222 | distinct paths have distinct slash-joined keys |
| FileTree.WalkFindsExactlyTheFiles | crates/index/src/lib.rs:211-231 | a path's key is reported exactly when the path leads to a file, on every finite tree |
| Reconcile.WalkedIsFiles | crates/index/src/lib.rs:136-157 | the entries walked are exactly those that name a file in a bucket |
| Reconcile.OldEntrySurvives | crates/index/src/lib.rs:180-182 | an old entry is kept exactly when its path is a file or a directory |
| Reconcile.ReconcileRestoresAgreement | crates/index/src/lib.rs:129-196 | from any canonical index the result is the file set plus the old entries that name directories; agreement is full exactly when there are none |
| Reconcile.ReconcileIsIdempotent | crates/index/src/lib.rs:129-196 | a second run changes nothing and would report zeros |
| Paging.ListPage | crates/server/src/lib.rs:82-138 | one page: the live keys of the scan in order with their info, the first head that failed, and the last key scanned as the cursor exactly when the scan filled a nonzero limit |
| Paging.NothingSkipped | crates/server/src/lib.rs:98-109 | a key indexed during every page so far has been read or still lies after the cursor |
| Paging.PagesAscending | crates/server/src/lib.rs:82-138 | listed keys strictly ascend over whole runs, whatever happens between pages |
| Paging.PagesSound | crates/server/src/lib.rs:115-127 | only keys indexed under the prefix and alive when their page was read are listed |
| Paging.PagesComplete | crates/server/src/lib.rs:82-138 | every key that stayed indexed and alive for a complete run is listed |
| Paging.RunsEnd | crates/server/src/lib.rs:105-109 | on an unchanging store paging cannot go on for ever |
| Paging.RunCompletes | crates/server/src/lib.rs:98-137 | there every run of pages can be followed to a page without a cursor |
| Paging.StaticPagesListLiveKeys | crates/server/src/lib.rs:82-138 | on an unchanging store the concatenated pages are the sorted live keys under the prefix |
| Paging.StaticPageCount | crates/server/src/lib.rs:98-109 | and there are exactly floor(n / limit) + 1 pages |
| Delimiter.FindIs | crates/server/src/s3/handler.rs:873-874 | the search finds the first occurrence, and none only when there is none |
| Delimiter.Collapse | crates/server/src/s3/handler.rs:849-895 | the loop yields the contents in order and the sorted set of common prefixes |
| Delimiter.GroupUnique | crates/server/src/s3/handler.rs:873-877 | a key under another key's common prefix has that very common prefix |
| Delimiter.RollUpExact | crates/server/src/s3/handler.rs:849-895 | a key is in the contents exactly when no delimiter follows the prefix, and otherwise under exactly one common prefix |
| Delimiter.GroupsSound | crates/server/src/s3/handler.rs:873-877 | every common prefix extends the prefix and covers a listed key |
| Delimiter.RollUpPageByPage | crates/server/src/s3/handler.rs:849-895 | rolling up page by page equals rolling up the whole listing |
| SyncGroup.Flush | crates/storage/src/sync.rs:107-118 | each caller of a batch gets the result of its own file |
| SyncGroup.WindowsFlatten | crates/storage/src/sync.rs:90-105 | the windows hold every arrival once, in order |
| SyncGroup.DeadlineCloses | crates/storage/src/sync.rs:90-105 | a deadline that elapses closes the window before it |
| SyncGroup.NoDeadlineNoCut | crates/storage/src/sync.rs:90-105 | requests with no deadline between them share a window |
| SyncGroup.Run | crates/storage/src/sync.rs:90-105 | for every pattern of arrivals and deadlines up to channel close: requests are flushed in order, none lost or repeated, each answered with its own result |
| RangeHeader.ParseEncodeAgree | crates/server/src/routes/objects.rs:679-720 | the printed range parses to exactly the bytes it selects, and is refused exactly when it selects none or a bound exceeds 64 bits |
| RangeHeader.BoundTexts | sdk/ts/src/client.ts:514-520 | a printed range is two decimal texts joined by one dash |
| RangeHeader.WindowInside | crates/server/src/routes/objects.rs:728-733 | for any header text the window lies inside the object and is not empty |
| RangeHeader.ServedExactly | crates/server/src/routes/objects.rs:728-733 | without a header all bytes are served; with one exactly those from the parsed first to the parsed last position |
| RangeHeader.WrittenIsAnswered | crates/server/src/routes/objects.rs:679-720 | with blanks, plus signs and leading zeros, or bounds left out, a header is answered like the printed range it asks for |
| RangeHeader.AcceptedIsWritten | crates/server/src/routes/objects.rs:679-720 | and no header text of any other form is accepted |
| RangeHeader.TileServed | crates/server/src/routes/objects.rs:679-733 | a range inside the object is served as exactly its bytes |
| RangeHeader.DownloadRebuilds | crates/server/src/routes/objects.rs:679-733 | adjacent ranges that tile the object rebuild its bytes |
| BucketAccess.Buckets.CreateBucket | crates/storage/src/bucket.rs:9-22 | attribute and cache change together, and the answer is that of a store without cache |
| BucketAccess.Buckets.UpdateBucket | crates/storage/src/bucket.rs:103-114 | the same for an update, also when the attribute cannot be written |
| BucketAccess.Buckets.DeleteBucket | crates/storage/src/bucket.rs:26-43 | the same for a delete |
| BucketAccess.Buckets.ResolveAccess | crates/storage/src/read.rs:213-232 | a hit and a miss both answer what the attribute says; errors are not cached |
| BucketHistory.RunCached | crates/storage/src/read.rs:213-232 | over every sequence of bucket calls, reads and restarts, with the cache, each answer is the one that the earlier calls call for: a bucket that was never given a level is private, else it has the level last given |
| CacheRaces.CachedLevelRightExactly | crates/storage/src/read.rs:222-230 | in every interleaving, at every moment, a cached level is right exactly when no attribute write on the bucket came after the access it stems from, or the last one set that level |
| CacheRaces.CacheRightExactly | crates/storage/src/read.rs:222-230 | in every interleaving, at every moment, the whole cache is right exactly when no entry has been overtaken by a write of another level |
| CacheRaces.QuietCacheAgrees | crates/storage/src/bucket.rs:103-114 | whenever no call runs the whole cache is right, if no attribute write on a bucket fell between the access and the cache write of another call |
| CacheRaces.StaleFill | crates/storage/src/read.rs:222-230 | a run in which a read that overlaps an update leaves the old level cached for good |
| CacheRaces.StaleInsert | crates/storage/src/bucket.rs:103-114 | a run in which two overlapping updates leave the cache with the level that lost |
| IndexAgreement.StepKeepsInv | crates/server/src/routes/objects.rs:371-458 | each effect, failure, lock file, crash or restart of a run with canonical keys, no overlap on a key, no directory move, completions under their own keys and no upload name that leads into the bucket keeps the agreement of all settled keys |
| IndexAgreement.SettledKeysAgree | crates/server/src/routes/objects.rs:371-458 | in every such run, lock files aside, a settled key that no handler is working on is indexed exactly when its file exists |
| IndexAgreement.MoveNeverHidesTheObject | crates/server/src/routes/objects.rs:437-458 | at every intermediate step of a move the object's current path is in the index |
| IndexAgreement.SmoothRunsStaySettled | crates/server/src/routes/objects.rs:176-191 | without failures half-way, lock files aside, every key outside a running handler agrees at all times of such a run |
| IndexAgreement.CrashThenRestart | crates/index/src/lib.rs:129-196 | a crash anywhere followed by reconcile restores full agreement, lock files included, exactly when no entry leads to a directory, out of the bucket, or to a file spelled differently |
| IndexAgreement.RestartIsReconcile | crates/index/src/lib.rs:129-196 | on every path of the bucket the restart step is what reconcile does |
| HandlerEffects.PutKeepsAgreementExactly | crates/server/src/routes/objects.rs:176-191 | a PUT keeps agreement exactly when it is refused or its key is spelled as the path it leads to |
| HandlerEffects.PutDoes | crates/server/src/routes/objects.rs:176-191 | a PUT that runs alone leaves the file at the path of its key and the entry under the key, or is refused for a key that cannot be placed |
| HandlerEffects.DeleteDoes | crates/server/src/routes/objects.rs:379-399 | a DELETE that runs alone leaves neither, or is refused |
| HandlerEffects.ProperMoveWorks | crates/server/src/routes/objects.rs:437-458 | a PATCH of an object to another canonical key with a free path moves file and entry |
| HandlerEffects.CompleteKeepsAgreementExactly | crates/server/src/s3/handler.rs:606-657 | a completion keeps agreement exactly when its object cannot be placed, its request names the path the object is placed at, or the keys concerned had objects before |
| HandlerEffects.CompletedUnderAnotherKey | crates/storage/src/multipart.rs:284-317 | a run without failure or overlap after which the object is there and not listed, and the key of the request is listed and not there |
| HandlerEffects.DeleteKeepsAgreementExactly | crates/server/src/routes/objects.rs:379-399 | the same for DELETE, or when there is no file |
| HandlerEffects.PatchKeepsAgreementExactly | crates/server/src/routes/objects.rs:437-458 | exactly when a whole PATCH of a file, of a directory or of nothing leaves index and files in agreement |
| HandlerEffects.AloneIsRun | crates/server/src/routes/objects.rs:371-458 | a handler on its own is a run of the machine, and one that the theorems on runs speak of if its keys are canonical, it moves no directory and completes under its own key |
| HandlerEffects.DirectoryPatchLosesFiles | crates/storage/src/read.rs:176-205 | after a PATCH of a directory each file below it is indexed where it was and not where it is |
| HandlerEffects.AliasOutlivesItsFile | crates/storage/src/write.rs:304-313 | an entry spelled unlike its path outlives the file when that is deleted under its own name |
| HandlerEffects.DoubleSlashIsAlias | crates/storage/src/write.rs:304-313 | a key with a double slash leads to the path with a single one |
| HandlerEffects.LockFileStays | crates/storage/src/write.rs:230-266 | a PUT that fails after opening its lock file leaves it behind, unindexed |
| Overlaps.OverlapAgreesExactly | crates/server/src/routes/objects.rs:371-458 | any two of PUT, completion, DELETE and PATCH of an object that overlap, in any order of their effects: a key ends in agreement exactly when they want the same of it or the order of their file effects is that of their index effects |
| Overlaps.PutDeleteOverlap | crates/server/src/routes/objects.rs:371-400 | a PUT and a DELETE of a key can overlap in every order, and agree exactly when neither runs between the two effects of the other |
| Overlaps.UploadDuringPatchIsHidden | crates/server/src/routes/objects.rs:437-458 | a run in which an object uploaded to the old key during a PATCH is there and not listed |
| KeyPaths.PathResolves | crates/index/src/lib.rs:218-222 | a path below a bucket is its own key |
| KeyPaths.ResolveIdempotent | crates/storage/src/write.rs:185-187 | the path a key leads to leads to itself |
| KeyPaths.AcceptedExactly | crates/storage/src/write.rs:304-313 | a key is accepted exactly when it is not empty nor absolute and every piece is a name, empty or a single dot |
| ObjectAttrs.AttributesRoundTrip | crates/storage/src/xattr.rs:33-113 | reading gives back what was written exactly when no older attribute was left over and, by handle, the etag is not empty |
| ObjectAttrs.ReadExactly | crates/storage/src/xattr.rs:55-113 | attributes are read exactly when each is missing or well formed, with these defaults for missing ones |
| ObjectAttrs.AttrFile.SetObject | crates/storage/src/xattr.rs:33-53 | after the one-by-one writes, reading the file gives the metadata back exactly when it carried no leftovers, so always on a fresh file |

## Left out

- CommitSafety.VisibleObjectsAreComplete: excludes `.lock` keys, copies disturbed by an overwrite or with a skipped sync, and assemblies whose parts are replaced by others in between; `CommitLimits` gives failing runs or the exact conditions.
- CompareAndSwap.AtMostOneSwap: on the key itself only If-Match writers; unconditional writes, moves and deletes never take the lock and may intervene at any time. A key stands for the path it resolves to and a move for a rename of that one name: a rename of a directory above the key, which takes the key away, is a step of the handlers' model only.
- SharedExpectation.PoliteSwapsMatch: one way only; `CommitLimits.TwoWinners` shows why expectations must be shared.
- CommitSafety.PublishedOnlyAfterSync: data only; whether a directory entry or an attribute survives a crash is not modelled. Copies may skip their sync.
- Paging.StaticPageCount: the order of the 64 concurrent head requests is the key order in which their results are collected.
- ListingIndex.Index.Scan: a cursor that lies beyond the upper bound, which the interface forbids, gives an empty range.
- Reconcile.ReconcileRestoresAgreement: speaks of entries under canonical keys; symbolic links and bucket names that are not valid are left out, and read errors during the walk end the call.
- RangeHeader.ParseEncodeAgree: JavaScript numbers above 2^53 print inexactly; the printer is modelled on exact integers. Only blanks and tabs are trimmed.
- UploadHistory.CompletePublishesConcatenation: for runs whose names lead to directories of uploads (`MultipartRuns.Respects`), which all names do that the store gave out; `AstrayNames` shows what others do. Calls do not overlap and an upload directory is removed whole or not at all; overlapping calls are in the commit machine. A directory sync that fails after the final rename, which reports an error for a published object, is there too.
- UploadHistory.LifecycleEnds: that a fresh name is never one given out before is the hypothesis that an ended upload's directory is not initiated again.
- ObjectAttrs.ReadExactly: attribute values are texts; bytes that are not UTF-8, which the code refuses, are left out.
- UploadPlaces.PlainPlace: symbolic links and names with a NUL, which the system calls refuse, are not modelled.
- Overlaps.OverlapAgreesExactly: for calls that take all their effects under proper keys; a call that fails half-way leaves its keys unsettled in `IndexAgreement`.
- BucketHistory.RunCached: calls do not overlap; `CacheRaces` covers those that do. A poisoned lock, which the source ignores, does not occur.
- SyncGroup.Run: the channel's capacity and the broken-pipe errors of a batcher that is gone.
- In the commit machine a part or an abort may reach any path, and the existence of an upload's directory is not tracked: a part may be published after its upload was dropped, which the code turns into a failing rename. An assembly whose upload name leads into a bucket, where objects serve as parts, is in `Multipart` only. Parts are copied into an assembly in one step, which their never changing allows.
- Object sizes and offsets are natural numbers; the 64-bit limit appears where it is reachable, in the range parser.
- In the commit protocol an object's attributes are its etag; content type, access and user metadata travel with it and are covered by `ObjectAttrs`. `update_object_access` rewrites only the access attribute of a visible file.
- `head_object` reads size and attributes by path without a handle; a page sees its outcome as given.
- The retry loop that grows the buffer of `fgetxattr`.
- `list_parts` and `list_multipart_uploads`: directory scans with a filter and a sort. Age cut-offs of both garbage collectors: a sweep or an abort may happen at any time.
- The If-None-Match check used outside Linux.
- File and directory name clashes other than in reconcile and the handlers: they appear as failed calls.
- HTTP routing, S3 protocol mapping, read preconditions, authentication, TLS, metrics, configuration, command line, handoff between processes, and the TypeScript client apart from its range printer.
