# Subgen release and operations: a verified model

This project models the parts of Subgen whose correctness depends on what happens between steps: crashes, lost
replies, other processes, other publishers. Everything is proved for all inputs, all interleavings and all crash
points of the model; a crash, a failing call or a foreign change is an arbitrary script that the code runs against.

| module | models |
|---|---|
| `Outcomes`, `Checkpoints` | results of steps; the publication checkpoint and the rules by which receipts follow one another |
| `ReceiptJournal` | the crash-safe receipt journal: a directory of names, inodes and link counts, one durable change per step |
| `Remotes`, `Publication`, `Publisher` | the remote's semantics, the invariant between remote and last receipt, and the restartable publisher |
| `MutualExclusion` | two publishers in any interleaving |
| `Replay` | the publisher's receipts stored through the file journal |
| `RegistryGraph`, `Integrity` | the sealed image graph and what a published version can reach |
| `Quarantine` | deleting one exact file generation, resumable by its token |
| `DeletionAuthority` | when the failure monitor may call that deletion |
| `MarkerReader` | the cached reader of the marker registry |
| `DedupQueue` | the deduplicating priority queue at the granularity of its locks |
| `PriorityEvaluator` | Frigate pressure decisions as a function of the history |
| `Streams`, `HttpFraming`, `LogSplitter` | the HTTP/1.1 response parser and the bounded log splitter |
| `Timestamps` | the decoder's timestamp floor and mask |

Conventions of the model:

- Hashes, object ids and canonical JSON are injective: a digest is a constructor applied to what it digests, and the
  journal's codec is any set of functions with a round trip (`Codec.Canonical`).
- A class with a `script` (or, in the journal, `power` and `torn`) runs against an arbitrary sequence of foreign
  changes, failures and deaths, one entry per request, system call or durable write. An empty script means that
  everything works from here on and nobody interferes.
- Methods that end in `Done`, `Blocked` or `Crashed` mirror a normal return, a raised error, and a dead process.
- Floating-point telemetry is modelled over `real`. Bytes are characters with the same code.

Four promises turn out to hold only under a condition. Each comes with a run in which it fails and with the condition
under which it holds, in both directions:

- The publisher converges except in the window between arming `latest` and its effect. `Publisher.Task12Publisher.Publish`
  ends complete if and only if it did not start in that window (`LatestInDoubt`), which a caller can read off the last
  receipt and the remote. `Publisher.LatestStaysInDoubt` is a run that ends there.
- The journal accepts checkpoints whose receipts its own decoder refuses, because only the transition is checked before
  a receipt is published. `ReceiptJournal.SpoiledJournal` is such a run: two appends succeed and no load ever does again.
  `ReceiptJournal.FileReceiptJournal.AppendThenLoad` shows that after an accepted append the load succeeds if and only if
  the checkpoint's probes satisfy the schema. The publisher only ever records such checkpoints.
- A quarantine delete can report success with the file still under its name: when a restore puts the file back but cannot
  drop the quarantine link, the next run drops only that link. `Quarantine.RestoredFileReportedDeleted` is such a run.
  `Quarantine.SecureDelete.SecureUnlink` shows that a successful run destroyed the file if and only if it did not find
  such a leftover, and that where no call fails success always means destroyed, whatever other processes do.
- The marker reader may answer from an old version: when a stat of the registry fails, a load in between succeeds and the
  stat fails again in the same way, the document is cached under the error, and the same error later serves it again.
  `MarkerReader.OldMarkerServedUnderStatError` is such a run; `MarkerReader.FailureMarkerReader.Check` is sound in every
  call whose first stat does not repeat the cached error, and answers from the cache in every call whose first stat does.

## Model

| member | source | states |
|---|---|---|
| `Checkpoints.RunAdvances` | release_tools/journal.py:454-587 | any two receipts of an accepted run, however far apart, have monotone lock flags, prefix-ordered completed writes, non-decreasing probe rungs and unchanged once-set values |
| `ReceiptJournal.ChainIsAcceptedRun` | release_tools/journal.py:652-687 | a digest chain that loads is a run in which every checkpoint was accepted after its predecessors |
| `ReceiptJournal.SealedFollows` | release_tools/journal.py:690-706 | a checkpoint is accepted if and only if its receipt can be chained |
| `ReceiptJournal.HeadPinsChain` | release_tools/journal.py:634-687 | two chains anchored by one head are the same chain, receipt by receipt |
| `ReceiptJournal.IllFormedIsAccepted` | release_tools/journal.py:454-475 | after every first receipt the transition check accepts some checkpoint that the decoder refuses |
| `ReceiptJournal.ReadExactlyWellFormed` | release_tools/journal.py:1210-1374 | a receipt, and a transaction that holds it, is read back if its probes satisfy the schema and is not read at all otherwise |
| `ReceiptJournal.FileReceiptJournal.constructor` | release_tools/journal.py:47-54 | an empty directory is a valid, empty journal |
| `ReceiptJournal.FileReceiptJournal.WriteStaged` | release_tools/journal.py:712-763 | a staged write leaves nothing, a prefix, or the whole payload under the staged name, and no other name changes |
| `ReceiptJournal.FileReceiptJournal.CompleteLinkPublication` | release_tools/journal.py:775-805 | a publication whose two names share an inode is completed by dropping the staged name; two different files under them are refused and left alone |
| `ReceiptJournal.FileReceiptJournal.PublishStagedNoReplace` | release_tools/journal.py:807-832 | publication never replaces an existing target and stays within its slot at every crash point |
| `ReceiptJournal.FileReceiptJournal.EnsureTransactionBoundFile` | release_tools/journal.py:855-927 | from any partial state of the slot the target ends with exactly the bound bytes; repeating it changes nothing else; bytes that are not a part of them are refused and left as they are |
| `ReceiptJournal.FileReceiptJournal.ReadHead` | release_tools/journal.py:623-631 | the head read is the head on disk, refused when aliased or malformed |
| `ReceiptJournal.FileReceiptJournal.ReceiptPaths` | release_tools/journal.py:351-367 | the count returned is right if and only if the receipt names are contiguous from one |
| `ReceiptJournal.FileReceiptJournal.LoadRecordChain` | release_tools/journal.py:652-687 | what loads is a chain whose bytes are the files' bytes; a readable stored chain always loads |
| `ReceiptJournal.FileReceiptJournal.InstallHead` | release_tools/journal.py:929-964 | the next head is staged, linked and renamed over the old one; every crash point is one of the append's states |
| `ReceiptJournal.FileReceiptJournal.RecoverTransactionStaging` | release_tools/journal.py:966-984 | an unlinked staged transaction is removed, a linked one keeps only its final name, the receipts stay |
| `ReceiptJournal.FileReceiptJournal.PublishTransaction` | release_tools/journal.py:986-1012 | the append is committed exactly when the transaction's final name appears |
| `ReceiptJournal.FileReceiptJournal.ClearTransaction` | release_tools/journal.py:1014-1025 | clearing the transaction leaves the extended log at rest |
| `ReceiptJournal.FileReceiptJournal.FinishTransaction` | release_tools/journal.py:1115-1138 | from any stage of a committed append the receipt, the head and the clearing follow; a crash keeps it committed |
| `ReceiptJournal.FileReceiptJournal.VerifyTransaction` | release_tools/journal.py:1044-1114 | the checks of a recovery never refuse a state that a crash can leave |
| `ReceiptJournal.FileReceiptJournal.CheckTransactionHeads` | release_tools/journal.py:1060-1097 | on an arbitrary directory: passes only a transaction that fits together, over one of its two heads on disk and no other staged receipt, and passes every one that is under way |
| `ReceiptJournal.FileReceiptJournal.CheckPriorLog` | release_tools/journal.py:1104-1113 | on an arbitrary directory: passes only if the receipts before the transaction are a stored chain anchored by its previous head that accepts its checkpoint, and passes every one that is under way |
| `ReceiptJournal.FileReceiptJournal.RecoverTransaction` | release_tools/journal.py:1027-1138 | recovery refuses exactly a pending receipt that cannot be decoded, never changes what the directory stands for, and is the identity when there is nothing to recover |
| `ReceiptJournal.FileReceiptJournal.LoadAnchored` | release_tools/journal.py:634-687 | on an arbitrary directory: a log that loads is the one chain its head anchors; a log at rest loads if and only if all of it can be decoded |
| `ReceiptJournal.FileReceiptJournal.LoadAll` | release_tools/journal.py:1140-1145 | after any crash the load returns exactly the durable receipts if all can be decoded, and never succeeds otherwise; loading again changes nothing |
| `ReceiptJournal.FileReceiptJournal.Append` | release_tools/journal.py:1147-1192 | for any checkpoint: done only if the log loads and the transition is accepted, then old receipts plus the sealed new one; a crash leaves the old receipts or all of the new, and does not happen with power for 29 changes |
| `ReceiptJournal.FileReceiptJournal.AppendThenLoad` | release_tools/journal.py:1147-1200 | after an accepted append of any checkpoint the next load succeeds if and only if the checkpoint is well formed |
| `ReceiptJournal.SpoiledJournal` | release_tools/journal.py:1147-1200 | a journal that accepts two appends and then refuses to load |
| `ReceiptJournal.FileReceiptJournal.RunSessions` | release_tools/journal.py:1027-1192 | any sequence of appends of any checkpoints and of loads, each cut off anywhere, is a history of atomic effects; while it can be read it is an accepted run |
| `ReceiptJournal.HistoryOnlyGrows` | release_tools/journal.py:1147-1192 | no history loses or rewrites a durable receipt |
| `ReceiptJournal.WellFormedHistoryReads` | release_tools/journal.py:1147-1192 | a history of well-formed checkpoints can be read at every point |
| `ReceiptJournal.SpoiledForGood` | release_tools/journal.py:1147-1192 | from the first receipt that cannot be decoded on, no session succeeds and nothing changes |
| `Remotes.LockChanges` | release_tools/adapters.py:882-913 | the lock ref is created only where there is none and removed only by its exact owner; no other write moves it |
| `Remotes.LatestPutReplacesOnlyPrior` | release_tools/adapters.py:1255-1283 | whatever others write between the read and the PUT, the PUT replaces exactly the prior digest that was read or changes nothing |
| `Remotes.LatestPutUndisturbed` | release_tools/adapters.py:1255-1283 | without interference the read and the PUT are one compare-and-set |
| `Publication.PublicationIsOrdered` | release_tools/task12.py:1704-1853 | `latest` moved implies release and smoke, implies version tag and verified create probe, implies the whole graph, tag and main; lock gone implies final |
| `Publication.StageLawful` | release_tools/task12.py:1329-1576 | every stage the probe runners record passes the journal's probe-transition check |
| `Publication.VersionSeedIsSafe` | release_tools/task12.py:1354-1368 | seeding the create probe is answered 201 and is recoverable whether or not it took effect |
| `Publication.LatestCasIsSafe` | release_tools/task12.py:1487-1514 | the conditional swap of the probe wins from the recorded prior tag and is recoverable either way |
| `Publication.LatestStaleIsSafe` | release_tools/task12.py:1548-1562 | the stale swap is answered 412 and changes nothing |
| `Publication.VersionCreateIsSafe` | release_tools/task12.py:1785-1791 | the conditional create leaves the version at the image and keeps the ladder |
| `Publication.LatestUpdateIsSafe` | release_tools/task12.py:1839-1851 | the armed update moves `latest` from the prior digest to the image and keeps the ladder |
| `Publication.RemoveIsSafe` | release_tools/task12.py:1857-1866 | removing the lock as its owner, everything else being final, gives the final state |
| `Publication.LockStanding` | release_tools/task12.py:1616-1673 | what a recovery may find of the lock, for each kind of last receipt |
| `Publisher.Task12Publisher.constructor` | release_tools/task12.py:786-797 | nothing issued, nothing recorded |
| `Publisher.Task12Publisher.Record` | release_tools/task12.py:799-800 | the journal accepts the checkpoint; a crash leaves it appended or not |
| `Publisher.Task12Publisher.RequireLock` | release_tools/task12.py:980-991 | done only if the remote lock is this run's object at that moment; a failed request is never taken for that |
| `Publisher.Task12Publisher.UpdateLatest` | release_tools/adapters.py:1255-1283 | under arbitrary interference the two requests move `latest` from the prior digest or not at all |
| `Publisher.Task12Publisher.ArmWrite` | release_tools/task12.py:819-837 | the pending receipt is durable, the hosted runs are those of the baseline and the lock is seen to be ours before anything is sent; a check that fails is recorded as a write given up before it was sent |
| `Publisher.Task12Publisher.PublicWrite` | release_tools/task12.py:812-861 | one write under its write-ahead receipt: sent at most once, done only with the server's own answer and between two listings of the hosted runs; a block is on record as given up before sending or as ambiguous, and whatever became of the write the last receipt can recover |
| `Publisher.Task12Publisher.AdvanceMain` | release_tools/task12.py:1704-1715 | main ends at the release commit and nothing else moved |
| `Publisher.Task12Publisher.PublishTag` | release_tools/task12.py:1717-1735 | the annotated tag ends at the intended object and nothing else moved; where it was missing exactly the object and then the ref are created |
| `Publisher.Task12Publisher.UploadBlobs` | release_tools/task12.py:1737-1764 | every required blob ends present, with the lock seen to be ours before each; only content was added |
| `Publisher.Task12Publisher.PutManifests` | release_tools/task12.py:1766-1779 | every required manifest ends present, with the lock seen to be ours before each; only content was added |
| `Publisher.Task12Publisher.PrepareProbe` | release_tools/task12.py:1192-1233 | the probe's token and reference are durable before its first request |
| `Publisher.Task12Publisher.RunVersionCreateProbe` | release_tools/task12.py:1329-1422 | the create probe ends verified from any stage, with its winner in place and after a losing create that was refused; only its own reference was written |
| `Publisher.Task12Publisher.RunLatestCasProbe` | release_tools/task12.py:1424-1576 | the compare-and-set probe ends verified from any stage, with its winner in place and after a stale swap that was refused; only its own reference was written |
| `Publisher.Task12Publisher.VerifyRetainedProbe` | release_tools/task12.py:1293-1316 | done only with a verified probe whose winner the registry still shows under its entity tag, and always done then when nobody interferes |
| `Publisher.Task12Publisher.VerifyCompletionEvidence` | release_tools/task12.py:1318-1327 | done only with the smoke run and both verified probes on record, after looking at both winners again |
| `Publisher.Task12Publisher.CreateVersion` | release_tools/task12.py:1781-1794 | the version ends at the image with a verified create probe whose winner is in place; `latest` is untouched |
| `Publisher.Task12Publisher.Smoke` | release_tools/task12.py:1796-1808 | done only if the anonymous pull of this very call worked and ran the intended image; another image blocks with a smoke mismatch and records nothing |
| `Publisher.Task12Publisher.EvidenceHappened` | release_tools/task12.py:1796-1808 | in every run of any processes: smoke evidence on record means that a pull ran the intended image, a verified probe that its losing write was served, refused and changed nothing |
| `Publisher.Task12Publisher.CreateRelease` | release_tools/task12.py:1810-1821 | the release ends exact and nothing else moved |
| `Publisher.Task12Publisher.MoveLatest` | release_tools/task12.py:1823-1853 | blocks as unresolved, durably, exactly when an earlier attempt is recorded and `latest` is still prior; otherwise `latest` ends at the image, as last read |
| `Publisher.Task12Publisher.CreateLockRef` | release_tools/task12.py:1675-1702 | the lock is taken only where there was none and only counts once it is seen to be ours |
| `Publisher.Task12Publisher.RemoveLock` | release_tools/task12.py:1855-1876 | the lock is removed with all evidence recorded, and completion is recorded after the state was read without it; done only if that state is the final one |
| `Publisher.Task12Publisher.Begin` | release_tools/task12.py:1590-1614 | the first receipt precedes every write and is made only over a state read as untouched and two equal listings of the hosted runs |
| `Publisher.Task12Publisher.Resume` | release_tools/task12.py:1615-1673 | a recovery ends complete, over a state read as final, holding the lock, or with the lock still to take, and blocks for each other reading of the lock with its own reason; it changes nothing public |
| `Publisher.Task12Publisher.Publish` | release_tools/task12.py:1578-1876 | always safe; whoever else writes, done only over a state last read as final; alone and uninterrupted, from any crash point, final state and lock gone unless and only unless `latest` is in doubt |
| `Publisher.LatestStaysInDoubt` | release_tools/task12.py:1823-1850 | a process that dies right after arming `latest`, and a second, undisturbed one that blocks |
| `Publisher.Task12Publisher.RunProcesses` | release_tools/task12.py:1578-1876 | over any number of processes: an accepted run of receipts whose evidence happened, `update_latest` called at most once, the lock never retaken, every other write under the lock; alone, a process in which nothing dies never crashes and a last one that is done leaves the final state |
| `MutualExclusion.OthersRespectOurLock` | release_tools/adapters.py:891-913 | every write of one publisher is a change the other one allows for: its lock stays and entity tags are new |
| `MutualExclusion.OthersRespectInSequence` | release_tools/adapters.py:891-913 | all its writes between two of ours together amount to one permitted change |
| `MutualExclusion.RelyDischarged` | release_tools/task12.py:812-861 | what one of two publishers with different run tokens does is exactly what the other one's proof relies on |
| `MutualExclusion.PublishersAreDisciplined` | release_tools/task12.py:812-861 | every publisher's served writes over all its runs are lawful, guarded and never retake the lock |
| `MutualExclusion.TokensSeparateLocks` | release_tools/task12.py:864-884 | different run tokens give different lock objects |
| `MutualExclusion.LostByRemoval` | release_tools/adapters.py:1285-1294 | a lock that was held and no longer is was removed by its owner in between |
| `MutualExclusion.GainedByCreation` | release_tools/adapters.py:882-892 | a lock that was not held and now is was created by its owner in between |
| `MutualExclusion.SpansDisjoint` | release_tools/task12.py:812-861 | in any interleaving of two disciplined histories over one lock, no non-lock write of one falls between two of the other |
| `MutualExclusion.PublishersExcludeEachOther` | release_tools/task12.py:812-861 | mutual exclusion of two publishers: over all their processes, crashes and recoveries, no non-lock write of one falls between two of the other |
| `Replay.StoreRun` | release_tools/journal.py:1147-1192 | an accepted run is stored receipt by receipt without a refusal; a crash leaves a prefix to go on from |
| `Replay.StorePublication` | release_tools/task12.py:799-800 | the file journal never rejects its own writer, in any run, recovery or crash of the publisher |
| `RegistryGraph.RequiredIsReachable` | release_tools/task12.py:381-518 | in an accepted graph the uploads are exactly what is reachable from the index |
| `RegistryGraph.ByDigest` | release_tools/task12.py:384-395 | a list is indexed if and only if its digests are distinct |
| `RegistryGraph.CheckManifests` | release_tools/task12.py:430-479 | accepts if and only if every manifest is supported and the selected ones are the image; collects exactly what they refer to |
| `RegistryGraph.ValidateGraph` | release_tools/task12.py:381-518 | accepts exactly the exact graphs |
| `RegistryGraph.ExactByFields` | release_tools/task12.py:381-518 | a graph is exact if and only if its index, manifests, layers, config and blobs agree field by field, with the media types and the platform written out |
| `Integrity.PublishedIsClosed` | release_tools/task12.py:1737-1794 | whenever the version tag is there it names the sealed index, every manifest listed there is in the registry, and so is every blob these refer to |
| `Quarantine.SecureDelete.ValidateLeaf` | subgen_ops_safety.py:297-324 | done only on a regular file with the exact identity and size |
| `Quarantine.SecureDelete.ValidateQuarantined` | subgen_ops_safety.py:327-357 | done only on the wanted generation, with at most its ctime advanced |
| `Quarantine.SecureDelete.OpenActive` | subgen_ops_safety.py:389-437 | the private directory exists and what it held is unchanged |
| `Quarantine.NothingIsOverwritten` | subgen_ops_safety.py:440-460 | a file that ever stood at the leaf name still stands there, or was removed by another process, or was moved off by a rename that is on record: no restore puts a file over another |
| `Quarantine.SecureDelete.MoveLeaf` | subgen_ops_safety.py:654-666 | whatever is at the leaf by then is held in quarantine and accounted for |
| `Quarantine.SecureDelete.Restore` | subgen_ops_safety.py:440-477 | a free name gets the file back; a taken one is left as it is, and the candidate, the sweeps and the leaf name's record with it |
| `Quarantine.SecureDelete.EnsureTombstone` | subgen_ops_safety.py:480-511 | a tombstone stands only for a candidate found to be the wanted one; each failing call ends the step with recovery required |
| `Quarantine.SecureDelete.UnlinkCandidate` | subgen_ops_safety.py:714-727 | the candidate is unlinked only as the wanted one, beside its tombstone |
| `Quarantine.SecureDelete.CompleteDelete` | subgen_ops_safety.py:514-552 | retiring the quarantine may fail anywhere without losing the record of the deletion |
| `Quarantine.SecureDelete.RecoverCompleted` | subgen_ops_safety.py:555-588 | reports the deletion only if the wanted file was swept under this token, and destroyed where no call fails |
| `Quarantine.SecureDelete.TakeFromLeaf` | subgen_ops_safety.py:647-703 | a swept file that is not the wanted one is relinked or kept; only the wanted one goes on; undisturbed, a leaf that is not the exact file is refused untouched |
| `Quarantine.SecureDelete.SecureUnlink` | subgen_ops_safety.py:591-735 | under arbitrary interference and failures only the wanted generation is destroyed, every swept file is accounted for and every change of the leaf name is on record; success means destroyed unless the run found a relinked leftover, and always where no call fails; a resumed run leaves the leaf alone; undisturbed, the outcome is decided by what was found: exact file, other file, no file, candidate, tombstone or completed directory, and success retires the quarantine |
| `Quarantine.SecureDelete.DestroyedIsExpected` | subgen_ops_safety.py:327-357 | a destroyed file was regular and had the expected device, inode, size and modification time, and at most a later change time |
| `Quarantine.SecureDelete.Runs` | subgen_ops_safety.py:591-735 | every run under one token reports itself truly: success means destroyed unless it found a leftover, and always where no call fails; a resumed run never changes the leaf name; the whole history of the leaf name is told, and no link was made where a file stood; left alone, a last undisturbed run ends with the generation gone |
| `Quarantine.RestoredFileReportedDeleted` | subgen_ops_safety.py:440-477 | a restore that fails halfway, and a second run that reports success with the wanted file still at the leaf |
| `DeletionAuthority.CountedIsCovered` | monitor_subgen_failures.py:1418-1473 | the counts of a record never exceed the proofs received for its exact identity since it began |
| `DeletionAuthority.CountedLaw` | monitor_subgen_failures.py:1418-1473 | the same open generation counts up by one, and by one proof if it is one; another or a closed one starts over |
| `DeletionAuthority.ProofIsDualRejection` | monitor_subgen_failures.py:137-165 | a generation is proved invalid by exactly one report: both parsers rejected it, with that detail |
| `DeletionAuthority.Monitor.SaveState` | monitor_subgen_failures.py:553-572 | the state file is replaced as a whole or not at all |
| `DeletionAuthority.Monitor.PersistFailureMarker` | monitor_subgen_failures.py:827-926 | success means the exact marker is durable; otherwise the record says why not; every other path keeps its marker |
| `DeletionAuthority.Monitor.DurableMarkerMatches` | monitor_subgen_failures.py:957-977 | true only if the registry now holds the exact processing-error marker with enough failures |
| `DeletionAuthority.Monitor.MarkerAllowsDelete` | monitor_subgen_failures.py:978-1012 | allows only what policy, threshold, proof and durable marker entitle, and allows it whenever they do and the registry can be read; otherwise the status names the first that failed |
| `DeletionAuthority.Monitor.TryDeletePath` | monitor_subgen_failures.py:1049-1173 | unlink is called only after the intent is durable, and is called when the deletion is due and nothing fails; the result of that call decides the record, and without a call no record turns deleted |
| `DeletionAuthority.Monitor.DeleteWithIntent` | monitor_subgen_failures.py:1126-1173 | done only after one call with the stored identity and token; unlinked and missing close the record, deferred and unexpected results keep the intent, a refusal drops it and leaves the record open |
| `DeletionAuthority.Monitor.FinishDeleteOutcome` | monitor_subgen_failures.py:1175-1200 | an intent is dropped exactly when its outcome needs no recovery |
| `DeletionAuthority.Monitor.RecordProcessingError` | monitor_subgen_failures.py:1379-1501 | a stale event changes nothing; a current one is counted exactly, leads to at most one call, for its own proven generation, and to one when it completes the threshold; done means the records are on disk |
| `DeletionAuthority.Monitor.RecordCrashCandidate` | monitor_subgen_failures.py:1731-1758 | a native crash may mark a path, as a crash, but never deletes |
| `DeletionAuthority.Monitor.MigrateFailureIdentities` | monitor_subgen_failures.py:604-642 | migration keeps every intent and every coverage |
| `DeletionAuthority.Monitor.RecoverIntent` | monitor_subgen_failures.py:1219-1341 | a durable intent is resumed only with policy, proof and exact marker standing, and then by exactly one call with its identity and token, whose result decides the record; without a call the intent stays |
| `DeletionAuthority.Monitor.ResumeIntent` | monitor_subgen_failures.py:1290-1333 | only a call that unlinked the file or found it gone turns the record deleted; refused, deferred or unexpected, the intent stays |
| `DeletionAuthority.Monitor.RecoverDeleteIntents` | monitor_subgen_failures.py:1212-1341 | every path is resumed by exactly one call under its intent, or not at all and keeps it; where no call fails every intent that stands is resumed |
| `DeletionAuthority.Monitor.Restart` | monitor_subgen_failures.py:402-545 | a new process starts from what is durable and resumes every intent that stands by exactly one call; with a malformed file it keeps the good records and with an unreadable one nothing, and in both cases calls no deletion |
| `DeletionAuthority.Monitor.Run` | monitor_subgen_failures.py:1212-1501 | over any events, crashes and restarts every call of unlink had the threshold of proofs for that identity since its record began, with marker and intent durable; every record that says deleted, in memory and on disk, rests on a call for that very record that unlinked the file or found it gone |
| `MarkerReader.FailureMarkerReader.Load` | subgen_failure_markers.py:228-278 | a loaded document is that of a version present during the load; it is unreadable only for a failing call, a registry replaced while it is opened, or an invalid document |
| `MarkerReader.FailureMarkerReader.Attempt` | subgen_failure_markers.py:320-344 | what is cached between two equal looks is what that version holds; a quiet attempt settles on it |
| `MarkerReader.FailureMarkerReader.Refresh` | subgen_failure_markers.py:309-349 | after a refresh the cache reflects a version of this call, or the repeated stat error it rests on, or an error; an error is cached only for a failing call, an invalid document, a registry replaced while it is opened or changed during both attempts; a quiet call caches what stands there |
| `MarkerReader.FailureMarkerReader.Check` | subgen_failure_markers.py:381-419 | every answer but unavailable is what the registry said at some moment of the call, unless the first stat repeats the cached error: then it is the cached answer; unavailable only for an error cached for this very signature or a disturbed refresh; a quiet call answers exactly from the registry as it stands; each reason is reported once |
| `MarkerReader.AnswerSays` | subgen_failure_markers.py:394-419 | matched for exactly the marked generation, stale for exactly the others of a marked path, unmarked otherwise |
| `MarkerReader.CheckAfterPersist` | subgen_failure_markers.py:381-419 | as long as later versions keep the persisted marker, the unchanged generation is matched or unavailable and a replaced one is never matched; a quiet call on a valid registry is never unavailable |
| `MarkerReader.PersistThenCheck` | monitor_subgen_failures.py:827-926 | the same starting from the persist itself, which leaves the answers for all other paths as they were; a quiet check right after it is exact |
| `MarkerReader.OldMarkerServedUnderStatError` | subgen_failure_markers.py:301-337 | a run in which an old version's marker is matched although at every moment of the call the registry holds no marker |
| `DedupQueue.Least` | subgen_core/queueing.py:93-105 | the popped entry is least by priority and then by time |
| `DedupQueue.DeduplicatedQueue.PutEnter` | subgen_core/queueing.py:89-101 | an id is admitted if and only if it is nowhere in the queue |
| `DedupQueue.DeduplicatedQueue.PutPush` | subgen_core/queueing.py:93-98 | the task is in the heap under its priority before its id is entered |
| `DedupQueue.DeduplicatedQueue.PutCommit` | subgen_core/queueing.py:99-100 | also when a worker has already popped it, the sets agree with the places once the lock is free |
| `DedupQueue.DeduplicatedQueue.GetPop` | subgen_core/queueing.py:103-105 | a language detection goes before a recognition, that before everything else, the earlier one within a kind; it goes into transit without the lock |
| `DedupQueue.DeduplicatedQueue.GetMark` | subgen_core/queueing.py:106-110 | the id moves from queued to processing |
| `DedupQueue.DeduplicatedQueue.MarkDone` | subgen_core/queueing.py:112-115 | the id, and no other, becomes free |
| `DedupQueue.DeduplicatedQueue.IsActive` | subgen_core/queueing.py:121-124 | with the lock free: true exactly for the ids in the heap, in transit or in processing |
| `DedupQueue.DeduplicatedQueue.IsIdleNow` | subgen_core/queueing.py:117-119 | true exactly when every live task is in transit |
| `DedupQueue.DeduplicatedQueue.OnePlace` | subgen_core/queueing.py:81-132 | no id is in two places and no two workers hold one id |
| `DedupQueue.LogAccepts` | subgen_core/queueing.py:89-101 | accepting an id that is not live keeps every two acceptances of one id separated by its completion |
| `DedupQueue.DeduplicatedQueue.Run` | subgen_core/queueing.py:81-132 | all of this in every interleaving of putters and workers |
| `PriorityEvaluator.Streak` | monitor_frigate_priority.py:1105-1119 | the streak is the longest run of the signal at the end of the window |
| `PriorityEvaluator.FreshMeansHighest` | monitor_frigate_priority.py:1142-1164 | a generation is new exactly when it is above all observed before; the current source is the first seen of the highest generation |
| `PriorityEvaluator.WindowOverFields` | monitor_frigate_priority.py:1142-1164 | a new generation joins the window, a repeated one leaves it, and a failure, an outage, a regressed or a mutated generation empties it |
| `PriorityEvaluator.RepeatsAdvanceNothing` | monitor_frigate_priority.py:1149-1162 | repeated polls of an unchanged generation advance no streak and change no standing decision |
| `PriorityEvaluator.DecisionsAreCoherent` | monitor_frigate_priority.py:1025-1048 | no decision is both clear-eligible and pressured; pressure always has a reason |
| `PriorityEvaluator.ThirdSkipAsserts` | monitor_frigate_priority.py:1100-1126 | small skips alone assert exactly the degraded reason from the third consecutive new generation on; before that the decision is clear |
| `PriorityEvaluator.DecisionOverFields` | monitor_frigate_priority.py:1100-1126 | on a new generation: busy if and only if the last two are at the rate limit, degraded if and only if this one alarms, the last two have a camera below 0.95 or the last three skip; clear if and only if there is no reason, the rate is below the limit and every ratio is at least 0.98 |
| `PriorityEvaluator.DecisionWithoutNews` | monitor_frigate_priority.py:1078-1088 | a poll without a new generation keeps the standing reasons and adds exactly what it showed itself |
| `PriorityEvaluator.SecondHighLoadAsserts` | monitor_frigate_priority.py:1117-1121 | high load alone asserts exactly the busy reason, from the second consecutive new generation on |
| `PriorityEvaluator.SecondSlowCameraAsserts` | monitor_frigate_priority.py:1117-1123 | a camera below 0.95 alone asserts exactly the degraded reason, from the second consecutive new generation on |
| `PriorityEvaluator.FrigatePriorityEvaluator.Failure` | monitor_frigate_priority.py:1078-1088 | the decision and the streaks after a failure are those of the history |
| `PriorityEvaluator.FrigatePriorityEvaluator.BaseDecision` | monitor_frigate_priority.py:1100-1126 | counting one new generation gives the decision recomputed from the window |
| `PriorityEvaluator.FrigatePriorityEvaluator.Observe` | monitor_frigate_priority.py:1128-1170 | for new, repeated, regressed and mutated generations alike the kept state and the decision are those of the history |
| `PriorityEvaluator.FrigatePriorityMonitor.PollOnce` | monitor_frigate_priority.py:1237-1366 | published sequence numbers count up by one over successful publications; generations never go back |
| `HttpFraming.ReadLine` | release_tools/anonymous_smoke.py:251-260 | reads exactly the next bounded line or fails |
| `HttpFraming.ReadExact` | release_tools/anonymous_smoke.py:262-272 | however the stream is cut into reads, exactly the next bytes or a failure |
| `HttpFraming.ReadHeaders` | release_tools/anonymous_smoke.py:285-307 | the loop computes the header map of the specification and stops after the empty line |
| `HttpFraming.ReadChunks` | release_tools/anonymous_smoke.py:314-331 | the loop computes the joined chunks of the specification and stops after the trailer |
| `HttpFraming.ReadResponse` | release_tools/anonymous_smoke.py:274-340 | status, body and first byte after the message are those of the specification |
| `HttpFraming.HeadersRead` | release_tools/anonymous_smoke.py:285-307 | every legal header list, with names in any case and blanks around names and values, is read back and its end found |
| `HttpFraming.ChunksRead` | release_tools/anonymous_smoke.py:314-331 | every split into non-empty chunks, with any spelling of the sizes, is read back (section 7.1 of RFC 9112) |
| `HttpFraming.RoundTrip` | release_tools/anonymous_smoke.py:274-340 | every legal message, its names spelt in any case and its sizes in any spelling, is read back as its status and body, whatever follows it |
| `HttpFraming.ReadExactlyLegal` | release_tools/anonymous_smoke.py:274-340 | a response is read off a stream if and only if the stream begins with the bytes of a legal message that says just that; legality has its own tables of letters, blanks, name characters and digits and its own limits |
| `HttpFraming.EngineResponse` | release_tools/anonymous_smoke.py:274-340 | the response of an engine with `Content-Length: 2` is read |
| `HttpFraming.BackToBack` | release_tools/anonymous_smoke.py:274-340 | messages one after the other decode independently |
| `HttpFraming.SpeltIsRead` | release_tools/anonymous_smoke.py:318-337 | the shortest decimal and hexadecimal forms of every size are read back as that size |
| `HttpFraming.SizeTextLaw` | release_tools/anonymous_smoke.py:316-320 | a chunk size is read from exactly the texts that spell it: any zeros in front, letters of any case |
| `LogSplitter.LinesCutUp` | monitor_subgen_failures.py:306-318 | the lines are the data, cut after each line feed and nowhere else |
| `LogSplitter.RecordsPerLine` | monitor_subgen_failures.py:306-318 | one record per line: dropped exactly above 64 KiB, otherwise the line without the terminators at its end |
| `LogSplitter.SkipLine` | monitor_subgen_failures.py:314-316 | exactly the rest of the overlong line is skipped |
| `LogSplitter.BoundedRecords` | monitor_subgen_failures.py:306-318 | yields what plain line splitting yields, never reading more than the limit and one byte at once |
| `Timestamps.TimestampFloor` | native/timestamp_rules.hpp:8-19 | the backward scan computes the floor of the specification |
| `Timestamps.TimestampFilter` | native/whisper_cpp_worker.cpp:116-126 | masks exactly the tokens that are not admitted and leaves every other score |
| `Timestamps.DecodedMeansOrdered` | native/timestamp_rules.hpp:8-19 | a sequence was admitted token by token if and only if every two timestamps are in order, equal only as a closing and the opening right after it |
| `Timestamps.CuesAdvance` | native/timestamp_rules.hpp:8-19 | timestamps separated by text differ strictly |
| `Timestamps.AtMostTwice` | native/timestamp_rules.hpp:8-19 | no timestamp value occurs three times |

## Left out

- ReceiptJournal: file owner and mode checks, the writer lock file, the parent directory's creation, the Windows path, and receipt numbers beyond eight digits; a directory change is durable once it is made.
- Publisher.Task12Publisher.Publish: a request is served when it is sent or never; a request delayed past its process is not modelled. Local source proofs, token formats and the second read of a refused version create are not modelled; a fast-forward from an unknown main is refused.
- Publisher.Task12Publisher.ReadState: the several requests of one read of the public state are served at one moment.
- Publisher.Task12Publisher.Resume: the checkpoint is the last receipt, so the identity checks of a checkpoint handed in from elsewhere cannot fail and are not repeated.
- Publisher.Task12Publisher.UploadBlobs: upload locations do not expire.
- Publisher.Task12Publisher.Smoke: the anonymous pull and smoke run itself is a call that works or fails and says which image ran.
- RegistryGraph.ValidateGraph: payloads are parsed and hashed outside the model; a blob or a manifest comes with what was read off it. The order of the errors is not modelled.
- Quarantine.SecureDelete.SecureUnlink: always takes an expected identity; without one the source takes the identity it sees first. A writer that keeps the swept file open and changes it in place is not modelled, nor are symbolic links on the way to the parent directory. A call that syncs a directory may fail, but a host crash that loses what was not synced is not modelled.
- DeletionAuthority.Monitor.Run: path conversion, path binding, time stamps, audit lines, crash-candidate records beyond their markers, and states of older versions or other configurations are not modelled.
- MarkerReader.FailureMarkerReader.Check: schema validation and the byte limit are part of which versions hold a valid document. After two registry changes during one refresh the cached error persists for that version; the reader then answers unavailable.
- DedupQueue.DeduplicatedQueue.PutPush: no two entries in the heap share priority and time, because the source would then compare the tasks and raise an error in the middle of a push.
- DedupQueue.DeduplicatedQueue.GetPop: the heap is a list with a least entry.
- PriorityEvaluator.FrigatePriorityMonitor.PollOnce: probing, policy loading, normalisation of the telemetry and encoding of the publication are inputs of a poll.
- HttpFraming.ReadResponse: after a failure the source discards the connection, so what is left on it is not specified.
- LogSplitter.BoundedRecords: decoding to text is not modelled; records are bytes.
- HTTP transport, git and Docker subprocesses, Vulkan and whisper calls, e-mail, web routes, argument and environment parsing: calls into code outside the repository.
- Capacity configuration, model envelopes, the transcription service itself and its result-container map: outside this model.
- Schema and regular-expression validators, language codes, audio bounds, private commands: single-branch checks.
