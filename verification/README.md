# FastDFS storage: recovery, disk I/O, path ownership and tracker access in Dafny

A model of the parts of FastDFS that keep data safe, with proofs about all of their inputs and runs.

- **Single-disk recovery** (`storage/storage_disk_recovery.c`, with the peer's side in
  `storage/storage_service.c`). A lost store path is rebuilt from a binlog that a peer prints. The line format
  is in `BinlogText` and `RecoveryLog`, the meaning of a log in `Replay`, the peer in `PeerLog`, the trunk split
  in `TrunkSplit`, the dispatch to threads in `Dispatch`. `RecoveryProtocol` is the state machine: startup,
  prepare, check, dispatch, any number of threads whose moves interleave, checkpoints, crashes at every point
  and restarts with other thread counts. `RecoverySafety` proves what holds over all its runs,
  `RecoveryCheckpoints` what a saved mark promises, `RecoveryProgress` that no crash point is a dead end,
  `InterruptedDispatch` and `RecoveryHazards` which situations lose files and exactly when. `RecoveryThread` is the
  thread's own loop.
- **Disk I/O** (`storage/storage_dio.c`). `FileWrite` (upload, append and their clean-up), `FileRead`,
  `TrunkSlot` (one upload into a slot of a trunk file) and `TrunkRuns` (all interleavings of uploads and deletions), `DioPlacement` (which thread serves a task).
- **Store-path marks** (`storage/storage_func.c`). `StorePathMark`.
- **Trackers** (`client/client_func.c`, `client/tracker_client.c`). `TrackerSet`, `RoundRobin`, `StorageDelete`.
- **Slave file names** (`common/fdfs_global.c`). `SlaveName`.

## Main results

1. *End to end.* In every run of the recovery machine, when restore has removed the flag file the store path holds
   exactly what one plain replay of the fetched log leaves, including files that a crash left half written
   (`RecoverySafety.EndToEnd`). The log and the starting point are those of an earlier completed fetch
   (`RecoverySafety.GoesBackToFetch`). Interleaving and repetition of records do not matter because a sound log is decided by the
   set of paths it restores (`Replay.ReplayRestores`), which split and dispatch keep.
2. *No dead end.* From every reachable state with a flag file some continuation completes the recovery
   (`RecoveryProgress.RecoveryCanComplete`), and every restore without faults ends: in whatever order its threads move, it
   makes a bounded number of moves and then leaves the promised files (`RecoveryProgress.FaultFreeRestoreFinishes`).
3. *Checkpoints.* In every run, each record before the reader of a log in use, and so each record before its saved mark,
   was handled on that very log and its effect applied (`RecoveryCheckpoints.RecordsBeforeAreHandled`).
4. *The fetched log.* A log that the peer prints names every node by its kind, stays in its store path and can be written
   and read back if and only if each printed record is faithful to the peer's files (`PeerLog.FetchedIsSoundIff`). The
   machine fetches such logs only.
5. *Re-dispatch.* Over any chain of thread counts with any progress in between, the records of a file stay in one log
   in their order (`Dispatch.ChainKeepsKeys`) and none is lost or doubled (`Dispatch.RedispatchConserves`).
6. *Interrupted dispatch.* If the listed logs hold records of the fetched log and their marks are record boundaries, a
   restore that reports success without a new fetch leaves the promised files if and only if nothing is missing from these
   logs. Either no mark is set back to 0 on the way because a reader did not open, or what lies before the marks is settled
   or comes again (`InterruptedDispatch.RestoresIff`).
7. *Trunk slots.* Over all interleavings of the calls of any number of uploads, copies from other servers and deletions on
   one trunk file, a completed file whose header shows keeps header and bytes until its own slot is deleted or a copy is
   written to it (`TrunkRuns.StoredFileSurvives`).
8. *Exclusion.* At most one server is in service on a store path exactly as long as none is let in, while another one is
   in service, that found no mark or had put its old mark back by a crash (`StorePathMark.ExclusiveIff`).
9. *Fairness.* While reachability does not change, as many calls as there are reachable trackers use each of them
   exactly once (`RoundRobin.FairRound`).

## Where the code does not keep a promise

Lemmas whose name ends in `Iff` give the exact condition under which the promise holds.

- A dispatch returns 0 with records missing exactly when all renames and mark writes succeed and an error or a stop
  request came before the last record: a stop sets no error, and each mark write overwrites the result
  (`Dispatch.DispatchBinlog`, `Dispatch.DispatchKeepsAllIff`, `Dispatch.StopLosesRecords`). After such a pass a restore
  keeps the promise if and only if every unread path was read or had its final content
  (`InterruptedDispatch.DispatchedRestoresIff`); a losing run is `RecoveryHazards.ShortDispatchLosesFile`.
- A dispatch to more threads that crashes between its renames and the new flag leaves a flag that lists too few logs:
  `InterruptedDispatch.StaleFlagRestoresIff`, `Dispatch.StaleFlagListsAllIff`, and the losing run
  `RecoveryHazards.StaleFlagLosesFile`. A crash or an error inside the rename loop:
  `InterruptedDispatch.InterruptedRenameRestoresIff`, with the losing run `RecoveryHazards.InterruptedRenameLosesFile`.
- A failed split removes the flag file: in every continuation on the same disk nothing is restored and startups succeed
  (`RecoveryHazards.SplitFailureSkipsRecovery`). `RecoveryHazards.FlagGoneMeans` lists all ways in which a flag vanishes.
- The peer prints a rename record of a symbolic link as a file: `PeerLog.RenamedLinkIsUnsound`.
- An append whose first chunk is written in part is not rolled back: `FileWrite.AbortedAppendIff`,
  `FileWrite.PartOfFirstChunkStays`. An upload opened on descriptor 0 is not cleaned up: `FileWrite.AbortedUploadIff`,
  `FileWrite.DescriptorZeroStays`.
- A header that is written in part can leave a slot taken without a file: `TrunkRuns.EndedIsFreeIff`,
  `TrunkRuns.TornHeaderTakesSlot`.
- A copy from another server is written to its slot without a look at the header, and so over a stored file:
  `TrunkRuns.SyncOverwrites`.
- A mark deleted by hand can let two servers run: `StorePathMark.ExclusiveIff`, `StorePathMark.DeletionLetsTwoRun`. A
  crash between the two mark writes locks servers out: `StorePathMark.CrashLocksOutIff`,
  `StorePathMark.CrashedServerIsRefused`.
- Deleting a storage server that all trackers accept still returns an error when the last one answers "already":
  `StorageDelete.LastAlreadyFails`, while the same answers in another order are a success,
  `StorageDelete.FirstAlreadySucceeds`; the exact condition for 0 is in `StorageDelete.DeleteStorage`.
- A slave file can take its master's name although the code forbids the case of an empty prefix:
  `SlaveName.TakesMastersNameIff`, `SlaveName.ExtensionAsPrefix`.

## Boundaries

- The peer's files do not change during a recovery, and the data directories exist
  (`storage/storage_func.c:1135` makes them first).
- The machine fetches only logs that name every node by its kind; `RecoverySafety.PeerLogIsPrintedIff` says exactly
  when the peer prints such a log.
- On a new disk symbolic links are found only where the peer has one (`RecoveryState.Kinds`).
- Mark and flag files are written atomically (`safeWriteToFile`). In the state machine the rename loop of a dispatch is
  one move that reads every record and, when threads are added, rewrites the flag; `InterruptedDispatch` treats the
  other endings.
- The allocator divides a trunk file into disjoint slots, gives a slot to one upload at a time and deletes none that is
  being written (`TrunkRuns.Allowed`). `TrunkRuns.SharedSlotLosesData` shows why one at a time is needed. Upload times come
  from the clock and are not zero, so the files of `TrunkRuns.OverwritableIff` do not arise from uploads.
- All servers check marks. One with `check_store_path_mark` off (`storage/storage_func.c:812-815`) bypasses them, and
  exclusion is not claimed for it.
- `thread_data` is read at `storage/storage_disk_recovery.c:1401-1408` after it was freed at line 1375; the model takes
  the values to be still there.
- Name handling (`storage_split_filename_ex`, `fdfs_is_trunk_file`, `fdfs_decode_trunk_info`, `Time33Hash`) and the CRC
  enter as arbitrary functions, so every result holds for all of them. The base64 encoding of a mark is taken to be
  injective where a lemma requires `Injective`.
- The state machine counts log offsets in line lengths given by a function; `RecoveryLog.ResumeReadsRest` ties them to
  the text format.
- The clean-ups' own `unlink`, `ftruncate` and zeroing succeed. Sockets, connections and the clock are outcomes or
  parameters of a step.

## Model

| member | source | states |
|---|---|---|
| BinlogText.LineRoundTrip | storage/storage_disk_recovery.c:1481-1519 | a printed record whose names have no newline (and, with a second name, no blank in the first) parses back to itself, in both line forms |
| BinlogText.ReadBack | storage/storage_sync.c:2516-2707 | a written log read from the end of its first records yields exactly the other records |
| RecoveryLog.RestAdvances | storage/storage_disk_recovery.c:877 | adding a record's length to the offset moves the reader to the next record |
| RecoveryLog.ResumeReadsRest | storage/storage_disk_recovery.c:556-614 | resuming the file at any saved boundary reads exactly the unread records |
| Replay.ReplayRestores | storage/storage_disk_recovery.c:747-866 | one plain replay of a sound log equals the start state with the log's paths taken from the peer, existing link names kept |
| Replay.ReplayConfluent | storage/storage_disk_recovery.c:775-866 | two sound logs with the same records in any order and number replay to the same files |
| Replay.RestoredRecord | storage/storage_disk_recovery.c:627-704 | after a replay every file record's file has the peer's content and every link record's link exists |
| PeerLog.FetchedIsSoundIff | storage/storage_service.c:4191-4362 | a printed log names each node by its kind, stays in its store path and can be written and read back, if and only if every printed record is faithful to the peer's files |
| PeerLog.RenameIsSoundIff | storage/storage_service.c:4221-4302 | a printed rename record names its node by kind exactly when the file, or the trunk file it lies in, is no symbolic link |
| PeerLog.RenamedLinkIsUnsound | storage/storage_service.c:4255-4302 | a rename record of a symbolic link with a live target is printed as a file and makes every log that holds it unsound |
| TrunkSplit.SplitTrunkBinlog | storage/storage_disk_recovery.c:1562-1672 | without error or stop the log becomes the plain records in order followed by the collected trunk records; otherwise the result is not 0 and the log is as before |
| TrunkSplit.CollectIsFirst | storage/storage_disk_recovery.c:1447-1459 | the collected records are, in ascending (path, id) order, exactly the first record of every decodable trunk file |
| TrunkSplit.SplitContents | storage/storage_disk_recovery.c:1577-1629 | the split adds nothing, keeps every plain record and one record per trunk file |
| TrunkSplit.SplitKeepsReplay | storage/storage_disk_recovery.c:1521-1672 | replaying the split log gives the same files as replaying the fetched log |
| Dispatch.DealOut | storage/storage_disk_recovery.c:1109-1150 | one log is dealt out by key hash up to its end, an error or a stop request, and which of these ends it is reported |
| Dispatch.DispatchBinlog | storage/storage_disk_recovery.c:1047-1198 | the new logs are a prefix of the unread records dealt out by key hash; 0 is returned exactly when all files open and all renames and mark writes succeed, and with records missing exactly when reading also ended early |
| Dispatch.PartsConserve | storage/storage_disk_recovery.c:1126-1143 | dealing out conserves the multiset of records |
| Dispatch.PartOfKey | storage/storage_disk_recovery.c:1126-1137 | all records of a key go to one thread in their order, none to another |
| Dispatch.LinkStaysWithFile | storage/storage_disk_recovery.c:1126-1137 | a link goes to the thread of the file it points to, and the records of that file keep their order there |
| Dispatch.ChainKeepsKeys | storage/storage_disk_recovery.c:1047-1269 | over any chain of thread counts and progress, a key's unread records lie in one log and are the end of its original records |
| Dispatch.RedispatchConserves | storage/storage_disk_recovery.c:1047-1198 | each step of such a chain conserves the multiset of unread records |
| Dispatch.DispatchKeepsAllIff | storage/storage_disk_recovery.c:1106-1151 | the records are conserved exactly when no error and no stop request comes before the last one |
| Dispatch.StopLosesRecords | storage/storage_disk_recovery.c:1114 | a stop request before the first read deals out nothing and meets no error |
| Dispatch.StaleFlagListsAllIff | storage/storage_disk_recovery.c:1240-1260 | with more threads and the old flag all records are still listed exactly when every key hashes below the old count |
| RecoveryState.CoversFromEarlier | storage/storage_disk_recovery.c:591-593 | falling back to earlier saved offsets loses no pending path |
| RecoveryState.HandleCovers | storage/storage_disk_recovery.c:775-877 | handling a record settles its path and leaves every other path as it was |
| RecoveryState.DamageCovers | storage/storage_disk_recovery.c:670-682 | a partial download in place leaves its path pending |
| RecoveryState.AllReadRestores | storage/storage_disk_recovery.c:762-768 | when all logs are read to the end the store path is restored |
| RecoveryProtocol.WorkKeepsWorker | storage/storage_disk_recovery.c:877-894 | every move of a thread keeps its mark on a record boundary at or before the reader, exactly `count` records back while mark writes succeed |
| RecoveryProtocol.WorkKeepsInv | storage/storage_disk_recovery.c:706-935 | every move of every thread keeps the invariant |
| RecoveryProtocol.FinishKeepsInv | storage/storage_disk_recovery.c:1401-1414 | removing the flag after all threads are done leaves a restored path |
| RecoverySafety.PeerLogIsPrintedIff | storage/storage_service.c:4191-4362 | the machine may fetch what the peer prints exactly when every printed record is faithful |
| RecoverySafety.PrepareKeepsInv | storage/storage_disk_recovery.c:1701-1781 | each step of prepare keeps the invariant; the finished fetch covers the whole log |
| RecoverySafety.DealtCovers | storage/storage_disk_recovery.c:1047-1198 | the new logs cover every path that the old ones covered |
| RecoverySafety.CheckKeepsInv | storage/storage_disk_recovery.c:1200-1269 | check and dispatch, to more, fewer or as many threads, keep the invariant |
| RecoverySafety.TrimKeepsInv | storage/storage_disk_recovery.c:1250-1255 | a crash while surplus logs are deleted is safe |
| RecoverySafety.NextKeepsInv | storage/storage_func.c:1146-1170 | every move of the whole machine keeps the invariant |
| RecoverySafety.EndToEnd | storage/storage_disk_recovery.c:1271-1445 | in every run, once restore has removed the flag, the files equal one plain replay of the fetched log; a file record's file has the peer's content, a link record's link exists |
| RecoverySafety.GoesBackToFetch | storage/storage_disk_recovery.c:1766-1778 | log and starting point are those of an earlier completed fetch and split |
| RecoverySafety.RestoreStartsTrusted | storage/storage_disk_recovery.c:1207-1228 | threads run only with a fetched flag of their number and every log and mark present |
| RecoverySafety.FetchBeforeRestore | storage/storage_disk_recovery.c:524-534 | from a flag without `fetched` no thread restores before a new fetch is complete |
| RecoverySafety.WhoRemovesTheFlag | storage/storage_disk_recovery.c:429-449 | the flag disappears only with a replaced disk, without a source server, on a failed split or by restore, which has read every log to the end |
| RecoverySafety.DownloadsReplaceFiles | storage/storage_disk_recovery.c:670-696 | in every run a download finds a file or nothing at its path, never a symbolic link |
| RecoveryCheckpoints.OnlyHandlingAdvances | storage/storage_disk_recovery.c:877-894 | no move but handling a record leads further into a log in use |
| RecoveryCheckpoints.RecordsBeforeAreHandled | storage/storage_disk_recovery.c:877-894 | in every run each record before the reader or mark of a log in use was handled on this log and its effect applied |
| RecoveryCheckpoints.CheckpointsHold | storage/storage_disk_recovery.c:877-894 | a running thread's mark is a record boundary, every record before it was handled, and the reader is at most 1000 records ahead unless a mark write failed |
| RecoveryProgress.ThreadCanFinish | storage/storage_disk_recovery.c:747-921 | a reading thread can reach the end of its log |
| RecoveryProgress.FetchCanFinish | storage/storage_disk_recovery.c:1701-1781 | prepare can be completed from any of its steps with any log that may be fetched |
| RecoveryProgress.RecoveryCanComplete | storage/storage_func.c:1146-1170 | from every reachable state with a flag file recovery can be completed with any number of threads, from the logs on disk if they can be trusted, else from any log of the peer |
| RecoveryProgress.FaultFreeRunIsBounded | storage/storage_disk_recovery.c:747-921 | a restore without faults makes at most two moves per unread record and two per log more, in any order of its threads |
| RecoveryProgress.FaultFreeRestoreFinishes | storage/storage_disk_recovery.c:1271-1415 | where it can make no more such move all threads are done and the next move removes the flag from a store path with the promised files |
| RecoveryHazards.SplitFailureSkipsRecovery | storage/storage_disk_recovery.c:1766-1772 | after a failed split, in every continuation on the same disk there is no flag, the files are unchanged and no restore is under way or reported |
| RecoveryHazards.SplitFailureStartsUp | storage/storage_disk_recovery.c:1766-1772 | and the next startup succeeds |
| RecoveryHazards.FlagGoneMeans | storage/storage_disk_recovery.c:1417-1430 | between a state with a flag and a later one without, restore has finished with replayed files or one of three other removals has happened |
| InterruptedDispatch.NothingMissingIsSafe | storage/storage_disk_recovery.c:1200-1269 | if nothing is missing from the logs on disk the invariant holds, so that all results on runs apply |
| InterruptedDispatch.MissingStays | storage/storage_disk_recovery.c:1200-1269 | if no mark is set back, a path that no listed log has unread is the same at the end |
| InterruptedDispatch.RestoresIff | storage/storage_disk_recovery.c:1200-1269 | from logs of fetched records with marks on record boundaries, in every continuation without a new fetch, a successful restore leaves the promised files exactly when nothing is missing, if no mark is set back to 0 or what lies before the marks is settled |
| InterruptedDispatch.ShortDispatchRestoresIff | storage/storage_disk_recovery.c:1114-1188 | after a dispatch that dealt out only the first records and reported success, exactly when each unread path was among them or already settled |
| InterruptedDispatch.DispatchedRestoresIff | storage/storage_disk_recovery.c:1106-1198 | from the faults and the stop request of a dispatch pass to the files of a later successful restore: exactly when each unread path was read or settled, and always when nothing ended the reading early |
| InterruptedDispatch.InterruptedRenameRestoresIff | storage/storage_disk_recovery.c:1157-1188 | after any number of renames, the last perhaps without its mark, and with the old flag, exactly when nothing is missing from the listed logs, under the same condition on marks |
| InterruptedDispatch.StaleFlagRestoresIff | storage/storage_disk_recovery.c:1240-1260 | after all renames to more threads and with the old flag, exactly when each unread path was dealt to an old thread number or already settled |
| RecoveryHazards.StaleFlagLosesFile | storage/storage_disk_recovery.c:1240-1260 | a run from an empty disk and a continuation in which restore reports success without the file that the fetched log promises |
| RecoveryHazards.ShortDispatchLosesFile | storage/storage_disk_recovery.c:1114-1188 | a run and a continuation in which a stopped dispatch and then restore report success without the promised file |
| RecoveryHazards.InterruptedRenameLosesFile | storage/storage_disk_recovery.c:1157-1188 | the same after a crash behind the first of two renames |
| RecoveryHazards.LinksCommuteIff | storage/storage_disk_recovery.c:833-865 | two links of one absent name commute exactly when they have one target |
| RecoveryThread.Thread.Download | storage/storage_disk_recovery.c:627-704 | a download sets the file, skips a missing one, or breaks off in place only if the file was absent |
| RecoveryThread.Thread.HandleOne | storage/storage_disk_recovery.c:774-877 | a record is handled and passed, or the thread stays resumable at it |
| RecoveryThread.Thread.ReplayLoop | storage/storage_disk_recovery.c:760-894 | the inner loop keeps the thread resumable and ends done on a fault-free schedule |
| RecoveryThread.Thread.OpenFails | storage/storage_disk_recovery.c:962-971 | a reader that does not open leaves the thread resumable, whether or not its mark is written |
| RecoveryThread.Thread.DoRecovery | storage/storage_disk_recovery.c:706-935 | for every schedule of faults a done thread leaves what one uninterrupted replay of its log leaves, any other can be resumed, and a fault-free schedule ends done |
| FileWrite.FoldConcat | storage/storage_dio.c:461-465 | a CRC does not depend on where the data is cut |
| FileWrite.WriteTask.WriteFile | storage/storage_dio.c:404-539 | one chunk continues, completes or fails the task, with file, offset and CRC to match |
| FileWrite.WriteTask.CleanUp | storage/storage_dio.c:622-687 | what the upload and append clean-ups leave of the file |
| FileWrite.WriteTask.SendChunk | storage/storage_dio.c:404-539 | the call for one chunk fails exactly if the fault hits it, and then leaves what the clean-up leaves |
| FileWrite.WriteTask.Transfer | storage/storage_dio.c:404-539 | for every chunking, completion leaves old content plus payload and its CRC; a fault leaves what the clean-up leaves |
| FileWrite.AbortedUploadIff | storage/storage_dio.c:622-647 | an aborted upload leaves no file exactly when it was never opened or its descriptor is not 0 |
| FileWrite.DescriptorZeroStays | storage/storage_dio.c:627 | an upload on descriptor 0 that is broken off after its first chunk leaves that chunk |
| FileWrite.AbortedAppendIff | storage/storage_dio.c:649-687 | an aborted append leaves the old content exactly when no byte was written or, after a whole non-empty chunk, the descriptor is not 0 |
| FileWrite.PartOfFirstChunkStays | storage/storage_dio.c:659-662 | a first appended chunk that is written in part stays in the file |
| FileRead.ReadTask.ReadFile | storage/storage_dio.c:306-402 | a call appends the next bytes of the range, never beyond the buffer, and fails exactly on open or short read |
| FileRead.ReadTask.Download | storage/storage_dio.c:306-402 | with the buffer sent between calls the packets concatenate to header and range, none exceeds the buffer, and the CRC is that of the range |
| TrunkSlot.CheckTrunkFile | storage/storage_dio.c:814-862 | the unpack, clear and pack check passes exactly when crc, time and extension bytes are zero |
| TrunkSlot.PackUnpack | storage/trunk_mgr/trunk_shared.c:357-388 | packing undoes unpacking for every 24-byte header |
| TrunkSlot.FreeFields | storage/storage_dio.c:838-846 | a slot is free exactly when the three unpacked fields are zero |
| TrunkSlot.SlotUpload.CleanUp | storage/storage_dio.c:712-735 | the clean-up zeroes the slot exactly after a started and unfinished write on a descriptor other than 0 |
| TrunkSlot.SlotUpload.WriteChunk | storage/storage_dio.c:435-490 | one call writes its chunk behind the data sent before, or cleans up and leaves the slot free |
| TrunkSlot.SlotUpload.WriteChunks | storage/storage_dio.c:435-492 | all chunks are written behind the header, or the slot is left free |
| TrunkSlot.SlotUpload.WriteHeader | storage/storage_dio.c:864-928 | a whole header completes the file; one written in part leaves the slot free exactly unless it shows |
| TrunkSlot.SlotUpload.Run | storage/storage_dio.c:404-539 | an upload that reaches the check is refused exactly when the slot is taken; stored exactly when it is free and no fault strikes; otherwise a taken slot is unchanged and a free one stays free exactly unless part of its header shows; nothing outside the slot changes |
| TrunkRuns.PackedFreeIff | storage/storage_dio.c:832-859 | a packed header is taken for free exactly when crc, time (both modulo 2^32) and extension are zero |
| TrunkRuns.StoredReadsBack | storage/storage_dio.c:882-902 | a stored header whose fields fit in 32 bits unpacks to the true size, length, CRC and time |
| TrunkRuns.StaysInSlot | storage/storage_dio.c:404-539 | every call changes bytes of its own slot only |
| TrunkRuns.ReadyForNextCall | storage/storage_dio.c:487-490 | between two calls of an upload, whatever others did, the trunk file is as its next call needs it |
| TrunkRuns.TakenStays | storage/storage_dio.c:775-862 | no call but its own deletion or a copy over it changes a taken slot at rest, and no upload begins in it |
| TrunkRuns.FileStays | storage/storage_dio.c:775-862 | so a completed file whose header shows stays as it is |
| TrunkRuns.StoredFileSurvives | storage/storage_dio.c:404-539 | over all interleavings a completed file whose header shows keeps header and bytes, and no upload begins in its slot, until the slot is deleted or a copy is written to it |
| TrunkRuns.OutsideStays | storage/storage_dio.c:404-539 | over all interleavings bytes outside the slots of some calls are not changed by them |
| TrunkRuns.EndedIsFreeIff | storage/storage_dio.c:712-735 | an upload, or a copy into a free slot, that ends without its file leaves the slot free exactly unless part of its header shows |
| TrunkRuns.TornHeaderTakesSlot | storage/storage_dio.c:902-925 | 17 bytes of a header with non-zero time leave the slot taken |
| TrunkRuns.OverwritableIff | storage/storage_dio.c:832-859 | another upload can begin in the slot of a stored file exactly when its crc, time (both modulo 2^32) and extension are zero |
| TrunkRuns.SharedSlotLosesData | storage/storage_dio.c:775-804 | with two uploads in one slot the second writes over the completed file of the first |
| TrunkRuns.SyncOverwrites | storage/storage_dio.c:806-812 | a copy from another server is written over a stored file |
| DioPlacement.BuildBlocks | storage/storage_dio.c:76-98 | the layout loop gives every path its block |
| DioPlacement.DividesIff | storage/storage_func.c:1665-1722 | for counts that are not negative, the modulus is positive for every operation exactly when the configuration is accepted |
| DioPlacement.StaysInBlock | storage/storage_dio.c:167-197 | an index lies in its path's block, readers and writers apart when separated |
| DioPlacement.PathsAreDisjoint | storage/storage_dio.c:167-197 | tasks of different paths never share a thread |
| StorePathMark.MarkFiles.CheckStorePathMark | storage/storage_func.c:805-973 | the check takes a step of the mark protocol and accepts only with equal marks |
| StorePathMark.AtMostOneHolder | storage/storage_func.c:754-803 | in every reachable state at most one server has recorded the path's mark |
| StorePathMark.OthersAreRefused | storage/storage_func.c:858-953 | after an acceptance every other server is refused until the mark is deleted by hand |
| StorePathMark.ExclusiveIff | storage/storage_func.c:805-973 | in every run at most one server is in service in all states exactly when none was let in, while another was in service, that found no mark or had put its old mark back by a crash |
| StorePathMark.AtMostOneRunning | storage/storage_func.c:805-973 | without any deletion by hand at most one server is in service at all times, and it owns the mark |
| StorePathMark.DeletionLetsTwoRun | storage/storage_func.c:954-972 | after a deletion by hand two servers can be in service |
| StorePathMark.CrashLocksOutIff | storage/storage_func.c:967-972 | after a crash between the two writes and until a deletion by hand, a server is accepted exactly if it is the one that crashed, its new mark equals its record and the record is not lost; all others are refused |
| StorePathMark.CrashedServerIsRefused | storage/storage_func.c:858-872 | a run in which the server that crashed between the two writes is refused at its next start |
| TrackerSet.CmpServerOrder | client/client_func.c:35-84 | the comparator is zero exactly on equal servers and changes sign with its arguments |
| TrackerSet.CmpServerChain | client/client_func.c:50-84 | the comparator is transitive |
| TrackerSet.InsertedKeepsSorted | client/client_func.c:86-104 | an insertion keeps the order strict and adds exactly the new server |
| TrackerSet.TrackerServerGroup.MakeRoom | client/client_func.c:90-101 | larger servers move up by one in place, nothing beyond the next free element changes |
| TrackerSet.TrackerServerGroup.InsertIntoSortedServers | client/client_func.c:86-104 | the array holds the sorted insertion and is unchanged behind it |
| TrackerSet.TrackerServerGroup.Contains | client/client_func.c:127-130 | the search finds exactly the servers present |
| TrackerSet.TrackerServerGroup.CopyTrackerServers | client/client_func.c:106-150 | the array is strictly sorted, holds exactly the distinct inputs and never outgrows its allocation; a parse error is reported |
| RoundRobin.TrackerGroup.Search | client/tracker_client.c:78-111 | the servers are tried in cyclic order without repeats until the first reachable one |
| RoundRobin.TrackerGroup.GetConnection | client/tracker_client.c:63-243 | a connection exactly when some server is reachable, to the first in cyclic order; the index moves behind it |
| RoundRobin.Calls | client/tracker_client.c:63-120 | repeated calls make the sequence of picks |
| RoundRobin.PicksCycle | client/tracker_client.c:113-117 | consecutive calls go through the reachable servers in cyclic order |
| RoundRobin.FairRound | client/tracker_client.c:63-120 | a round of calls uses each reachable server exactly once and no other |
| StorageDelete.DeletePass | client/tracker_client.c:1216-1271 | requests go out up to the first refusal; 0 is returned exactly when all accept, not all as unknown, the last not as already deleted |
| StorageDelete.LastAlreadyFails | client/tracker_client.c:1250-1271 | answers that all accept, the last one "already", are no success |
| StorageDelete.FirstAlreadySucceeds | client/tracker_client.c:1250-1271 | the same answers with "already" first are a success |
| StorageDelete.DeleteStorage | client/tracker_client.c:1149-1272 | no request is sent unless every tracker was reached, none reports the storage online or active and one knows it; the exact condition for 0 |
| SlaveName.TakesMastersNameIff | common/fdfs_global.c:67-148 | a generated name is the master's exactly when a non-empty prefix and the extension spell the master's extension |
| SlaveName.ExtensionAsPrefix | common/fdfs_global.c:123-145 | prefix ".jpg" and an empty extension give the name of any master that ends so |
| SlaveName.DotlessPrefixIsSafe | common/fdfs_global.c:123-132 | with a prefix without dot it never is |
| SlaveName.SlavesAreDistinct | common/fdfs_global.c:134-145 | slaves of one master with dotless prefixes share a name only if prefix and extension agree |

## Left out

- Migration of recovery files of an old version (`storage/storage_disk_recovery.c:982-1045`): used once after an upgrade.
- InterruptedDispatch.InterruptedRenameRestoresIff: a crash between the rename of a new log and its mark write is covered if the old mark is a record boundary of the new log; elsewhere the reader starts inside a line.
- Buffer lengths of names and lines (128 and 256 bytes) and the width of timestamps: names and numbers are unbounded in the logs.
- File times set after a download and temporary download files: they do not bear on content.
- `dio_modify_finish_clean_up` and `dio_truncate_file`: no rollback, hence no content promise.
- MD5 and hash signatures of uploaded files: the same fold as the CRC.
- The trunk space allocator (`storage/trunk_mgr/trunk_mem.c`): slots are taken to be disjoint.
- Sockets, packets, connection pools, tracker queries, status reports, schedules, statistics and logging.
- `fdfs_get_file_info_ex`, HTTP tokens, MIME tables, the PHP client and the command-line tools.
- RecoverySafety.CheckKeepsInv: the rename loop of a dispatch and, with more threads, the flag write form one move, because the code does not survive a crash inside; `InterruptedDispatch` says exactly when it does.
- InterruptedDispatch.RestoresIff: if a mark is set back to 0 because a reader did not open, records before it are restored again, so that a missing path may come back; for such runs what lies before the marks must be settled.
- TrunkSlot.SlotUpload.Run: one upload by itself; `TrunkRuns` has the interleavings.
- RecoveryThread.Thread.DoRecovery: one thread on its own mark and files; the interleaving of several threads is in the state machine.
- TrunkRuns.TakenStays: asks that no copy from another server is being written to the slot, because such a copy does change it; `TrunkRuns.TakenIsIdle` shows that a checked upload never is.
- TrunkRuns.EndedIsFreeIff: does not say what a copy over a taken slot leaves when it ends early, because old and new header bytes then mix.
