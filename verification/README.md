# A verified model of P2P File Share

The project models the parts of P2P File Share in which a mistake would be silent:
the resumable chunk transfer between two browsers and the signaling server that
brings them together. It proves, for all inputs and all runs, what those parts
promise, and where the code falls short of a promise it says exactly when.

## How the model is laid out

| file | what it models |
|---|---|
| `Basics.dfy` | shared types and small facts on sequences |
| `Chunking.dfy` | chunk sizes, chunk counts, slices; the slices tile the file |
| `Hashing.dfy` | the streaming digest, hex, the checksum comparison |
| `Encryption.dfy` | initialisation vectors and the cipher's law |
| `Sinks.dfy`, `Storage.dfy` | positional writes and the keyed chunk store: as values, and as objects updated in place |
| `Receiving.dfy` | one incoming file: value, class `ChunkReceiver`, integrity under any delivery |
| `Wire.dfy` | the frames of the file channel |
| `ReceiverState.dfy`, `ReceiverSession.dfy` | the receiving session: handlers, their serial queue, the object |
| `Pump.dfy`, `ChunkPump.dfy` | the sending loop of one file as an interleaving machine, and the object |
| `Transfer.dfy` | the whole transfer as a step system: sender loop with the pump of the active file, reconnect path, lossy channel, receiver |
| `Integrity.dfy`, `Completion.dfy`, `GivingUp.dfy`, `Resume.dfy`, `Recovery.dfy`, `ResumePoint.dfy` | what holds in every run of it (`Schedules.dfy`: undisturbed continuations) |
| `SenderDone.dfy` | what a transfer shown as completed at the sender means |
| `Directory.dfy` | files saved into the picked directory under their sanitized names |
| `AsyncTransfer.dfy` | the same system with the receiver's handlers cut at their awaits: each of its runs is a run of `Transfer` |
| `SenderSession.dfy` | the sending session's object, with the pump object it owns |
| `RateLimiter.dfy`, `Sessions.dfy`, `Relay.dfy` | the signaling server |
| `IceCandidates.dfy` | the buffer of early ICE candidates |
| `FileNames.dfy` | the file-name sanitizer |

A component that the program updates in place is a class here whose methods are
proved equal to a transition on values; the run-level results are lemmas about
those transitions. An asynchronous function is cut at its awaits: each piece
between two awaits is one step, and steps of different origin interleave freely.

## What is assumed

- SHA-256 is any function `h` on byte strings. Results that rest on a matching
  checksum say "the bytes are right, or these two byte strings collide under `h`".
- AES-GCM is any pair `seal`/`open` with `open(iv, seal(iv, p)) == p`.
- A rejected sink write leaves the sink as it was.
- File ids differ, and the first FILE_ACCEPT, for all files, has arrived before the
  first disconnect. At most one file loop is live: once the channels of a new
  connection are open, the interrupted loop neither sends nor is woken. No frame of an
  old connection arrives after a new one is open.
- The low-buffer event is delivered when the threshold is crossed (section 6.2 of
  W3C WebRTC 1.0), and a pump is the only sender on its channel.
- Generated ids and codes are arbitrary unused values; the server's clock is read
  as many times as the code reads it.

## Where code and words disagree

- A comment says TRANSFER_COMPLETE arrives strictly after every chunk of every file
  (`SenderSession.ts:271-273`). When a connection loss finds the retry budget spent, only
  the active pump is cancelled (`SenderSession.ts:378-386`); the file loop goes on and
  still ends with TRANSFER_COMPLETE. The file at hand is missing then exactly if it was
  not announced before and its pump was not yet reading its last chunk, nor past it
  (`GivingUp.GivingUpStrandsIff`); between two files nothing is lost.
  `GivingUp.SixLossesStrandTheFile` is a run in which it happens, and in which the file
  never arrives.
- A comment says a resume restarts exactly at the next expected chunk
  (`chunkReceiver.ts:44-47`). The resume point may be stale (`ResumePoint.StaleResumePoint`);
  it is current exactly if no chunk of the file waited in the receiver's queue
  (`ResumePoint.ResumePointIsCurrentIff`); and `Recovery.ReceivedIsAlwaysAPrefix` shows why
  a stale one is harmless.
- A comment says that a reconnect attempt which finds signaling down is made up for when
  signaling opens again (`SenderSession.ts:397`); nothing listens for that, and the session
  is gone with the socket. After one such loss no loop ever starts again
  (`Recovery.OneLossWithoutSignaling`); when one can is exactly `Recovery.LoopRestartsIff`.
- The sender shows a transfer as completed at the end of its loop, also when the channel
  is closed and TRANSFER_COMPLETE is dropped (`SenderSession.ts:270-279`). What the
  receiver gets then is exactly `SenderDone.ShownCompletedIff`;
  `SenderDone.ShownCompletedWithoutAFile` is a run in which it never gets a file.
- A file saved into the picked directory is written under its sanitized name, and nothing
  keeps two files of one transfer from having the same. The later one replaces the
  earlier, both shown as completed: `Directory.SameNameLosesAFile` is the run,
  `Directory.SavedFileStaysIff` and `Directory.DirectoryExactIff` the exact conditions.
- A comment says the IV is unique per file and chunk (`encryption.ts:38-40`). It is up to
  2^32 chunks of a file, and no further (`Encryption.IvsNeverRepeatIff`, `Encryption.IvRepeats`).
- `SECURITY.md` calls session tokens invalidated once a receiver joins. They admit a new
  receiver after the present one has left (`Relay.TokenAdmitsAgain`); who is admitted is
  exactly `Relay.AdmittedIff`.
- A disconnect cleans up one session of a socket, not all: `Relay.DisconnectLeavesDeadSender`
  is a run, `Relay.DisconnectCleansUpIff` the exact condition.
- A sanitized name can be one that the offer's schema refuses, namely "."
  (`FileNames.SingleDotIsRefused`, `FileNames.SchemaAcceptsIff`), and sanitizing twice can
  differ from sanitizing once (`FileNames.EndsDisagree`, `FileNames.EndsAgreeIff`).

## Model

| member | source | states |
|---|---|---|
| `Integrity.CompletedMeansExactBytes` | client/src/services/transfer/ReceiverSession.ts:388-406 | in every run, with losses, replays, stale resume points and rejected platform calls: the bytes handed over for a file shown as COMPLETED, as a download or into its file stream, are the sender's, or the received bytes and the file collide under the hash |
| `Integrity.BinaryMeetsItsMetadata` | client/src/services/transfer/ReceiverSession.ts:364-386 | in every run, a binary frame about to be handled is the chunk that the remembered CHUNK_META describes, also after a metadata frame was orphaned by a disconnect |
| `Integrity.FinishedFileIsFrozen` | client/src/services/transfer/chunkReceiver.ts:32-34 | once a file is finalized, no continuation of the run changes its hash, its sink, the bytes handed over for it or its verdict |
| `Integrity.PairedPrefix` | client/src/services/webrtc/PeerConnectionManager.ts:144-150 | losing any suffix of the frames in flight, even between metadata and payload, leaves the rest paired |
| `Integrity.PairedAppend` | client/src/services/transfer/ReceiverSession.ts:371-382 | frames that pair up by themselves can follow any others: leftover metadata is overwritten before the next payload |
| `Integrity.ChunkDecodes` | client/src/services/transfer/chunkReceiver.ts:36-39 | the receiver recovers each chunk's plaintext from its two frames, encrypted or not |
| `Integrity.IvReuseIsReplay` | client/src/services/crypto/encryption.ts:33-58 | over a whole encrypted transfer with resumes, two encryptions share an IV exactly when file, chunk and plaintext are the same |
| `Integrity.SelectedSizesKeepIvsUnique` | client/src/services/transfer/chunkSize.ts:9-29 | with the selected chunk sizes every file of up to 2^50 bytes stays within 2^32 chunks, on any device |
| `Completion.TransferCompleteIff` | client/src/services/transfer/SenderSession.ts:260-280 | in every run, at TRANSFER_COMPLETE exactly the files are missing whose pump ended cancelled in the loop that sent it, before any FILE_COMPLETE for them; so every file is finalized if and only if there was none |
| `Completion.DoneMeansAllFinalized` | client/src/services/transfer/ReceiverSession.ts:247-250 | a run in which no pump ended cancelled on an open channel: a transfer shown as done has every file finalized, across any number of reconnects |
| `GivingUp.GivingUpStrandsIff` | client/src/services/transfer/SenderSession.ts:378-386 | a loss with the budget spent, the loop running and the channel open: every undisturbed continuation, with handlers rejected or not, ends as done, missing besides what was lost before the file at hand, exactly if that was not announced and its pump not yet reading its last chunk nor past it; between files nothing |
| `GivingUp.GivingUpEnds` | client/src/services/transfer/SenderSession.ts:323-329 | such a continuation always exists: the cancelled pump returns, the loop goes on to its end |
| `GivingUp.SixLossesStrandTheFile` | client/src/services/transfer/SenderSession.ts:374-404 | the concrete run: six losses with signaling down, the first during the first of at least two chunks; shown as done without the first file, which no continuation brings |
| `GivingUp.StrandedForGood` | client/src/services/transfer/SenderSession.ts:374-386 | a file stranded with no reconnection left is finalized in no continuation whatsoever |
| `Completion.HandledCompletes` | client/src/services/transfer/ReceiverSession.ts:388-392 | FILE_COMPLETE finalizes its file whatever the platform does; no other frame does |
| `Recovery.ReceivedIsAlwaysAPrefix` | client/src/services/transfer/chunkReceiver.ts:44-58 | without rejected platform calls: each file's received set is a prefix [0, n), its hash covers exactly the bytes before chunk n, the progress is their number, and a resume point under way is at most n |
| `Recovery.DoneMeansAllArrived` | client/src/services/transfer/SenderSession.ts:260-279 | without rejected calls and without giving up: once TRANSFER_COMPLETE is handled, every file is verified and was handed over exact (no collision to fear) |
| `Recovery.ReconnectionFinishesTheTransfer` | client/src/services/transfer/SenderSession.ts:395-419 | from every reachable state in which a loop can start again: at most four steps, re-offering only the active file, bring the answer, and the loop it starts, undisturbed, finalizes every file, each verified and exact if no call was rejected before |
| `Recovery.LoopRestartsIff` | client/src/services/transfer/SenderSession.ts:374-404 | in every reachable state, a loop starts again in some continuation if and only if the session is not cancelled and a re-offer or answer is under way, or a peer negotiates whose offer was relayed, or signaling still links the two and a timer is set, or retry budget is left in a transfer that is not over |
| `Recovery.NoLoopRestarts` | client/src/services/transfer/SenderSession.ts:374-386 | otherwise no continuation starts one, nor gets back to where it could |
| `Recovery.OneLossWithoutSignaling` | client/src/services/transfer/SenderSession.ts:396-397 | the run: one loss whose attempt finds signaling down; no continuation starts a loop again |
| `Recovery.StrandedForGoodIff` | client/src/services/transfer/SenderSession.ts:378-392 | a stranded file stays missing in every continuation, whatever the platform rejects, if and only if no loop can start again |
| `SenderDone.ShownCompletedIff` | client/src/services/transfer/SenderSession.ts:270-279 | the last turn shows the transfer as completed; undisturbed, the receiver then gets every file and the end if and only if every file was announced and the channel was open, or an earlier TRANSFER_COMPLETE was on its way |
| `SenderDone.ShownCompletedOnOpenChannel` | client/src/services/transfer/SenderSession.ts:270-279 | with the channel open every file was announced if and only if the loop lost none |
| `SenderDone.MissingForGood` | client/src/services/transfer/SenderSession.ts:374-376 | on a closed channel with no loop to start again, what was not announced stays missing in every continuation |
| `SenderDone.ShownCompletedWithoutAFile` | client/src/services/webrtc/PeerConnectionManager.ts:144-150 | the run: the channel dies unnoticed, all frames are dropped, the sender shows the transfer as completed and no continuation brings a file |
| `Directory.SavedFileStaysIff` | client/src/services/transfer/ReceiverSession.ts:332-343 | over any continuation a saved file keeps its bytes in the directory if and only if no other file of the same sanitized name is finalized there later |
| `Directory.DirectoryExactIff` | client/src/services/transfer/ReceiverSession.ts:332-343 | with every file arrived, the directory holds each one byte for byte if and only if no two of different content have the same sanitized name |
| `Directory.SameNameLosesAFile` | client/src/services/transfer/ReceiverSession.ts:335-337 | for two such files: a run that ends with both shown as completed and one of them not in the directory |
| `Recovery.AcceptedOfferIsFresh` | client/src/services/transfer/ReceiverSession.ts:307-319 | a receiver that accepted the offer, with any choice of sinks, is where the runs start |
| `Resume.ChunkTaken` | client/src/services/transfer/chunkReceiver.ts:32-51 | a chunk at the first gap or below it leaves the file in order, with that chunk present |
| `Resume.AllChunksMakeTheFile` | client/src/services/transfer/ReceiverSession.ts:394-406 | with all chunks taken in order the checksum matches and the sink's output is the file |
| `Resume.EmittedFits` | client/src/services/transfer/SenderSession.ts:263-269 | whatever the loop sends next fits a receiver that has everything before the loop, and keeps it so |
| `Resume.AcceptKeepsOrdered` | client/src/services/transfer/SenderSession.ts:260-268 | restarting at file 0 with a stale resume point for one file and chunk 0 for the others keeps the transfer in order |
| `Resume.AnswerKeepsOrdered` | client/src/services/transfer/ReceiverSession.ts:322-330 | the resume point answered to a re-offer is the number of chunks in order so far |
| `ResumePoint.ResumePointIsCurrentIff` | client/src/services/transfer/chunkReceiver.ts:44-58 | however far the receiver gets while the answer travels: the answered point is still its count when the restarted loop's first chunk of the file gets its turn, if and only if no frame waiting in the queue at the answer carried a chunk of the file not taken yet |
| `ResumePoint.StaleResumePoint` | client/src/services/transfer/ReceiverSession.ts:322-330 | a reachable answer that is stale: chunk 0, with chunk 0 waiting in the queue |
| `ResumePoint.CountStaysIff` | client/src/services/transfer/chunkReceiver.ts:32-51 | handling frames in order adds chunks of a file if and only if one of them carries a chunk not taken yet |
| `Schedules.Undisturbed` | client/src/services/transfer/SenderSession.ts:260-280 | every running, unpaused loop on an open channel has a continuation in which all is sent, delivered and handled |
| `Schedules.LoopSendsTheRest` | client/src/services/transfer/SenderSession.ts:260-337 | however the channel drains, an uncancelled loop sends exactly the files from its place on, in order, each from its resume point to its FILE_COMPLETE, then TRANSFER_COMPLETE |
| `ReceiverState.QueueIsInOrderFold` | client/src/services/transfer/ReceiverSession.ts:226-230 | however arrivals, handler starts and settling awaits interleave, and whichever reject: between handlers the receiver is the in-order fold of whole handlers over a prefix of the arrived frames, the rest still queued |
| `AsyncTransfer.AsyncRunIsTransferRun` | client/src/services/transfer/ReceiverSession.ts:217-231 | every run of the whole transfer in which handlers are cut at their awaits and everything else interleaves, the answer to a re-offer included, matches a run with whole handlers: same state, a handler in progress counted as waiting |
| `AsyncTransfer.CompletedMeansExactBytes` | client/src/services/transfer/ReceiverSession.ts:388-406 | at every moment of such a run, in the middle of a handler too: the bytes handed over for a file shown as COMPLETED are the sender's, or the hash collides |
| `AsyncTransfer.ReceivedIsAlwaysAPrefix` | client/src/services/transfer/chunkReceiver.ts:44-58 | at every such moment, with no handler rejected so far: received set, hash and progress are those of a prefix |
| `AsyncTransfer.TransferCompleteIff` | client/src/services/transfer/ReceiverSession.ts:247-250 | when the handler of TRANSFER_COMPLETE is about to start, exactly the files lost to the loop that sent it are missing |
| `ReceiverState.BeginRefines` | client/src/services/transfer/ReceiverSession.ts:364-397 | a handler's first piece has the effect of the whole handler or a definite part of it |
| `ReceiverState.SettleRefines` | client/src/services/transfer/chunkReceiver.ts:36-51 | so has every later piece, decryption, write, finalize and history entry, fulfilled or rejected |
| `ReceiverSession.ReceiverSession.HandleFileChannelData` | client/src/services/transfer/ReceiverSession.ts:364-386 | the object's new state is the transition `OnMessage` |
| `ReceiverSession.ReceiverSession.HandleBinary` | client/src/services/transfer/ReceiverSession.ts:380-386 | the object's new state is the transition `OnBinary` |
| `ReceiverSession.ReceiverSession.HandleFileComplete` | client/src/services/transfer/ReceiverSession.ts:388-406 | the object's new state is the transition `OnFileComplete`: digest once, verify, finalize |
| `ReceiverSession.ReceiverSession.HandleFileOffer` | client/src/services/transfer/ReceiverSession.ts:278-283 | answered at once if and only if every offered file has a receiver, with each one's first gap |
| `ReceiverSession.ReceiverSession.RespondToOffer` | client/src/services/transfer/ReceiverSession.ts:298-320 | declined: FILE_REJECT and no change; accepted: a fresh receiver for every offered file, and resume point 0 for each |
| `ReceiverSession.ReceiverSession.SendAccept` | client/src/services/transfer/ReceiverSession.ts:322-330 | exactly the offered files that have a receiver are named, each with its first gap |
| `ReceiverSession.Finalize` | client/src/services/storage/fileWriter.ts:53-61 | the bytes handed over are the sink's output |
| `Receiving.IntegrityUnderAdverseDelivery` | client/src/services/transfer/chunkReceiver.ts:32-51 | any order, repetition, loss and failed write of genuine chunks: a matching checksum means the sink yields the file, or a collision |
| `Receiving.DigestProvesContent` | client/src/services/transfer/ReceiverSession.ts:395-397 | equal digests leave the file or a collision, on either sink |
| `Receiving.AcceptKeepsGenuine` | client/src/services/transfer/chunkReceiver.ts:41-50 | a taken chunk keeps hash, index set, sink and progress in step |
| `Receiving.ProgressIsBytesReceived` | client/src/services/transfer/ReceiverSession.ts:345-358 | accumulated progress is the number of hashed bytes, never above the size, and the size on completion |
| `Receiving.FirstGap` | client/src/services/transfer/chunkReceiver.ts:54-58 | the scan terminates at the first index not received |
| `Receiving.IsCompleteIff` | client/src/services/transfer/chunkReceiver.ts:60-62 | complete if and only if every index below the chunk count was received |
| `Receiving.ChunkReceiver.HandleChunk` | client/src/services/transfer/chunkReceiver.ts:32-51 | the object's new state, hasher and sink included, is the transition `AfterChunk`; no other file's rows change |
| `Receiving.ChunkReceiver.ResumeFromChunk` | client/src/services/transfer/chunkReceiver.ts:54-58 | the loop returns the first gap |
| `Receiving.ChunkReceiver.DigestHex` | client/src/services/transfer/chunkReceiver.ts:64-67 | the digest of all folded bytes; from then on the file is closed to chunks |
| `Receiving.ChunkReceiver.Finalize` | client/src/services/transfer/chunkReceiver.ts:69-71 | the sink's output, or nothing if it rejects |
| `Sinks.SinksAgree` | client/src/services/storage/fileWriter.ts:16-66 | positional writes and keyed puts, in any two orders that cover the file and with repetitions, both yield the file |
| `Sinks.WriteHolds` | client/src/services/storage/fileWriter.ts:19-21 | writing a chunk of the file disturbs no other chunk |
| `Sinks.CompleteSink` | client/src/services/storage/fileWriter.ts:53-61 | a sink that holds every non-empty chunk yields the file |
| `Storage.RowKeyInjective` | client/src/services/storage/db.ts:99-102 | no two chunks, of one file or of two, share a row, whatever the ids contain |
| `Storage.ChunkRepository.Put` | client/src/services/storage/db.ts:99-102 | one row is set; other files' rows stay |
| `Storage.ChunkRepository.GetAllForFile` | client/src/services/storage/db.ts:103-107 | exactly the file's rows, in ascending index order |
| `Storage.ChunkRepository.DeleteAllForFile` | client/src/services/storage/db.ts:108-117 | exactly the file's rows go |
| `Storage.SortByIndex` | client/src/services/storage/db.ts:106 | ascending, with the same records |
| `Storage.ConcatIsJoin` | client/src/services/storage/fileWriter.ts:54-58 | joining the sorted records is joining the rows in index order |
| `Storage.IndexedDbChunkSink.Finalize` | client/src/services/storage/fileWriter.ts:53-61 | the joined rows, which are then deleted |
| `Storage.FileSystemChunkSink.Write` | client/src/services/storage/fileWriter.ts:19-21 | the stream after a positional write |
| `Pump.PumpSendsTheTail` | client/src/services/transfer/chunkPump.ts:70-107 | under any interleaving: the frames sent are those of consecutive chunks from the start chunk; "completed" means all of them and the whole file's checksum, whatever the start chunk; "cancelled" only after a cancel |
| `Pump.NoWaitersUnlessPaused` | client/src/services/transfer/chunkPump.ts:39-57 | not paused implies no queued waiters; a waiter is the suspended loop |
| `Pump.AtMostOneChunkWhilePaused` | client/src/services/transfer/chunkPump.ts:80-103 | between a pause and the next resume at most one chunk is sent, and only past the pause check |
| `Pump.AtMostOneChunkAfterCancel` | client/src/services/transfer/chunkPump.ts:81-107 | after a cancel at most the chunk being read is sent |
| `Pump.CancelOutcomeIff` | client/src/services/transfer/chunkPump.ts:80-107 | a cancelled loop ends "cancelled" if and only if at the cancel it was not reading its last chunk nor re-hashing with no chunk left; otherwise "completed" |
| `Pump.BufferStaysBounded` | client/src/services/transfer/chunkPump.ts:59-67 | the buffer is below the high mark before each metadata frame and always below it plus one chunk's frames |
| `Pump.DrainWakesPump` | client/src/services/transfer/chunkPump.ts:59-67 | a pump waiting for space is awake exactly once the buffer is at the low mark, however it drains |
| `ChunkPump.RunUninterrupted` | client/src/services/transfer/chunkPump.ts:70-107 | an undisturbed run terminates, having sent exactly the chunks from the start chunk on |
| `ChunkPump.ChunkPump.Continue` | client/src/services/transfer/chunkPump.ts:80-104 | from one suspension point to the next: the machine's step |
| `ChunkPump.ChunkPump.SendOne` | client/src/services/transfer/chunkPump.ts:87-103 | one chunk read, folded in, encrypted, given to the channel |
| `ChunkPump.ChunkPump.HashAlreadySentRange` | client/src/services/transfer/chunkPump.ts:110-117 | folds exactly the bytes before the start chunk |
| `ChunkPump.ChunkPump.PauseLoop` | client/src/services/transfer/chunkPump.ts:39-41 | the machine's step |
| `ChunkPump.ChunkPump.ResumeLoop` | client/src/services/transfer/chunkPump.ts:43-47 | the machine's step: every waiter is woken |
| `ChunkPump.ChunkPump.CancelLoop` | client/src/services/transfer/chunkPump.ts:49-52 | the machine's step |
| `SenderSession.SenderSession.HandleConnectionLoss` | client/src/services/transfer/SenderSession.ts:374-393 | the new state is the transition `AfterLoss`: the pump object is paused and a timer set, or it is cancelled; the loop is not touched |
| `SenderSession.SenderSession.AttemptToReconnect` | client/src/services/transfer/SenderSession.ts:395-404 | the new state is the transition `AfterAttempt`: unless cancelled, without session or without signaling, the old peer's channels are gone and an offer goes out |
| `SenderSession.SenderSession.ReofferAfterReconnect` | client/src/services/transfer/SenderSession.ts:183-190 | the new state is the transition `AfterReady`; the active file is the one re-offered |
| `SenderSession.SenderSession.HandleAccept` | client/src/services/transfer/SenderSession.ts:260-269 | the loop starts at the first file with a fresh pump at its resume point; a cancelled session's loop is over |
| `SenderSession.SenderSession.ContinueLoop` | client/src/services/transfer/SenderSession.ts:263-280 | from any suspension point of the loop to the next, under any earlier pause, cancel or loss: new state and frames sent are those of the step system |
| `SenderSession.OnlyHistoryDiffers` | client/src/services/transfer/SenderSession.ts:274-276 | the frames of a turn are the same whatever the history, but for the annotation of TRANSFER_COMPLETE that is not on the wire |
| `SenderSession.SenderSession.RejectLoop` | client/src/services/transfer/SenderSession.ts:235-237 | a rejected read, encryption or history entry ends the loop without TRANSFER_COMPLETE |
| `SenderSession.SenderSession.ContinueFile` | client/src/services/transfer/SenderSession.ts:322-337 | the pump's next piece; FILE_COMPLETE follows exactly a completed pump |
| `SenderSession.SenderSession.HandlePauseOrResume` | client/src/services/transfer/SenderSession.ts:247-254 | the active pump alone is signalled |
| `SenderSession.SenderSession.HandleNotice` | client/src/services/transfer/SenderSession.ts:132-152 | what the signaling server's notices do to the transfer state |
| `SenderSession.SenderSession.CancelTransfer` | client/src/services/transfer/SenderSession.ts:441-448 | the pump is cancelled, the channels are gone, the loop is left to find out |
| `Chunking.ChunksTile` | client/src/services/transfer/chunkPump.ts:87-89 | every byte lies in exactly one chunk, at the offset of the positional write |
| `Chunking.TotalChunksIsCeiling` | client/src/services/transfer/SenderSession.ts:72 | the chunk count is the ceiling of size / chunk size, and 1 for an empty file |
| `Chunking.ChunkIndicesFit` | client/src/services/transfer/chunkSize.ts:9-29 | chunk indices fit 32 bits if and only if the file is at most 2^52 bytes, 2^50 on a low-memory device |
| `Chunking.LengthForcesAllChunks` | client/src/services/transfer/chunkReceiver.ts:48-49 | distinct chunks add up to the file's length if and only if no non-empty chunk is missing, in any order |
| `Encryption.IvsNeverRepeatIff` | client/src/services/crypto/encryption.ts:33-47 | no two chunks share an IV if and only if no file has more than 2^32 chunks |
| `Encryption.IvEquality` | client/src/services/crypto/encryption.ts:44-45 | two IVs agree if and only if both indices agree modulo 2^32 |
| `Encryption.IvRepeats` | client/src/services/crypto/encryption.ts:38-45 | the input for which uniqueness fails: chunk 2^32 has the IV of chunk 0 |
| `Encryption.IvForChunk` | client/src/services/crypto/encryption.ts:33-47 | the filled byte array is salt, file index, chunk index |
| `Hashing.Sha256HexOfBlob` | client/src/services/crypto/hash.ts:23-33 | hashing in pieces of any size is hashing the whole |
| `Hashing.ChecksumsMatch` | client/src/services/transfer/chunkReceiver.ts:78-87 | the accumulating loop answers equality of the decoded bytes, or throws on malformed hex of equal length |
| `Hashing.MatchIsDigestEquality` | client/src/services/transfer/chunkReceiver.ts:78-87 | on two digests it never throws and is equality |
| `RateLimiter.AnswersLikeFullLog` | server/src/security/rateLimiter.ts:14-40 | with a clock that does not go back and any keys, resets and sweeps: allowed if and only if the key's calls in (now - windowMs, now] since its reset, this one and rejected ones included, number at most maxHits |
| `RateLimiter.NoWindowAdmitsMore` | server/src/security/rateLimiter.ts:14-22 | between resets no window of that length, wherever it starts, admits more than maxHits |
| `RateLimiter.RateLimiter.Check` | server/src/security/rateLimiter.ts:14-22 | the pruned log after the call, and the answer |
| `RateLimiter.RateLimiter.Reset` | server/src/security/rateLimiter.ts:24-26 | the key's log is gone, others stay |
| `RateLimiter.RateLimiter.Sweep` | server/src/security/rateLimiter.ts:29-40 | every log is pruned, empty ones are dropped |
| `Sessions.SweepLeavesTheLiving` | server/src/sessions/sessionManager.ts:109-117 | exactly the sessions that are not expired remain, unchanged, with both maps inverse |
| `Sessions.OnlyExpiredAreNotified` | server/src/sessions/sessionManager.ts:119-126 | a sweep notifies only peers of sessions that it removes |
| `Sessions.SessionManager.CreateSession` | server/src/sessions/sessionManager.ts:36-66 | the first unused id and code are taken and both maps extended |
| `Sessions.SessionManager.GetById` | server/src/sessions/sessionManager.ts:68-75 | an expired session is destroyed and not returned |
| `Sessions.SessionManager.ResolvePairingCode` | server/src/sessions/sessionManager.ts:77-81 | lookup through the code map |
| `Sessions.SessionManager.JoinAsReceiver` | server/src/sessions/sessionManager.ts:87-90 | receiver set and session consumed, nothing else |
| `Sessions.SessionManager.FindSessionBySocket` | server/src/sessions/sessionManager.ts:92-98 | the first session in insertion order that the socket plays a role in |
| `Sessions.SessionManager.DestroySession` | server/src/sessions/sessionManager.ts:100-106 | the session leaves both maps |
| `Sessions.SessionManager.SweepExpired` | server/src/sessions/sessionManager.ts:109-117 | deleting while iterating is the fold over the ids present at the start |
| `Relay.ReachableIsValid` | server/src/sessions/sessionManager.ts:33-34 | in every reachable state both maps are inverse, every session has a sender, and it is consumed exactly while it has a receiver |
| `Relay.RelayIsolation` | server/src/signaling/relay.ts:168-201 | in every run, what is relayed from s to t: both are the two roles of one stored session that s named, and its receiver entered with the pairing code or the token before expiry and has stayed since |
| `Relay.RelayedMeansLinked` | server/src/signaling/relay.ts:168-201 | whatever is relayed goes through a stored session that has both its ends |
| `Relay.NoticeMeansUnlinked` | server/src/signaling/relay.ts:203-218 | whoever is told that the peer left, or that the session expired in a sweep, is told about a session that is not linked any more |
| `Relay.SenderGoneUnlinks` | server/src/signaling/relay.ts:211-214 | when the sender's socket closes its session is gone |
| `Relay.LinkStaysLost` | server/src/signaling/relay.ts:143-152 | over any run, a session once not linked stays so unless somebody joins it |
| `Relay.ReceiverEntered` | server/src/signaling/relay.ts:121-152 | for every present receiver, the join that let it in |
| `Relay.AdmissionPresents` | shared/src/schemas.ts:56-65 | an admitted request presents the session's code, or its id and token, before it expires, to a session without receiver |
| `Relay.AdmittedIff` | server/src/signaling/relay.ts:121-152 | a join enters a session if and only if the payload is valid, its code (or id) and token, as far as looked at, are the session's, the session is unexpired and has no receiver |
| `Relay.TokenAdmitsAgain` | server/src/signaling/relay.ts:143-152 | create, join, disconnect, join: the same token admits a second receiver |
| `Relay.JoinsAlternateWithDepartures` | server/src/signaling/relay.ts:147-218 | successful joins of a session strictly alternate with departures of its receiver |
| `Relay.DisconnectCleansUpIff` | server/src/signaling/relay.ts:203-219 | after a disconnect the socket has no role left if and only if it had one in at most one session |
| `Relay.DisconnectLeavesDeadSender` | server/src/sessions/sessionManager.ts:92-98 | a run after which a stored session has a sender that is gone |
| `Relay.SignalingRelay.HandleJoinSession` | server/src/signaling/relay.ts:121-166 | store and messages after the call are those of the join step |
| `Relay.SignalingRelay.HandleSignal` | server/src/signaling/relay.ts:168-201 | messages are those of the signal step; the store stays |
| `Relay.SignalingRelay.HandleDisconnect` | server/src/signaling/relay.ts:203-219 | store and messages after the call are those of the disconnect step |
| `Relay.SignalingRelay.HandleCreateSession` | server/src/signaling/relay.ts:98-119 | store and messages after the call are those of the create step for the draws taken |
| `IceCandidates.EachCandidateOnceInOrder` | client/src/services/webrtc/PeerConnectionManager.ts:116-131 | under any interleaving: nothing is handed over before the description is set, received = handed over + waiting, each once, early ones and late ones each in arrival order |
| `IceCandidates.PeerConnectionManager.AddRemoteIceCandidate` | client/src/services/webrtc/PeerConnectionManager.ts:125-131 | kept before the description, handed over after it |
| `IceCandidates.PeerConnectionManager.OnDescriptionSet` | client/src/services/webrtc/PeerConnectionManager.ts:117-120 | the machine's step: flag set, first kept candidate handed over |
| `IceCandidates.PeerConnectionManager.OnHandedOver` | client/src/services/webrtc/PeerConnectionManager.ts:119-122 | the machine's step: next candidate, or the list cleared |
| `FileNames.SanitizeIsSafe` | shared/src/schemas.ts:90-94 | any input gives 1 to 255 code units without separator and without ".." |
| `FileNames.FixpointIffClean` | shared/src/schemas.ts:90-94 | a name is left alone if and only if it has 1 to 255 code units, no separator, no "..", and is trimmed |
| `FileNames.EndsAgreeIff` | shared/src/schemas.ts:90-94 | sanitizing an already sanitized name changes nothing if and only if the trimmed name is at most 255 code units long or its 255th is no white space |
| `FileNames.EndsDisagree` | shared/src/schemas.ts:90-94 | a name of 256 code units that the second pass changes |
| `FileNames.SingleDotIsRefused` | shared/src/schemas.ts:90-94 | the input that passes the sanitizer and not the schema |
| `FileNames.SchemaAcceptsIff` | shared/src/schemas.ts:12-21 | the schema takes a sanitized name if and only if the input, trimmed, is not "." |

## Left out

- React pages, components, stores as UI state, history, QR scanning: no property of the transfer.
- WebSocket, HTTP, RTCPeerConnection, IndexedDB and file pickers: they appear as channels, event sources and byte stores.
- SHA-256, AES-GCM, base64 and JSON: parameters with their laws, or not modelled.
- Timers (heartbeat, grace period, NAT give-up): no clock; a loss may come at any time, and a scheduled reconnect attempt fires at any later time.
- `SenderSession.SenderSession.ReofferAfterReconnect`: two live file loops are not modelled: when the channels of a new connection open, the interrupted loop is left behind for good, so a user's resume, or a cancel by giving up again, that would wake it while the answer to the re-offer is awaited is not modelled; nor are the sender's own pause and resume buttons, which also set the transfer state (PAUSE and RESUME of the receiver are).
- A receiver that joins the session afresh: the sender offers everything again, to a receiver without state; the runs are those of one receiver, which joins once, so the link between the peers is never restored.
- `ReceiverSession.ReceiverSession.HandleBinary`: the session's dictionary holds the value of each ChunkReceiver, not the object, so sharing between the session and its receivers is not captured; the class ChunkReceiver is proved against the same transition.
- `Sessions.SessionManager.JoinAsReceiver`: sessions are values in the map, so a reference to a session kept after its destruction is not captured.
- `Sessions.SessionManager.CreateSession`: the draws of the generators are given as finite lists, so nothing is said about how long the retry loops run.
- `Relay.SignalingRelay.HandleSignal`: whether the target socket is still open is not modelled, a message counts as sent; schema checks of descriptions and candidates are one flag.
- `IceCandidates.EachCandidateOnceInOrder`: setRemoteDescription is called once and the library rejects no candidate; a rejection would end the flush loop.
- `ChunkPump.RunUninterrupted`: the channel drains whenever the pump waits; a pump waiting for space on a dead channel waits forever, as in the original.
- `abort` of the sinks, checkpoints and the user's chunk-size preference in the sender: nothing in the transfer calls them.
- Rate limiting in front of the relay: the limiter and the relay are proved apart.
