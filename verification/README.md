# commercialRCHproxy: verified core

This Dafny project models the four parts of commercialRCHproxy whose correctness depends on many steps together,
and proves what they keep. They meet at the job directory.

1. **Stream framing.** An incremental framer turns one direction of a TCP stream into length-prefixed frames with an
   XOR block check and standalone acknowledgements, resynchronizes after damage and keeps bounded memory. A reference
   scanner that moves one position at a time is the definition; the buffered framer with its multi-byte jumps is proved
   to refine it for every segmentation and every buffer size.
   `rch_bytes`, `byte_xor`, `framing_spec`, `framing_refinement`, `framing_theorems`, `framing_windows`, `framing_passes`,
   `framing_fronts`, `framing_events`, `framing_round_trip`, `framing_reports`, `framing_damage`, `framer_records`,
   `framer`
2. **Parser leases.** Workers compete for a ready job through an advisory lock, a tokenized `.processing` marker, stale
   takeover, private staging and a fenced commit; an operator's reparse is one more actor. It is a transition system in
   which any process may stop between any two file operations.
   `lease_model`, `lease_invariant`, `lease_theorems`, `lease_outputs`, `lease_staleness`, `lease_recovery`
3. **Live capture and spool.** Relay tasks record chunks and drain marks under the availability-first policy; one worker
   writes them through a bounded queue into hidden staging and publishes atomically under an allocated code.
   `captured_job`, `timeline_lookup`, `live_spool`, `live_spool_capture`, `recorder_model`, `recorder_invariant`,
   `recorder_theorems`, `recorder_queue`, `recorder`, `publication`, `decimals`, `code_allocation`
4. **Receipt assembly.** Classified request commands become receipt documents under one semantic budget, and response
   counters number them by ordinal correlation.
   `printed_amounts`, `receipt_model`, `receipt_invariant`, `receipt_records`, `receipt_contents`, `receipt_frames`,
   `receipt_endings`, `receipt_order`, `receipt_correlation`, `receipt_theorems`, `receipt_assembler`, `request_frames`

Objects that the program updates in place are classes (`RCHStreamFramer`, `CapturedJob`, `LiveSpoolCapture`,
`JobCaptureManager`, `RawSpoolStorage`, `SemanticBudget`, `DocumentAssembler`). Each method equates the new state with a
specification function of the old one; the theorems are about those functions. A SHA-256 digest is an ideal hash,
represented by the hashed content itself. Tokens and job ids are fresh.

Three points need an exact statement:

- `docs/STREAM_REASSEMBLY.md` asks for framing that is invariant under segmentation. Frames are
  (`FramingTheorems.FramesNeverDiffer`). Acknowledgements are not: a malformed header followed by an unfinished header
  that contains an ACK byte gives one more acknowledgement in one piece than in two
  (`FramingTheorems.SegmentationMatters`). Over all buffer sizes the invariance holds exactly for the streams that are
  not `Ambiguous` (`FramingTheorems.SegmentationIndependence`): an ambiguous stream deviates for some buffer size. For
  one framer with its own buffer size the condition is a distance in the stream: it fails if and only if the stream is
  ambiguous and a late ACK lies less than one buffer behind the front (`FramingFronts.FramerIndependence`). The front is
  where a scanner fed byte by byte last stands before it passes the malformed header; it depends on the stream and the
  data limit alone, so it can be computed before the stream is fed, and it lies less than one largest frame before that
  header (`FramingFronts.FrontNearMalformed`).
- `docs/CONFIGURATION.md` bounds parse attempts by the retry count. The attempt counter and the quarantine marker are two
  writes, and a crash between them costs one attempt more (`LeaseRecovery.LostQuarantineCostsARetry`). Without force or
  reparse the documented accounting holds if and only if no quarantine marker was lost since the counter was last dropped
  and no worker is between the two writes (`LeaseTheorems.RetriesExact`).
- The frame ranges of two receipts can interleave (`ReceiptTheorems.RangesCanInterleave`). They are ordered like the
  receipts if and only if no start command takes over a counter query older than the end of the receipt before it
  (`ReceiptOrder.RangesOrderedExactly`). In any case no frame belongs to two receipts.

## Model

| member | source | states |
|---|---|---|
| RchBytes.CalculateBcc | src/commercialrchproxy/rch/framing.py:206-212 | the loop returns the XOR of all bytes |
| FramingTheorems.EventsRefineReference | src/commercialrchproxy/rch/framing.py:312-347 | for every stream, segmentation, buffer size and data limit, the recorded acknowledgements and frames are those of the one-position reference scanner, followed at most by acknowledgements behind the unfinished header that ends the stream, all in its last four bytes |
| FramingTheorems.FramesNeverDiffer | src/commercialrchproxy/rch/framing.py:478-595 | the frames, with offsets and contents, never depend on the segmentation |
| FramingTheorems.SegmentationIndependence | src/commercialrchproxy/rch/framing.py:248-252 | all segmentations with all buffer sizes give the reference events if and only if the stream does not end in an unfinished header that holds an ACK and follows a malformed header; otherwise some buffer size deviates |
| FramingFronts.FramerIndependence | src/commercialrchproxy/rch/framing.py:320-340 | for one framer with its buffer size: all segmentations of a stream give the reference events if and only if the stream is not ambiguous or every late ACK lies at least one buffer behind the front, the place where byte-by-byte feeding last stands before it passes the malformed header |
| FramingFronts.StraddledExactly | src/commercialrchproxy/rch/framing.py:320-340 | some segmentation of a beginning leaves the framer at rest within one buffer of a late ACK with the malformed header still ahead if and only if that distance is less than one buffer: byte-by-byte feeding is the worst case |
| FramingPasses.DrainPasses | src/commercialrchproxy/rch/framing.py:452-467 | from the same place, a buffer with more bytes passes a malformed header that a buffer with fewer bytes passes |
| FramingFronts.FrontNearMalformed | src/commercialrchproxy/rch/framing.py:505-543 | the front lies at the malformed header or less than one largest frame before it |
| FramingWindows.DeviationNeedsOneWindow | src/commercialrchproxy/rch/framing.py:452-467 | any deviation of one framer needs a malformed header and, behind the unfinished header, an ACK less than one buffer apart |
| FramingFronts.WholeStreamFits | src/commercialrchproxy/rch/framing.py:330-336 | for a buffer that holds the whole stream the condition is ambiguity alone |
| FramingTheorems.SegmentationMatters | src/commercialrchproxy/rch/framing.py:452-467 | a concrete stream of eight bytes gives an acknowledgement in one chunk and none in two |
| FramingTheorems.AmbiguousDiffers | src/commercialrchproxy/rch/framing.py:452-467 | every ambiguous stream fed whole to a large enough buffer gives events the reference does not have |
| FramingTheorems.NoFrameSkipped | src/commercialrchproxy/rch/framing.py:446-476 | no position inside a rejected range, jumps included, holds an acceptable frame of the complete stream |
| FramingRefinement.JumpIsHopeless | src/commercialrchproxy/rch/framing.py:452-467 | no position a malformed-header jump passes could begin a frame, whatever bytes follow |
| FramingTheorems.FeedAllTiles | src/commercialrchproxy/rch/framing.py:312-347 | at every moment between feeds, entries tile the consumed stream from 0 to the buffer offset |
| FramingTheorems.FinishTiles | src/commercialrchproxy/rch/framing.py:349-362 | after the end, acknowledgements, frames and rejected ranges tile the whole stream, without gap or overlap |
| FramingRoundTrip.ParseInvertsBuild | src/commercialrchproxy/rch/framing.py:215-244 | parsing a built frame gives back address, class, data and sequence with a valid BCC |
| FramingRoundTrip.PiecesReadBack | src/commercialrchproxy/rch/framing.py:499-595 | any sequence of acknowledgements and byte strings in the shape of a frame, whatever their BCC and under any segmentation, is recovered one by one at its place |
| FramingRoundTrip.RoundTrip | src/commercialrchproxy/rch/framing.py:215-244 | any sequence of acknowledgements and built frames, with arbitrary data bytes and under any segmentation, leaves exactly those entries, each at its place in the stream, and no rejected range |
| FramingRoundTrip.RoundTripRecords | src/commercialrchproxy/rch/framing.py:545-578 | one record per unit, with the running event number; a frame record carries the very fields that were sent, a valid BCC and the number of frames sent so far |
| FramingReports.LedgerIsJustified | src/commercialrchproxy/rch/framing.py:478-595 | for every stream and segmentation each acknowledgement is an ACK byte at its offset, each frame the stream's own bytes in the shape of a frame, and each rejected range has the stated reason in its bytes: no control byte, a header byte that is no digit, a length above the limit, another byte where the ETX belongs, or a stream that ends first |
| FramingDamage.BccDecides | src/commercialrchproxy/rch/framing.py:545-553 | a frame is valid if and only if its two BCC characters are hexadecimal digits of either case that spell the XOR of the bytes before them |
| FramingDamage.OneByteDetected | src/commercialrchproxy/rch/framing.py:545-553 | one changed byte between the STX and the ETX of a built frame makes it invalid, with the one exception of a BCC letter in the other case |
| FramingDamage.DamageUndetected | src/commercialrchproxy/rch/framing.py:206-212 | changes before the BCC go undetected if and only if the XOR of all differences is zero |
| FramingDamage.DocumentedFrame | docs/RCH_PROTOCOL_FINDINGS.md:49-62 | the frame worked out in the documentation is valid and carries its documented fields |
| FramingEvents.NumberedOfEvents | src/commercialrchproxy/rch/framing.py:555-578 | event and frame numbers depend on the events alone, so equal events give equal records |
| StreamFramer.RCHStreamFramer.Consume | src/commercialrchproxy/rch/framing.py:367-375 | takes the first bytes off the buffer, moves the offset by as many and leaves the rest |
| StreamFramer.RCHStreamFramer.Issue | src/commercialrchproxy/rch/framing.py:377-397 | records a rejected range of that length at the offset, or counts it as omitted, and keeps the whole invariant |
| StreamFramer.RCHStreamFramer.RejectCandidate | src/commercialrchproxy/rch/framing.py:469-476 | skips to the next control byte, or to the next plausible one for a malformed header |
| StreamFramer.RCHStreamFramer.Judge | src/commercialrchproxy/rch/framing.py:505-543 | decides the front of the buffer as the position classification does |
| StreamFramer.RCHStreamFramer.TakeAck | src/commercialrchproxy/rch/framing.py:492-497 | consumes one acknowledgement and records it |
| StreamFramer.RCHStreamFramer.CountAckRun | src/commercialrchproxy/rch/framing.py:484-491 | past the event limit a whole run of acknowledgements is counted at once with the same final state as one by one |
| StreamFramer.RCHStreamFramer.TakeFrame | src/commercialrchproxy/rch/framing.py:545-595 | consumes an accepted frame, numbers it, and reports a wrong BCC |
| StreamFramer.RCHStreamFramer.Process | src/commercialrchproxy/rch/framing.py:478-595 | the loop drains the buffer as specified and, at the end of the stream, turns what is left into one truncated range |
| StreamFramer.RCHStreamFramer.Feed | src/commercialrchproxy/rch/framing.py:312-347 | feeds a chunk slice by slice through the bounded buffer; returns the new events; a finished framer refuses |
| StreamFramer.RCHStreamFramer.FinishStream | src/commercialrchproxy/rch/framing.py:349-362 | ends the stream; calling it again changes no event |
| StreamFramer.RCHStreamFramer.FinalizeOmittedIssues | src/commercialrchproxy/rch/framing.py:405-421 | replaces the last retained issue by a summary if any was omitted, within the issue limit |
| StreamFramer.FrameChunks | src/commercialrchproxy/rch/framing.py:601-618 | framing a whole stream in any chunks: byte, frame and acknowledgement totals, tiling, retained events as a prefix of the numbered ones, complete issue list when none was omitted, otherwise the first ones and a summary at the end of the stream, retained plus omitted issues are exactly the diagnoses plus the event-limit notice, agreement with the reference unless ambiguous |
| StreamFramer.FrameUndamaged | src/commercialrchproxy/rch/framing.py:215-362 | undamaged traffic within the event limit comes back record by record from the framer in any segmentation, with no issue, none omitted and no truncation |
| StreamFramer.FrameDamaged | src/commercialrchproxy/rch/framing.py:545-595 | with one damaged byte in a stream every other record is what was sent, the damaged frame's record is invalid, and there is exactly one issue, a bad BCC on that frame |
| LeaseInvariant.StepKeeps | src/commercialrchproxy/parser/worker.py:346-429 | every step of every actor, crashes included, keeps the lease invariant: an uncommitted current token implies that no acceptance marker exists |
| LeaseInvariant.ClaimKeeps | src/commercialrchproxy/parser/worker.py:346-408 | claiming, with stale takeover, sweeping of orphan staging, forced clearing and marker creation, keeps it |
| LeaseInvariant.CommitKeeps | src/commercialrchproxy/parser/worker.py:798-877 | every single operation inside the commit keeps it |
| LeaseInvariant.FailKeeps | src/commercialrchproxy/parser/worker.py:745-795 | recording a failure under the lock keeps it |
| LeaseInvariant.EndKeeps | src/commercialrchproxy/parser/worker.py:946-968 | clean-up of private staging and the release of the claim keep it |
| LeaseInvariant.ReparseKeeps | src/commercialrchproxy/tools/reparse.py:222-236 | invalidating the marker before moving the outputs to the backup keeps it |
| LeaseTheorems.AcceptedOutputsInPlace | src/commercialrchproxy/parser/worker.py:798-877 | in every reachable state a present .parsed names the outputs actually in place, under crashes, takeover, force and reparse |
| LeaseTheorems.DisplacedForever | src/commercialrchproxy/parser/worker.py:142-158 | fencing: a displaced token stays displaced, and no later step of its worker changes outputs, .parsed, attempts, quarantine or another marker |
| LeaseTheorems.CommitsAtMostOnce | src/commercialrchproxy/parser/worker.py:393-408 | without force or reparse a job commits at most once and stays accepted |
| LeaseTheorems.RetriesExact | src/commercialrchproxy/parser/worker.py:745-795 | without force or reparse: at most retries + 1 attempts, with quarantine exactly when they are used, if and only if no quarantine marker was lost since the counter was last dropped and no worker is between counting and quarantining |
| LeaseTheorems.RetriesBounded | src/commercialrchproxy/parser/worker.py:758-782 | attempts never exceed retries + 1 plus the lost markers, and once one is lost they equal retries plus the lost markers, plus one when quarantined or about to be |
| LeaseTheorems.GapsAreLostMarkers | src/commercialrchproxy/parser/worker.py:768-781 | the ledger of lost markers counts the stops between the two writes since the counter was last dropped |
| LeaseOutputs.OnlyRecognisedMovesIn | src/commercialrchproxy/parser/worker.py:798-877 | in every run the outputs that replace the old ones are those the parse expects, with their hashes |
| LeaseStaleness.TakenOverOnlyWhenAbandoned | src/commercialrchproxy/parser/worker.py:375-386 | in every run a marker disappears or changes hands only by its owner, or when it was not touched for the configured time |
| LeaseStaleness.AgeDecides | src/commercialrchproxy/parser/worker.py:379-386 | a worker that meets a marker is turned away exactly if the marker is younger than the configured time and may displace it exactly if not; the reparse tool waits likewise |
| LeaseStaleness.YoungLeaseIsKept | src/commercialrchproxy/parser/worker.py:411-420 | a worker whose marker never reaches the configured age keeps its lease until it releases it, in every run |
| LeaseStaleness.HeartbeatRenews | src/commercialrchproxy/parser/worker.py:411-420 | a heartbeat keeps the lease young for the whole configured time |
| LeaseRecovery.NoCrashWedgesTheJob | src/commercialrchproxy/parser/worker.py:379-408 | from every reachable unfinished state with a free lock, at every time from the configured age of the marker on, a new worker can take the lease without waiting and accept any valid outputs it produces; the job ends accepted, with no claim, staging directory, attempt counter or quarantine marker left |
| LeaseRecovery.FailedMoveRestores | src/commercialrchproxy/parser/worker.py:830-862 | a commit that cannot move its outputs in puts the old ones back and leaves the directory as it was |
| LeaseRecovery.FailureReleases | src/commercialrchproxy/parser/worker.py:745-795 | a failure is counted, the last one quarantines the job, and the worker leaves neither staging nor claim behind |
| LeaseRecovery.ForcedClaim | src/commercialrchproxy/parser/worker.py:393-394 | a forced worker takes the lease of an accepted or quarantined job too and starts its accounting afresh |
| LeaseRecovery.ReparseReopens | src/commercialrchproxy/tools/reparse.py:222-236 | the reparse tool withdraws the acceptance and moves the old outputs to the backups |
| LeaseRecovery.LostQuarantineCostsARetry | src/commercialrchproxy/parser/worker.py:758-782 | a concrete ordinary run that reaches retries + 2 attempts |
| CapturedJobs.AppendKeepsInv | src/commercialrchproxy/capture/jobs.py:83-153 | stored bytes stay a prefix of the observed ones per direction and jointly within the payload limit; retained events tile a prefix of each direction, all of it unless the event limit was hit |
| CapturedJobs.MarkKeepsInv | src/commercialrchproxy/capture/jobs.py:155-178 | a drain mark keeps it |
| CapturedJobs.CapturedJob.Append | src/commercialrchproxy/capture/jobs.py:83-153 | counters, buffers, events and flags become what the specification says |
| CapturedJobs.CapturedJob.MarkLocalWriteDrain | src/commercialrchproxy/capture/jobs.py:155-178 | the mark reaches exactly the event of the token; a completed drain adds the token's bytes to its direction and nothing else; an incomplete one sets the failed status |
| CapturedJobs.CapturedJob.Finish | src/commercialrchproxy/capture/jobs.py:180-193 | the final transport status: as stated, else failed, else complete exactly when both directions drained all they captured, else unconfirmed |
| TimelineLookup.RequestEventsTile | src/commercialrchproxy/parser/worker.py:513-521 | the request events of a captured timeline tile the request bytes in file order |
| TimelineLookup.EventForOffset | src/commercialrchproxy/parser/worker.py:524-533 | returns the first covering event, otherwise the first later one, and fails exactly when there is neither |
| TimelineLookup.LookupFindsTheReceiveEvent | src/commercialrchproxy/parser/worker.py:524-533 | with a complete timeline the lookup of any request offset finds the only covering event, the one whose chunk brought that byte |
| LiveSpool.FlushKeeps | src/commercialrchproxy/storage/spool.py:229-243 | flushing keeps pending and skipped as a partition of the range from next to maximum, loses and repeats nothing, and a forced one leaves nothing |
| LiveSpool.AppendKeeps | src/commercialrchproxy/storage/spool.py:165-196 | a contiguous event with a matching record is accepted: its bytes go to its direction, its record to the end of the timeline to come |
| LiveSpool.AcceptedExactly | src/commercialrchproxy/storage/spool.py:165-196 | an event is accepted exactly if the capture is open, it is the next one and its record, if any, is its own; a late one changes nothing, one with a wrong record has only reached its RAW file |
| LiveSpool.DrainKeeps | src/commercialrchproxy/storage/spool.py:198-216 | a drain mark completes the record it names if still pending and changes no other |
| LiveSpool.CloseWritesEverything | src/commercialrchproxy/storage/spool.py:245-255 | after closing nothing is pending or skipped and the timeline is complete and strictly ascending |
| LiveSpool.EveryEventOnceInOrder | src/commercialrchproxy/storage/spool.py:165-255 | for every order of drain marks the closed files hold each direction's bytes and every retained event once, in strictly increasing sequence order |
| LiveSpoolCaptures.LiveSpoolCapture.Append | src/commercialrchproxy/storage/spool.py:165-196 | the method does what the specification says, including the four rejections, and hashes and sizes follow the files |
| LiveSpoolCaptures.LiveSpoolCapture.MarkLocalWriteDrain | src/commercialrchproxy/storage/spool.py:198-216 | the same for drain marks, ignored when the event is not pending |
| LiveSpoolCaptures.LiveSpoolCapture.FlushReadyTimeline | src/commercialrchproxy/storage/spool.py:229-243 | the loop computes the specified flush and terminates |
| LiveSpoolCaptures.LiveSpoolCapture.SyncAndClose | src/commercialrchproxy/storage/spool.py:245-255 | closing writes everything that was still to come |
| RecorderModel.QueueItems | src/commercialrchproxy/capture/recorder.py:54-57 | between 1 and 256 places, and within the byte budget unless a single buffer exceeds it |
| RecorderInvariant.RecordKeeps | src/commercialrchproxy/capture/recorder.py:94-153 | recording keeps the invariant, whether the command is queued, dropped or not offered |
| RecorderInvariant.MarkKeeps | src/commercialrchproxy/capture/recorder.py:155-183 | a drain mark keeps it |
| RecorderInvariant.NeverRejected | src/commercialrchproxy/capture/recorder.py:292-315 | the worker's commands are never rejected by the staging writer; only storage can fail |
| RecorderInvariant.PerformKeeps | src/commercialrchproxy/capture/recorder.py:292-315 | performing a command keeps it |
| RecorderInvariant.DrainedIsComplete | src/commercialrchproxy/capture/recorder.py:281-291 | an empty queue without a drop or failure means staging holds all stored bytes and the job's records with their marks |
| RecorderInvariant.StepKeeps | src/commercialrchproxy/capture/recorder.py:248-363 | every step keeps it, in any interleaving of relay, worker, failures and crash |
| RecorderTheorems.PublishedOnlyComplete | src/commercialrchproxy/capture/recorder.py:274-317 | RAW files are always prefixes of the observed bytes; a published job holds exactly the stored bytes and retained events; its manifest says complete if and only if nothing was cut off or left out |
| RecorderTheorems.LostForever | src/commercialrchproxy/capture/recorder.py:201-232 | after a dropped command, a storage failure or a crash an unpublished job is never published |
| RecorderTheorems.StreamingEqualsArchive | src/commercialrchproxy/storage/spool.py:498-575 | the streaming writer publishes the bytes, the records and the completeness the one-shot archive has after the same calls |
| RecorderTheorems.WorkerPublishes | src/commercialrchproxy/capture/recorder.py:248-291 | from every finalized state without drop, failure or crash the worker's own steps publish the job |
| RecorderQueue.OfferSettles | src/commercialrchproxy/capture/recorder.py:201-232 | an offered chunk or drain mark becomes exactly one command at the end of the queue, which tells what was received or marked, or, with a full queue, degrades the capture and marks its evidence incomplete |
| RecorderQueue.DegradedExactlyWhenFull | src/commercialrchproxy/capture/recorder.py:201-232 | in every run a capture is degraded exactly when a command is offered to a full queue |
| RecorderQueue.LossIsFlagged | src/commercialrchproxy/capture/recorder.py:319-363 | in every run a capture has failed exactly if storage failed on the way, and one that failed or was degraded says that bytes and events may be missing |
| RecorderQueue.OrdinaryCapturePublishes | src/commercialrchproxy/capture/recorder.py:248-317 | a run that received something, with room in the queue at every offer and without storage failure or crash, leads by finalization and the worker's own steps to the publication of everything stored |
| RecorderQueue.EventsTellCalls | src/commercialrchproxy/capture/jobs.py:125-139 | every event of the job, and so every published record, has direction, receive time, sequence, both offsets and bytes of the call that received them |
| RecorderQueue.DrainsTellCalls | src/commercialrchproxy/capture/jobs.py:155-178 | every drain mark of an event is the one a mark call gave for its sequence |
| RecorderQueue.MarkIsRecorded | src/commercialrchproxy/capture/recorder.py:155-183 | a mark call on an event of the open connection is recorded on that event |
| Recorders.JobCaptureManager.Record | src/commercialrchproxy/capture/recorder.py:94-153 | the method is the model's record step and returns its token, none for empty data or after closing |
| Recorders.JobCaptureManager.EnqueueStream | src/commercialrchproxy/capture/recorder.py:201-232 | a full queue degrades the capture and flags the job instead of waiting |
| Recorders.JobCaptureManager.MarkLocalWriteDrain | src/commercialrchproxy/capture/recorder.py:155-183 | the method is the model's mark step |
| Recorders.JobCaptureManager.Finalize | src/commercialrchproxy/capture/recorder.py:401-415 | the method is the model's finalize step |
| SpoolPublication.LivePublishes | src/commercialrchproxy/storage/spool.py:257-307 | finalization turns closed staging into exactly the complete directory |
| SpoolPublication.ArchivePublishes | src/commercialrchproxy/storage/spool.py:498-575 | the one-shot archive builds the same directory from an empty one |
| SpoolPublication.NothingVisibleBeforeTheRename | src/commercialrchproxy/storage/spool.py:659-715 | for every crash point the parser discovers the job only after the final rename; then no partial file is inside and loading returns the captured bytes, or the size-limit error exactly when they exceed it |
| SpoolPublication.LoadsExactlyTheAuthentic | src/commercialrchproxy/storage/spool.py:675-715 | a directory loads exactly if its marker, manifest and three artifacts authenticate each other under its own code within the size limit, and gives just what it holds |
| SpoolPublication.DamagedJobIsRejected | src/commercialrchproxy/storage/spool.py:675-715 | a published job of which any single file was changed or lost is never loaded |
| SpoolPublication.CaptureReachesParser | src/commercialrchproxy/storage/spool.py:675-715 | a published live capture loads as the bytes and events that the relay recorded |
| Decimals.FormatRoundTrip | src/commercialrchproxy/storage/counter.py:61-62 | a zero-padded code determines its number, so different counter values give different codes |
| CodeAllocation.RawSpoolStorage.Allocate | src/commercialrchproxy/storage/counter.py:44-69 | hands out the counter's code and moves on by one, or fails and leaves the counter |
| CodeAllocation.RawSpoolStorage.AllocateUnused | src/commercialrchproxy/storage/spool.py:421-429 | the skip-used loop terminates with the specified code or error |
| CodeAllocation.RawSpoolStorage.PrepareCapture | src/commercialrchproxy/storage/spool.py:400-443 | reserves an automatic or explicit code and creates its staging directory, or changes no directory |
| CodeAllocation.FewerAhead | src/commercialrchproxy/storage/spool.py:424-429 | skipping a used code leaves strictly fewer used codes ahead of the counter |
| CodeAllocation.AutomaticCodeIsFirstFree | src/commercialrchproxy/storage/spool.py:421-429 | from the counter's number, or the configured start while there is no counter file, the code is the smallest unused one not below it, and the counter moves just past it; failure only when all printable ones are used |
| CodeAllocation.UnusableCounterFails | src/commercialrchproxy/storage/counter.py:50-62 | from a corrupt, negative or unprintable counter an automatic capture fails and changes nothing |
| CodeAllocation.ExplicitCode | src/commercialrchproxy/storage/spool.py:400-443 | an imported code is taken exactly if it is a code of this printer and unused |
| CodeAllocation.CodesStayUnique | src/commercialrchproxy/storage/spool.py:400-484 | from any spool without shared codes, no two capture directories of a printer, staging or final, ever come to share a code, whatever happens to the counter |
| PrintedAmounts.AmountRoundTrip | src/commercialrchproxy/rch/receipt_parser.py:92-107 | reading a formatted amount gives back the cents, for every integer |
| PrintedAmounts.AmountAsPrinted | src/commercialrchproxy/rch/receipt_parser.py:98-107 | so is an amount with white space around it, grouping dots anywhere inside or an explicit plus |
| ReceiptInvariant.ManagementFair | src/commercialrchproxy/rch/receipt_parser.py:578-673 | a management line is charged exactly the records it adds, within the limit |
| ReceiptInvariant.SaleFair | src/commercialrchproxy/rch/receipt_parser.py:676-753 | the same for items, totals and texts |
| ReceiptInvariant.FinishKeeps | src/commercialrchproxy/rch/receipt_parser.py:873-893 | finishing the active document, or dropping it at the limit, keeps budget, ownership and lifecycle |
| ReceiptInvariant.OpenPendingKeeps | src/commercialrchproxy/rch/receipt_parser.py:918-924 | a remembered counter query may open the next document although others came between |
| ReceiptInvariant.ProcessKeeps | src/commercialrchproxy/rch/receipt_parser.py:895-1033 | every request frame keeps the invariant |
| ReceiptTheorems.BudgetConserved | src/commercialrchproxy/rch/receipt_parser.py:132-165 | the budget never exceeds its limit and equals the derived records over all builders, dropped ones included |
| ReceiptTheorems.DocumentsOwnDisjointFrames | src/commercialrchproxy/rch/receipt_parser.py:861-1036 | frame ids rise inside a document, no frame belongs to two, documents come in the order of their last frames |
| ReceiptTheorems.LifecycleIsAPath | src/commercialrchproxy/rch/receipt_parser.py:475-553 | each transition log is a connected path of allowed edges from idle to complete or incomplete; complete only if the last frame is the kind's closing command; incomplete exactly if reported so |
| ReceiptFrames.DocumentsAreShaped | src/commercialrchproxy/rch/receipt_parser.py:895-1033 | every receipt is an opening, what may follow, and a closing frame exactly if it is complete, all in the request profile; its offsets are those of its first and last frame, and it complains about a missing beginning or end |
| ReceiptFrames.NoCommandIsLost | src/commercialrchproxy/rch/receipt_parser.py:895-1033 | every sale, start, boundary and printed line of the stream is in some document, kept or dropped by the limit, and documents hold frames of the stream only |
| ReceiptEndings.DocumentsEndInState | src/commercialrchproxy/rch/receipt_parser.py:507-553 | each log ends with the step out of the state that the document's own frames led to, at its last frame |
| ReceiptEndings.DocumentLimitKept | src/commercialrchproxy/rch/receipt_parser.py:873-893 | no more documents than the limit are kept and one is dropped only when it is reached; the issues are those of the kept documents in their order and behind them one notice for the first document dropped |
| ReceiptRecords.RecordsAreCommands | src/commercialrchproxy/rch/receipt_parser.py:578-753 | a receipt's records are exactly what the commands in its own frames call for, in frame order, if the budget refused nothing; otherwise each list leaves out elements and adds or moves none |
| ReceiptRecords.CommercialContent | src/commercialrchproxy/rch/receipt_parser.py:676-753 | for a commercial receipt these are one total and one payment with the cents of each total command, and one item for each item command |
| ReceiptRecords.FirstRefusalNamed | src/commercialrchproxy/rch/receipt_parser.py:147-165 | the budget's refusal names the frame whose records were refused first, whatever comes later |
| ReceiptContents.RecordsAgree | src/commercialrchproxy/rch/receipt_parser.py:578-753 | in every receipt items and descriptions go in pairs; a commercial one has a payment of the same amount for each total, and its amounts are exactly those of its items and totals; a managerial total has its own amount exactly if its line printed one |
| ReceiptTheorems.RangesCanInterleave | src/commercialrchproxy/rch/receipt_parser.py:904-924 | a concrete stream whose second receipt starts before the first |
| ReceiptOrder.DocumentsTrail | src/commercialrchproxy/rch/receipt_parser.py:904-924 | a receipt begins after all earlier ones ended, unless it begins with a counter query that its start command took over; then that start comes after they ended |
| ReceiptOrder.RangesOrderedExactly | src/commercialrchproxy/rch/receipt_parser.py:918-924 | the frame ranges of all receipts are disjoint and in order if and only if no start command takes over a counter query older than the end of the receipt before it |
| ReceiptCorrelation.AnswersDiffer | src/commercialrchproxy/rch/receipt_parser.py:1045-1081 | ordinal correlation answers different requests with different responses |
| ReceiptCorrelation.AnswerIsAtSamePosition | src/commercialrchproxy/rch/receipt_parser.py:1039-1081 | the answer to a request is the response at the same position, exactly if it has the response profile and a counter and its sequence digit is two below the request's |
| ReceiptCorrelation.PairedByPosition | src/commercialrchproxy/rch/receipt_parser.py:1062-1081 | each correlation pairs a request with the acknowledgement and the response at its own position, and its verdict compares the two sequence digits |
| ReceiptCorrelation.IssuesAreDisagreements | src/commercialrchproxy/rch/receipt_parser.py:1082-1137 | the issues are exactly the disagreements: a request without acknowledgement or response at its position, a contradicting sequence, a response or acknowledgement without a request |
| ReceiptCorrelation.CorrelateDirections | src/commercialrchproxy/rch/receipt_parser.py:1045-1137 | pairs the lists by position and returns the first issues of all disagreements, up to the limit |
| ReceiptCorrelation.CountersCharge | src/commercialrchproxy/rch/receipt_parser.py:1191-1217 | each attached counter takes exactly four units, refused ones none |
| ReceiptTheorems.NumberAnswersOwnQuery | src/commercialrchproxy/rch/receipt_parser.py:1150-1197 | a number belongs to a complete commercial receipt and answers a query sent after its payment, and no later query of the receipt was answered |
| ReceiptTheorems.NumberedExactlyWhenReplied | src/commercialrchproxy/rch/receipt_parser.py:1150-1194 | a receipt is numbered if and only if it is complete and commercial, a counter query after one of its payments has a reply at its position in the stream, and four units of the budget are left at its turn |
| ReceiptTheorems.CounterNumbersOneDocument | src/commercialrchproxy/rch/receipt_parser.py:1140-1217 | no response frame's counter numbers two documents |
| ReceiptTheorems.CountersAreCharged | src/commercialrchproxy/rch/receipt_parser.py:1194-1217 | over assembly and numbering the budget is the records plus four for every counter |
| ReceiptAssemblers.SemanticBudget.Reserve | src/commercialrchproxy/rch/receipt_parser.py:147-165 | grants within the limit, otherwise remembers only the first refusal |
| ReceiptAssemblers.SemanticBudget.TakeAmounts | src/commercialrchproxy/rch/receipt_parser.py:556-575 | the loop reads amounts until the budget is used up |
| ReceiptAssemblers.DocumentAssembler.ApplyManagementLine | src/commercialrchproxy/rch/receipt_parser.py:578-673 | adds the line, its amounts and what the line means, as charged |
| ReceiptAssemblers.DocumentAssembler.ApplyCommercialItem | src/commercialrchproxy/rch/receipt_parser.py:676-708 | adds all records of an item or none |
| ReceiptAssemblers.DocumentAssembler.ApplyCommercialTotal | src/commercialrchproxy/rch/receipt_parser.py:711-753 | adds all records of a total or none and moves to the payment state either way |
| ReceiptAssemblers.DocumentAssembler.Process | src/commercialrchproxy/rch/receipt_parser.py:895-1033 | one request frame is handled as specified |
| ReceiptAssemblers.DocumentAssembler.ParseDocuments | src/commercialrchproxy/rch/receipt_parser.py:861-1036 | the whole scan yields the specified documents, issues and budget |
| ReceiptAssemblers.FindCandidate | src/commercialrchproxy/rch/receipt_parser.py:1153-1193 | the loop finds the last answered query after a payment |
| ReceiptAssemblers.AttachResponseCounters | src/commercialrchproxy/rch/receipt_parser.py:1140-1217 | the loop numbers the documents as specified |
| RequestFrames.FrameIdsRise | src/commercialrchproxy/rch/framing.py:555-566 | the framer's frame ids rise in every retained prefix of its events, which is what receipt assembly relies on |
| RequestFrames.ReceiptsOfStream | src/commercialrchproxy/rch/receipt_parser.py:861-1036 | for every request byte stream, segmentation and classification the receipts own disjoint frames within the budget |
| RequestFrames.TrafficReachesAssembly | src/commercialrchproxy/rch/receipt_parser.py:861-902 | undamaged requests reach assembly frame by frame: numbered, at their place in the stream, with their header and the classification of their data, under every segmentation |

## Left out

- Lease workers and the reparse tool are a transition system over values, not objects: their interleavings and crashes are the subject, and each action is one file operation. Updates of directories in place are therefore map updates.
- The live worker is likewise a set of steps over values; the relay side of the recorder is a class.
- Publication is a list of file operations, so that a crash can fall between any two of them.
- The storage policy `abort`: there the awaited queue can be cancelled after the job counted the bytes, and completeness does not hold.
- Chunk copies, directory scans, removal of a directory tree and atomic writes are single steps; temporary files of atomic writes, `fsync` and the saved `.processing.stale` marker do not appear.
- What a timeline file holds after an interrupted write is not modelled; RAW files are.
- Receipt builders are values inside the assembler, replaced on every change, instead of shared mutable objects.
- Regular expressions, text decoding, JSON, time stamps and rendering: classified commands, structured records and one payload text are the starting point.
- Receipt metadata that carries no budget (order, currency, change, printed reference, styles, subtypes) and the bounding of the overall issue list.
- The staging of a capture has a non-empty job id in its name, as the generated ids have.
- Symbolic-link and path checks, file size limits of small state files, and configuration checks.
- Issue texts; the framer's issues keep code, offset and length, and of the preview its length.
- Sockets, pumps, session timeouts, server, health, metrics, logging, inotify, the legacy archive, PDF and XML.
- LeaseTheorems.RetriesBounded: allows one attempt more for each quarantine marker lost in a crash, because the program does.
- FramingTheorems.EventsRefineReference: allows late acknowledgements on ambiguous streams, because the program emits them.
- StreamFramer.RCHStreamFramer.Feed: the branch for a buffer without room is proved unreachable and therefore absent.
