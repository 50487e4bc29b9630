# Agent Herder: models of its durable stores and protocols

Agent Herder is a daemon that must not do the same external thing twice and must not lose what it promised to
keep. It is built from small durable stores and protocols, where the process may stop between any two awaits.
This project models fourteen of them in Dafny and proves what they promise. Run
`dafny verify dfyconfig.toml` to verify it.

## How the models are built

A store or protocol is modelled twice. First as values: the disk, the memory and the environment are one
`World`, every step between two awaits (or every locked section) is a function on it, and a run is any sequence of
steps, with failing writes, crashes and restarts among them. The theorems are about all runs. Second, where the
source changes things in place, as a class or a loop: its methods are proved equal to the functions, so the
theorems apply to them.

| files | source | main theorems |
|---|---|---|
| `EventJournal`, `EventCodecWitness` | `src/herder-events.ts` | a torn, compacted, replayed journal refines an unbounded history |
| `CadenceScheduler` | `src/cadence-scheduler.ts` | each input is submitted at most once; wake times stay bounded |
| `BrowserWorker`, `BrowserWake` | `src/browserclaw-worker.ts`, `src/browser-wake.ts` | two ledgers and lossy messages: one execution, three dispatches, one receipt |
| `CacheHandoff` | `src/cache-handoff.ts`, `src/lineage-store.ts` | the handoff prompt lands at most once when its record is on disk; the result survives a restart |
| `HerderJobs` | `src/herder-jobs.ts` | a durable-once runner is entered at most once; an unreadable history is held |
| `HumanStop` | `src/human-stop-store.ts` | a held session is cleared only by a release or a newer human prompt |
| `A11ySnapshot`, `A11yStructured` | `src/browserclaw-a11y.ts` | the indentation stack builds the tree; the structured check accepts exactly the fitting ones |
| `DeliveryBudget` | `src/coordination-delivery-budget.ts` | sliding-window bounds with refunds |
| `DeferredMessages` | `src/deferred-messages.ts` | one offer per exact-turn record; regular messages are conserved |
| `CoordinationNotes` | `src/coordination-notes.ts` | no silent overlap, no foreign writes |
| `HistoryArchive` | `src/chatgpt-history-archive.ts` | resumable archives are sound, and pure unless a checkpoint is stranded |
| `LaunchPolicy`, `LaunchDocument` | `src/automation-launch-policy.ts` | the fallback chain; validation as a fixed point; guarded replacement |
| `TranscriptReader` | `src/chatgpt-transcript-reader.ts` | chains of pages read the frozen export |
| `CdpChat` | `src/cdp-chat.ts` | fixture confinement, faithful references, one-shot gates |

`Common`, `KeyedRows` and `Text` hold what several models share.

## Assumptions

- A file lock is mutual exclusion, replacing a file through a temporary one is atomic, and appending to a file may
  stop after any byte.
- SHA-256 is injective, so a digest is modelled as what it was made from; random ids are fresh numbers.
- The JSON encoding of an event obeys two laws of RFC 8259: by section 7 it holds no raw newline, and by section 4 no
  proper prefix of it parses. `EventCodecWitness` shows that the laws can be met.
- Instants are integers in milliseconds. Where a theorem needs a clock that does not go back, its steps refuse
  an earlier time.
- No caller of `create` passes a key of its own note off as that of an automatic lease. The code copies the key
  (`src/coordination-notes.ts:131`), but the note tool has no field for one (`src/mcp/control-plane-tools.ts:86-91`).
- Text is trimmed of blanks, tabs and line ends and lower-cased in the ASCII range.

## Where the code promises less than it seems

Each of these is proved by a concrete input or run, or by an exact condition, next to the condition under which the
code does keep the promise.

- An event with an empty uri is acknowledged and lost at the next restart, unless the flush that acknowledged it
  went on to a compaction that renamed its snapshot (`src/herder-events.ts:192-194`).
- When the final write of a wake fails, a completed receipt is stored in a failed record, which the reader's schema
  rejects (`src/browser-wake.ts:166-181`).
- A retried wake meets the old receipt only if its remaining deadline is the same; otherwise it meets a conflict, and
  a wake that the worker has completed is recorded as rejected for good (`src/browser-wake.ts:139-143`).
- A lineage record is set in memory before it is written (`src/lineage-store.ts:80-86`). When the prepared record of a
  handoff could not be written, the same process sends on retry, and after a restart a second session is sent to; this
  is possible exactly while the record on disk names no session in which the prompt has landed.
- A landed handoff prompt that a hundred newer messages push out of the window is sent again
  (`src/cache-handoff.ts:326-331`). After a restart the kind returned can differ from the one returned before it if the
  record after the send, or after a reconciliation, was not written.
- A completed job is revived by a late report and found interrupted after a restart (`src/herder-jobs.ts:399-406`).
- An older stop that is reported late replaces a newer one and so lets an earlier prompt clear the session; ignoring
  a native stop under an unknown harness, or a shutdown proof with a blank turn, leaves a file that cannot be read
  back (`src/human-stop-store.ts:300-314`, `src/human-stop-store.ts:285-288`).
- The synthetic root of a text snapshot can have the ref of a nested node (`src/browserclaw-a11y.ts:285`).
- A refund that comes more than a day after its send can remove a newer attempt of the same key, which is then sent
  again (`src/coordination-delivery-budget.ts:34`).
- A session id with blanks around it makes a session report its own lease as a conflict
  (`src/coordination-notes.ts:209-217`).
- After another chat was read to its start, or failed midway, an export resumes its checkpoint on the wrong page and
  may complete the archive with the other chat's view (`src/chatgpt-history-archive.ts:526-556`).
- A launch policy can be stored that does not load again: when a kept route drops a harness its preserved fallback
  names, and also when a preserved allow or deny list contradicts the new one. The deny guard is then lost with the
  next replacement (`src/automation-launch-policy.ts:697-726`).
- Message and media ids with a bar share a reference with other ids, so that a download can get the wrong media
  (`src/cdp-chat.ts:663-676`).

## Model

| member | source | states |
|---|---|---|
| `EventJournal.RestoreRefinesHistory` | src/herder-events.ts:162-263 | After any run of publishes with a uri, flushes that succeed or stop after any byte, compactions cut at any of their three stages and restarts, the next restore yields the first n published events for some n at least the last acknowledged flush: sequence numbers 1 to n, the last min(max, n) retained in order, next sequence n+1, each uri's revision its count among those n |
| `EventJournal.AcknowledgedIsForever` | src/herder-events.ts:208-263 | What one flush acknowledged, every later restore still has, with the same content, whatever happens in between |
| `EventJournal.FlushedEventSurvivesIff` | src/herder-events.ts:192-194 | The exact limit of the above: after any run of publishes with a uri, one more event that is flushed and acknowledged is restored if and only if it has a uri, or the same flush went on to a compaction that renamed its snapshot; otherwise the restore is as if it had never been published |
| `EventJournal.EmptyUriIsLost` | src/herder-events.ts:208-263 | On an empty disk: the single acknowledged event is found by the next restore if and only if it has a uri or its row alone reaches the compaction bound and the compaction got past its rename |
| `EventJournal.RestoreIsIdeal` | src/herder-events.ts:162-206 | For every disk that fits a history prefix, restore gives the memory an unbounded history would give, with no duplicate from rows written twice or covered by the snapshot |
| `EventJournal.TornRows` | src/herder-events.ts:188-191 | A journal cut after any byte of a row text still parses to a prefix of the rows written, under the two JSON laws alone |
| `EventJournal.RowsSeparated` | src/herder-events.ts:213-214 | The separator written after a failed flush keeps a torn row from swallowing the next one |
| `EventJournal.FlushedRows` | src/herder-events.ts:212-229 | A flush after a torn one appends exactly the rows of the pending events |
| `EventJournal.RunKeepsInv` | src/herder-events.ts:117-263 | Memory is ideal for the published history, and the disk, read back, is ideal for a prefix of it that covers what was acknowledged: kept by every action |
| `EventJournal.CompactKeepsInv` | src/herder-events.ts:237-263 | A compaction cut before the rename, between rename and truncation, or completed, keeps the disk readable to the same prefix |
| `EventJournal.PublishKeepsIdeal` | src/herder-events.ts:117-128 | Publishing keeps the memory equal to what the whole history determines |
| `EventJournal.PollingReaderMissesNothing` | src/herder-events.ts:149-156 | A reader that polls from the last sequence it saw gets the next events of the history in order, and none is skipped while they are retained |
| `EventJournal.HerderEventBus.constructor` | src/herder-events.ts:109-115 | A new bus over the files holds exactly the restored memory |
| `EventJournal.HerderEventBus.LoadFiles` | src/herder-events.ts:162-206 | Loading snapshot and journal in place equals the specified restore |
| `EventJournal.HerderEventBus.ReplayJournal` | src/herder-events.ts:187-199 | The replay loop over the journal lines, with its set of seen sequences, equals replaying the parsed rows |
| `EventJournal.HerderEventBus.PublishEvent` | src/herder-events.ts:117-134 | Pushes one numbered event, splices the retained list and leaves the files alone |
| `EventJournal.HerderEventBus.PersistPending` | src/herder-events.ts:208-235 | Memory and files after a flush with any outcome are the specified ones |
| `EventJournal.HerderEventBus.CompactJournal` | src/herder-events.ts:237-263 | Memory and files after a compaction cut anywhere are the specified ones |
| `EventCodecWitness.JsonLawsCanBeMet` | src/herder-events.ts:213 | The two laws assumed of the JSON encoding (no raw newline, no code is cut short into another) are met by an actual self-delimiting encoding, so the theorems are not vacuous |
| `CadenceScheduler.NextCadenceIsLater` | src/cadence-scheduler.ts:23-29 | The next wake is strictly later than the instant given and at most 60 minutes later |
| `CadenceScheduler.NextCadenceIsMonotone` | src/cadence-scheduler.ts:23-29 | A later instant never gives an earlier next wake |
| `CadenceScheduler.NextCadenceOpensSlot` | src/cadence-scheduler.ts:23-29 | After the first two hours the next wake opens the next hour that runs from :45 to :45 |
| `CadenceScheduler.AtMostFiveEarlyWakes` | src/cadence-scheduler.ts:23-29 | However late each wake is handled, at most five wakes of a row fall before two hours after activation |
| `CadenceScheduler.OneWakePerSlot` | src/cadence-scheduler.ts:26-28 | Afterwards no two wakes share an hour that runs from :45 to :45 |
| `CadenceScheduler.EachInputSubmittedOnce` | src/cadence-scheduler.ts:80-122 | Over any interleaving of sweepers, schedule, pause and complete calls and crashes, no input id is handed to delivery twice |
| `CadenceScheduler.DispatchHasOneOwner` | src/cadence-scheduler.ts:97-102 | No two sweepers hold the claim of the same dispatching row |
| `CadenceScheduler.RestingForever` | src/cadence-scheduler.ts:73-121 | A row that is unknown, blocked, paused or complete never becomes scheduled or dispatching again |
| `CadenceScheduler.OneLiveCadencePerSession` | src/cadence-scheduler.ts:63-71 | At most one row of a session is scheduled, dispatching or unknown at any time |
| `CadenceScheduler.WakesStayBounded` | src/cadence-scheduler.ts:119-120 | In every run the accepted wakes of a row obey the five-wake and one-per-hour bounds |
| `CadenceScheduler.RunKeepsInv` | src/cadence-scheduler.ts:57-122 | Rows, claims, submissions and wake times stay consistent over every run |
| `CadenceScheduler.CadenceFile.Schedule` | src/cadence-scheduler.ts:57-72 | One schedule call in place: the table and result of the transaction, including every refusal |
| `CadenceScheduler.CadenceFile.ControlRow` | src/cadence-scheduler.ts:73-79 | Pause or complete changes the one row of exact id and session, or refuses |
| `CadenceScheduler.CadenceFile.HoldRow` | src/cadence-scheduler.ts:86-88 | A held session's scheduled row is paused, nothing else changes |
| `CadenceScheduler.CadenceFile.SkipSlot` | src/cadence-scheduler.ts:89-95 | An hourly slot that is busy or a minute late is moved on only if the row still has the listed time |
| `CadenceScheduler.CadenceFile.ClaimRow` | src/cadence-scheduler.ts:97-101 | The claim advances the sequence and forms the input id, or returns nothing |
| `CadenceScheduler.CadenceFile.RevertRow` | src/cadence-scheduler.ts:108-110 | A recheck that is no longer idle gives the claim back in the specified state |
| `CadenceScheduler.CadenceFile.FinishRow` | src/cadence-scheduler.ts:114-121 | The result of a delivery is applied to its own claim only, and a pause in between stays |
| `BrowserWorker.RecordLedger.Put` | src/browserclaw-worker.ts:508-514 | Overwrites or pushes the record of one id, all other records stay |
| `BrowserWorker.RecordLedger.Get` | src/browserclaw-worker.ts:503-506 | Finds the one record of an id |
| `BrowserWorker.BrowserClawWorker.Dispatch` | src/browserclaw-worker.ts:574-605 | One dispatch in place, wherever it stops: conflict, replay, or claim, execution and receipt, with the driver entered only behind a fresh claim |
| `BrowserWake.SideEffectsAreBounded` | src/browserclaw-worker.ts:574-605 | Over any crashes, lost and repeated messages and retries of one id, the driver is entered at most once and the wake is dispatched at most three times |
| `BrowserWake.WorkerReceiptIsFinal` | src/browserclaw-worker.ts:577-602 | Request, receipt reference and acceptance time are fixed at the claim, and a terminal receipt never changes |
| `BrowserWake.CompletedMeansCompleted` | src/browser-wake.ts:144-167 | A completed wake record carries the identical receipt of a completed worker record |
| `BrowserWake.EveryRecordIsReadable` | src/browser-wake.ts:26-48 | With this worker as client and ledger writes that succeed, every record written satisfies the reader's schema |
| `BrowserWake.FailedPutIsReadableIff` | src/browser-wake.ts:156-181 | When the final write fails, the failed record written instead is readable exactly if the receipt at hand is not a completed one |
| `BrowserWake.UnreadableRecordIsReachable` | src/browser-wake.ts:166-181 | A run that leaves such an unreadable record: a completed receipt inside a failed record |
| `BrowserWake.RetryMeetsReceiptIff` | src/browser-wake.ts:139-143 | A repeated dispatch of the same wake meets the old receipt exactly if the remaining deadline it sends equals the one sent first; otherwise the worker answers with a conflict |
| `BrowserWake.RetryEndsCompletedIff` | src/browser-wake.ts:139-182 | What the caller then records: the retry of a wake that the worker completed ends completed if and only if its remaining deadline is that of the first dispatch; otherwise it is failed as rejected, and no later call with the request tries again |
| `BrowserWake.CompletedWorkCanStayFailed` | src/browserclaw-worker.ts:577-580 | A run in which the answer is lost, the retry goes out with a millisecond less and meets the conflict: the worker has completed the wake and its record stays failed for good |
| `BrowserWake.RunKeepsInv` | src/browser-wake.ts:113-185 | Both ledgers, the messages between them and the running calls stay consistent over every run |
| `BrowserWake.BrowserWakeService.Begin` | src/browser-wake.ts:119-135 | The retry decision in place: conflict, the stored record, or a fresh claim with one more attempt |
| `BrowserWake.BrowserWakeService.Attempt` | src/browser-wake.ts:137-183 | The record after an attempt with any answer, deadline or failing write |
| `BrowserWake.BrowserWakeService.Wake` | src/browser-wake.ts:113-185 | One whole call: conflict, existing record, or a fresh claim with the record after each answer; the result is that record exactly if a matching receipt was recorded |
| `CacheHandoff.HandoffAdmittedOnce` | src/cache-handoff.ts:160-332 | With one call at a time, any failing writes, crashes at any await and truthful answers of the harness, and the prepared record on disk before each send that lands, the handoff prompt lands at most once, in one replacement session, and every result names that session |
| `CacheHandoff.CanLandIff` | src/lineage-store.ts:80-86 | The exact condition: after any run with truthful answers, some continuation lands the prompt once more if and only if the record on disk does not name a session in which it has landed |
| `CacheHandoff.SendCanRepeatIff` | src/cache-handoff.ts:232-238 | What one send lands can land a second time if and only if the prepared record was not on disk at the send |
| `CacheHandoff.LostPrepareLandsTwice` | src/lineage-store.ts:80-86 | A failing prepare write stays in memory only, the retry of the same process sends, and after a restart a second session is created and sent to, with truthful answers throughout |
| `CacheHandoff.LandsOncePerSession` | src/cache-handoff.ts:160-332 | Whatever writes fail, no replacement session admits the prompt twice, and every result names a session in which it has landed |
| `CacheHandoff.ResultSurvivesRestart` | src/cache-handoff.ts:249-263 | When the records after an answer are written, every result ever returned is the same, whether or not the process restarted in between or a prepare write failed |
| `CacheHandoff.ResultStaysInProcess` | src/cache-handoff.ts:276-299 | Until the process stops, every further result is the one its store has settled on in memory, even if it could not be written |
| `CacheHandoff.VerdictIsRight` | src/cache-handoff.ts:318-332 | With truthful answers and the prompt inside the last 100 messages, reconciling never calls a landed prompt unsent, nor an unsent one landed |
| `CacheHandoff.LandedPromptIsResentIff` | src/cache-handoff.ts:326-331 | The exact gap: an undecided admission whose prompt landed is sent again exactly if the visible window holds no user message |
| `CacheHandoff.PromptCanLandTwice` | src/cache-handoff.ts:326-331 | A run of true answers, with the record on disk at both sends, in which 100 agent messages push the prompt out of the one transcript that had to decide, and it lands a second time in the same session |
| `CacheHandoff.KindKeptIff` | src/cache-handoff.ts:251-263 | After a final record that could not be written, the result after a restart equals the one returned before it if and only if the turn has failed in the reply exactly when it has failed in what is found |
| `CacheHandoff.ReconciledKindKeptIff` | src/cache-handoff.ts:280-300 | After a record of a reconciliation that could not be written, the result after a restart equals the one returned before it if and only if both reconciliations agree on whether the turn has failed |
| `CacheHandoff.KindCanChangeWhenRecordFails` | src/cache-handoff.ts:251-263 | A run of true answers with a lost final record that returns first rolled over, then admitted failed |
| `CacheHandoff.RunAgrees` | src/cache-handoff.ts:291-298 | The disk, the store in memory and what was returned agree in every run whose records after an answer are written |
| `CacheHandoff.RunKeepsInv` | src/cache-handoff.ts:160-332 | Memory, disk, native sessions, landings and results stay consistent over every run, with writes failing at any of the three sites |
| `CacheHandoff.LineageStore.Put` | src/lineage-store.ts:80-86 | The map is set by session key first, keeping the order of the other records, and the file holds the whole map exactly if the write succeeds |
| `CacheHandoff.LineageStore.NewestRecord` | src/cache-handoff.ts:273-277 | The newest admission record of the source |
| `CacheHandoff.CacheHandoffService.RestoreDurableAdmission` | src/cache-handoff.ts:266-316 | Restoring in place leaves the world and continuation that the protocol steps specify, with the record in memory when its write fails |
| `CacheHandoff.CacheHandoffService.PrepareReplacement` | src/cache-handoff.ts:210-235 | The exact operation is on disk before the call goes on, and in memory only when it ends |
| `CacheHandoff.CacheHandoffService.MaybeRollover` | src/cache-handoff.ts:160-264 | A call that is not interrupted does exactly the protocol's steps, with each failing write |
| `CacheHandoff.CacheHandoffService.SendAndRecord` | src/cache-handoff.ts:238-263 | Send, remember, record, in that order, with each failure |
| `HerderJobs.DurableEnteredOnce` | src/herder-jobs.ts:271-311 | The runner of a durable-once job is entered at most once, over all restarts, failed writes, unreadable files and retention |
| `HerderJobs.DurableForever` | src/herder-jobs.ts:435-505 | A durable-once job is never trimmed, left out of a write, or begun anew: at every later point its record is in the file unless the file was damaged from outside, and the registry has it unless it could not read its history |
| `HerderJobs.UnreadableHistoryIsHeld` | src/herder-jobs.ts:480-489 | A damaged file found at startup is never overwritten by any later run of the registry, and every durable start over it is refused without effect |
| `HerderJobs.UnreadHistoryIsUntouched` | src/herder-jobs.ts:487-490 | A file that could merely not be read at startup stays exactly as it was until the next start, and until then no durable start has any effect |
| `HerderJobs.CancelledStays` | src/herder-jobs.ts:375-422 | Once a live job is cancelled it is only ever seen cancelling or cancelled, whatever its runner reports or returns |
| `HerderJobs.CompletedStaysIff` | src/herder-jobs.ts:399-406 | A completed job stays completed exactly as long as its runner reports nothing more |
| `HerderJobs.LateReportUndoesCompletion` | src/herder-jobs.ts:399-406 | A durable-once job that completed, reported late, and is found interrupted after a restart |
| `HerderJobs.RunKeepsInv` | src/herder-jobs.ts:271-505 | Registry, file and runner counts stay consistent over every run |
| `HerderJobs.HerderJobRegistry.constructor` | src/herder-jobs.ts:446-482 | A new registry holds exactly the restored jobs |
| `HerderJobs.HerderJobRegistry.LoadRecords` | src/herder-jobs.ts:462-481 | The restore loop takes every durable record, interrupts what was running, and says whether it did |
| `HerderJobs.HerderJobRegistry.WriteHistory` | src/herder-jobs.ts:484-505 | An unreadable history or a failing write leaves the file; otherwise it holds every durable job |
| `HerderJobs.HerderJobRegistry.Trim` | src/herder-jobs.ts:435-444 | Only terminal, not durable jobs go, oldest first, and no more than needed to meet the bound |
| `HerderJobs.HerderJobRegistry.Start` | src/herder-jobs.ts:271-311 | Refused, existing or begun, and the registry and file after each |
| `HerderJobs.HerderJobRegistry.Begin` | src/herder-jobs.ts:302-306 | A keyed job that cannot be written is dropped again and nothing of it remains |
| `HerderJobs.HerderJobRegistry.Enter` | src/herder-jobs.ts:394-396 | An aborted job does not enter its runner; any other one enters it as running |
| `HerderJobs.HerderJobRegistry.Report` | src/herder-jobs.ts:397-407 | A report of a cancelling or cancelled job has no effect |
| `HerderJobs.HerderJobRegistry.Return` | src/herder-jobs.ts:409-422 | The state in which a runner's return or throw leaves the job |
| `HerderJobs.HerderJobRegistry.Cancel` | src/herder-jobs.ts:375-386 | A terminal job is left alone, a live one aborted |
| `HumanStop.FenceIsSafe` | src/human-stop-store.ts:85-178 | Over every run, with failed writes and crashes, a session that was held and is not any more was cleared in between by a promptless release or by a real, non-generated prompt with another id and turn, strictly newer than the stop then recorded |
| `HumanStop.HeldIff` | src/human-stop-store.ts:85-342 | Exactly which calls change whether a session is held |
| `HumanStop.HoldOpensIff` | src/human-stop-store.ts:91-115 | An older stop lowers the fence, and exactly when: a hold opens a held session to a prompt that could not clear it, if and only if the prompt is not generated, not newer than the recorded stop but newer than the given one, and that one is neither recorded nor ignored already |
| `HumanStop.LateStopLowersFence` | src/human-stop-store.ts:85-117 | For all stops and prompts in that order: a run in which a prompt does not clear a held session, an earlier stop is reported late, and the same prompt then clears it |
| `HumanStop.ClearedStaysCleared` | src/human-stop-store.ts:566-570 | After a clearing at time c no sequence of calls whose stop evidence is at or before c, or of the cleared stop's turn, holds the session again, however many ids were evicted |
| `HumanStop.RunKeepsInv` | src/human-stop-store.ts:203-225 | Every reachable file has one record per session, at most 128 distinct ignored ids, no active stop among them, and while an admission runs its sources stay unheld on disk |
| `HumanStop.UnreadableIff` | src/human-stop-store.ts:454-472 | From a readable file a call leads to an unreadable one exactly if it is an ignored native stop or a shutdown proof for a session without a record, with an unknown harness or a blank turn |
| `HumanStop.FirstCallCanSpoil` | src/human-stop-store.ts:267-314 | Two such calls: an ignored native stop under an unknown harness and a shutdown proof with a blank turn each leave the empty file unreadable |
| `HumanStop.FilesReadBack` | src/human-stop-store.ts:444-472 | Every reachable file re-parses as long as ignored native stops name a known harness and proofs a turn that is not blank |
| `HumanStop.UnreadableStays` | src/human-stop-store.ts:364-371 | A file that cannot be read back is never changed again |
| `HumanStop.RereadIsReadable` | src/human-stop-store.ts:444-472 | Reading is idempotent: what was read back reads back as itself |
| `HumanStop.ParseFits` | src/human-stop-store.ts:454-472 | Which records parse, and that parsing changes nothing but the blanks around a turn id |
| `HumanStop.ApplyFits` | src/human-stop-store.ts:85-342 | Every call keeps the shape of the file, whatever its arguments |
| `HumanStop.GeneratedPromptCannotClear` | src/human-stop-store.ts:228-249 | Over every run after it, a remembered text is recognised in every prompt with it until it expires, as long as fewer than 128 later calls remember a text and none the same one for another turn, so it cannot clear a hold |
| `HumanStop.HumanStopFile.Hold` | src/human-stop-store.ts:85-117 | The file after a hold, and that the write is skipped exactly when nothing changed |
| `HumanStop.HumanStopFile.ObserveStop` | src/human-stop-store.ts:129-159 | The branches of observe, in their own order, leave the same file as a hold |
| `HumanStop.HumanStopFile.Observe` | src/human-stop-store.ts:120-178 | Observing a stop and a prompt equals a hold followed by a release with the prompt |
| `HumanStop.HumanStopFile.Release` | src/human-stop-store.ts:316-342 | The file after a release, changed exactly if the clearing applies |
| `HumanStop.HumanStopFile.IgnoreNativeStop` | src/human-stop-store.ts:300-314 | The file after ignoring a native stop, and when it is written |
| `HumanStop.HumanStopFile.CheckpointShutdown` | src/human-stop-store.ts:267-290 | A shutdown checkpoint never touches a held session |
| `HumanStop.HumanStopFile.RememberGenerated` | src/human-stop-store.ts:239-248 | The remembered texts after superseded and expired ones go |
| `A11ySnapshot.DocumentPreorder` | src/browserclaw-a11y.ts:273-287 | For every list of lines, reading the tree below the synthetic root parents first gives the lines back in their order |
| `A11ySnapshot.ParentIsNearest` | src/browserclaw-a11y.ts:279-281 | A line's parent is the nearest earlier line that is strictly less indented, and nothing else is |
| `A11ySnapshot.ChainIncreases` | src/browserclaw-a11y.ts:279-282 | The indents on the stack are strictly increasing throughout |
| `A11ySnapshot.AcceptedIff` | src/browserclaw-a11y.ts:274-283 | The lines are accepted exactly when nodes, refs and depth are within the limits and no ref repeats |
| `A11ySnapshot.SubtreePreorder` | src/browserclaw-a11y.ts:273-284 | A subtree holds a contiguous range of lines, up to the next line indented no deeper |
| `A11ySnapshot.KidsAreSiblings` | src/browserclaw-a11y.ts:279-281 | The children of a line are found by hopping from the end of one subtree to the next |
| `A11ySnapshot.DocumentRefsDistinctIff` | src/browserclaw-a11y.ts:285-286 | The refs of an accepted document are pairwise distinct exactly if no line has the synthetic root's ref |
| `A11ySnapshot.RootRefTakenIff` | src/browserclaw-a11y.ts:285-286 | When that happens: "__document__" below a root only, or on a root together with "__document__-root" |
| `A11ySnapshot.RootRefCanCollide` | src/browserclaw-a11y.ts:285 | Two accepted snapshots whose documents repeat a ref: one with a nested line named like the root, one where both names the root can get are taken |
| `A11ySnapshot.BuildTree` | src/browserclaw-a11y.ts:273-284 | The stack loop in place gives every node exactly its children in order, and stops at the first fault with its error |
| `A11ySnapshot.NormalizeText` | src/browserclaw-a11y.ts:258-288 | Result, root ref and child lists of a text snapshot, with every error |
| `A11ySnapshot.Nest` | src/browserclaw-a11y.ts:279-282 | Popping leaves the line's parent on top, and the stack height is its depth |
| `A11yStructured.CheckIff` | src/browserclaw-a11y.ts:173-199 | A structured snapshot is accepted exactly when every node fits, the counts stay within the limits and no ref occurs twice |
| `A11yStructured.TextPassesStructuredCheckIff` | src/browserclaw-a11y.ts:173-288 | An accepted text snapshot passes the structured check under the same limits exactly when the synthetic root fits too: one more node, ref and level, and a ref of its own |
| `A11yStructured.NormalizeState.NormalizeNode` | src/browserclaw-a11y.ts:173-199 | The recursion with its mutable counters copies the value unchanged or fails with the first error in order |
| `DeliveryBudget.WindowsAreBounded` | src/coordination-delivery-budget.ts:10-45 | With a clock that never goes back, any 60 000 ms hold at most 6 not refunded sends per sender and target and 12 per target, and at most 4096 attempts are kept |
| `DeliveryBudget.KeySentOnce` | src/coordination-delivery-budget.ts:20-23 | In every run in which no refund takes away a newer attempt, a key is sent again only after its earlier send was refunded or is more than a day old |
| `DeliveryBudget.SettleKeepsKeysOnceIff` | src/coordination-delivery-budget.ts:30-40 | The exact condition: settling a pending send keeps every key sent once and remembered if and only if it does not refund while another send of the key, not yet a day old at the last call, holds the attempt |
| `DeliveryBudget.HarmfulRefundResends` | src/coordination-delivery-budget.ts:34 | After any such refund, a call with the key that the windows have room for sends it again within a day of the send that was forgotten |
| `DeliveryBudget.PromptIsHarmless` | src/coordination-delivery-budget.ts:30-40 | A refund within a day of its send is never one of those |
| `DeliveryBudget.LateRefundAllowsResend` | src/coordination-delivery-budget.ts:34-41 | Otherwise not: a run in which a late refund takes away a newer attempt and a third send follows at once |
| `DeliveryBudget.PreviousIsTheSend` | src/coordination-delivery-budget.ts:21-23 | A repeated call gets the result of the one earlier send of its key, with the same text, not refunded and at most a day old |
| `DeliveryBudget.RetryAfterIsEnough` | src/coordination-delivery-budget.ts:25-28 | After waiting as long as a refusal says, with no other call in between, the scope has room again |
| `DeliveryBudget.RefundLive` | src/coordination-delivery-budget.ts:36-40 | Removing the first equal instant from a scope's list is taking out the refunded send, also among sends of the same instant |
| `DeliveryBudget.RunKeepsInv` | src/coordination-delivery-budget.ts:10-45 | The stored instants of each scope are those of its live sends within the window, over every run |
| `DeliveryBudget.CoordinationDeliveryBudget.Run` | src/coordination-delivery-budget.ts:10-31 | The pruning loops, checks and charges in place, with each refusal |
| `DeliveryBudget.CoordinationDeliveryBudget.TakeBack` | src/coordination-delivery-budget.ts:34-41 | A refund in place removes the attempt and one instant per scope |
| `DeferredMessages.OfferedToItsTurnOnce` | src/deferred-messages.ts:37-57 | Over all interleavings, failed writes and crashes, each exact-turn record is returned by at most one offer, and only to the harness, session and turn it was added for |
| `DeferredMessages.RecordsMoveForward` | src/deferred-messages.ts:37-63 | Between any two moments a record moves only from pending to offered to returned or from pending to expired, and never comes back once gone |
| `DeferredMessages.RegularMessagesAreConserved` | src/deferred-messages.ts:14-19 | Every regular message ever parked is in the store unchanged, or was removed, never both and never twice; the bounds of 512 records and 64 pending per session hold |
| `DeferredMessages.OfferHasOnce` | src/deferred-messages.ts:51-52 | An offer contains a record exactly if it is pending for that turn, and once |
| `DeferredMessages.RunKeepsInv` | src/deferred-messages.ts:14-63 | Ids and keys stay unique and the store consistent with what was created, offered and removed |
| `DeferredMessages.Section.MakeOffer` | src/deferred-messages.ts:50-54 | The three loops of an offer in place |
| `DeferredMessages.Section.ExpireActive` | src/deferred-messages.ts:60-63 | Expiry and ageing in place |
| `DeferredMessages.DeferredMessageStore.OfferActive` | src/deferred-messages.ts:37-57 | File and returned records after an offer that is refused, fails, is lost, or returns |
| `DeferredMessages.DeferredMessageStore.AddActive` | src/deferred-messages.ts:21-32 | File after adding a record, with every refusal |
| `DeferredMessages.DeferredMessageStore.Add` | src/deferred-messages.ts:14 | A text already parked for the session is not parked again |
| `DeferredMessages.DeferredMessageStore.Take` | src/deferred-messages.ts:18 | Exactly the regular messages of the session leave the file |
| `DeferredMessages.DeferredMessageStore.Remove` | src/deferred-messages.ts:19 | Exactly the named regular messages leave the file |
| `DeferredMessages.DeferredMessageStore.DiscardActive` | src/deferred-messages.ts:58 | The pending records of a harness and session expire |
| `DeferredMessages.DeferredMessageStore.AcknowledgeActive` | src/deferred-messages.ts:59 | Only offered records become returned |
| `DeferredMessages.DeferredMessageStore.HasPending` | src/deferred-messages.ts:42 | The first section of an offer, which only reads: whether a pending record is addressed to the harness and session after expiry |
| `TranscriptReader.ChainReadsTheFrozenExport` | src/chatgpt-transcript-reader.ts:13-68 | Whatever other consumers do and however many cursors expire or are evicted, the pages along a chain of cursors join to a prefix of the events frozen at page one, to all of them when the chain ends without a cursor, and with limits of at least one every further page brings events |
| `TranscriptReader.PagesAnswer` | src/chatgpt-transcript-reader.ts:58-67 | Every page ever given out is the piece of its snapshot that its cursor stood for, and its next cursor stands for where it ends |
| `TranscriptReader.CursorServedIff` | src/chatgpt-transcript-reader.ts:15-18 | Over every run, exactly when a cursor is served: its export has not expired at the call, and since the cursor was issued no call expired it, made room for a new export while four were live and its own was that of the oldest live cursor, or issued a further cursor while it was the oldest of 2048 |
| `TranscriptReader.TableIsBounded` | src/chatgpt-transcript-reader.ts:51-65 | At most 2048 cursors and 4 snapshots are live at any time |
| `TranscriptReader.EventsIff` | src/chatgpt-transcript-reader.ts:34-49 | An export is accepted exactly when every node is and no id occurs twice; its events are then numbered from zero without a gap and hold exactly its messages |
| `TranscriptReader.RunKeepsInv` | src/chatgpt-transcript-reader.ts:13-68 | A cursor in the table stands for what it was issued for, over every interleaving of calls |
| `TranscriptReader.ChatgptTranscriptReader.ReadNext` | src/chatgpt-transcript-reader.ts:15-18 | A call with a cursor: expiry, lookup, page or refusal, in place |
| `TranscriptReader.ChatgptTranscriptReader.FinishOpen` | src/chatgpt-transcript-reader.ts:50-57 | The part of an opening call after its wait: whole snapshots go, oldest first, until one more fits |
| `TranscriptReader.ChatgptTranscriptReader.ServePage` | src/chatgpt-transcript-reader.ts:58-67 | Slice, eviction of the oldest cursors, and the next cursor |
| `TranscriptReader.FreezeEvents` | src/chatgpt-transcript-reader.ts:34-49 | The loop over the nodes with its set of seen ids gives the specified events or rejects |
| `TranscriptReader.ChatgptTranscriptReader.BeginOpen` | src/chatgpt-transcript-reader.ts:15-18 | The part of an opening call before its wait drops what has expired |
| `CoordinationNotes.PathMatchesIff` | src/coordination-notes.ts:738-741 | Two paths overlap exactly when the components of one are a prefix of the components of the other |
| `CoordinationNotes.ReportsExactly` | src/coordination-notes.ts:196-237 | A reservation by a session whose id has no blanks around it reports exactly the live notes of other sessions on the same host and workspace whose paths overlap, once per path and note |
| `CoordinationNotes.OwnLeaseReportedIff` | src/coordination-notes.ts:209-217 | After any run: a session that reserves a path again while its lease stands is told of its own lease as a conflict, if and only if there are blanks around its id, because the author is trimmed and the comparison is not |
| `CoordinationNotes.NewLeaseOverlapsIff` | src/coordination-notes.ts:209-217 | The same on any board whose ids are below the next one, for the lease just made |
| `CoordinationNotes.OneLeasePerKey` | src/coordination-notes.ts:212-226 | At most one automatic lease exists per host, session, workspace and path, and it belongs to that session, in every run in which callers do not forge the key of a lease |
| `CoordinationNotes.LeasesAreApart` | src/coordination-notes.ts:212-226 | What that means for any two leases in the file |
| `CoordinationNotes.NoForeignWrites` | src/coordination-notes.ts:164-262 | No call of another session changes or drops a note before it expires, leases on device sinks excepted |
| `CoordinationNotes.NoSilentOverlap` | src/coordination-notes.ts:196-237 | Whatever others do meanwhile, any reservation of an overlapping path by another session before the note expires reports it |
| `CoordinationNotes.NoteFile.ReservePaths` | src/coordination-notes.ts:202-235 | The loops over paths and notes in place: leases, report, or an exception for an unacceptable author |
| `CoordinationNotes.NoteFile.LeasePath` | src/coordination-notes.ts:208-227 | One round: report first, then renew or push |
| `CoordinationNotes.NoteFile.CollectConflicts` | src/coordination-notes.ts:208-211 | The overlapping notes in the order of the file |
| `CoordinationNotes.NoteFile.DedupeConflicts` | src/coordination-notes.ts:746-754 | The first of equal reports stays |
| `CoordinationNotes.NoteFile.HeartbeatNotes` | src/coordination-notes.ts:248-253 | Exactly the session's automatic leases on the workspace are extended |
| `CoordinationNotes.NoteFile.FilterNotes` | src/coordination-notes.ts:635 | Pruning and the end of a session keep exactly what they should, in order |
| `HistoryArchive.ArchivesAreSound` | src/chatgpt-history-archive.ts:511-611 | Over any checkpoints, failures, crashes and reopenings the digests of a manifest are pairwise distinct, its k-th entry names file k and that file holds the view, one call scans at most 500 views and adds at most what was asked for, and an archive is complete only after its export reported a start |
| `HistoryArchive.OrderlyArchivesArePure` | src/chatgpt-history-archive.ts:524-532 | As long as no checkpoint is stranded, an archive holds views of its own chat only, and is complete only after the start of that chat was really shown |
| `HistoryArchive.StrandedIff` | src/chatgpt-history-archive.ts:526-561 | Exactly which steps lose the page of a checkpoint: a call of another chat that moved the page and ends without a checkpoint |
| `HistoryArchive.WrongChatIsCompleted` | src/chatgpt-history-archive.ts:524-556 | The run that shows it: one chat at a checkpoint, another read to its start, then an export of the first resumes on the other's page and completes its archive with the other's view, every answer of the browser in it being true |
| `HistoryArchive.ReconcileTwice` | src/chatgpt-history-archive.ts:471-509 | A second reconciliation in a row adds nothing to any archive, though it also finds what the first one wrote |
| `HistoryArchive.ReconcileKnows` | src/chatgpt-history-archive.ts:478-494 | After a reconciliation every indexed view is in the manifest of its route, every archive is still sound, and no file holds anything else |
| `HistoryArchive.AppendFits` | src/chatgpt-history-archive.ts:598-611 | Appending keeps a manifest sound and makes it know the view |
| `HistoryArchive.ChatGptHistoryArchive.AppendSegment` | src/chatgpt-history-archive.ts:598-611 | The file of a new view is written under the next number before the entry exists; a known view writes nothing |
| `HistoryArchive.ChatGptHistoryArchive.ExportBoundChat` | src/chatgpt-history-archive.ts:511-572 | The loop in place goes through exactly the steps of the protocol for the browser's answers: it uses them in order, stops early only at a checkpoint or at the start, and fails only when they run out |
| `HistoryArchive.ChatGptHistoryArchive.BeginExport` | src/chatgpt-history-archive.ts:524-535 | Resume the page of the checkpoint or open the chat at its bottom |
| `HistoryArchive.ChatGptHistoryArchive.Settle` | src/chatgpt-history-archive.ts:545-564 | The manifest is written, then the call completes, stops at a checkpoint, or goes on |
| `LaunchPolicy.ChainFollowsRoute` | src/automation-launch-policy.ts:134-165 | Fed its own attempts and their outcomes, the resolver launches the permitted harnesses in the order of the route, none twice, and nothing after the first accepted or unknown outcome |
| `LaunchPolicy.LaunchableIff` | src/automation-launch-policy.ts:146-156 | The launched harnesses are exactly those of the route whose model it permits |
| `LaunchPolicy.CandidateIsNext` | src/automation-launch-policy.ts:146-154 | With the first k permitted harnesses attempted, the one found next is the (k+1)-th |
| `LaunchDocument.ValidationIsIdempotent` | src/automation-launch-policy.ts:407-450 | Validation is a fixed point on its own output |
| `LaunchDocument.NormalRoutesSettle` | src/automation-launch-policy.ts:493-617 | Validated routes have canonical keys, none twice, at most as many as given, and each is its own normal form |
| `LaunchDocument.StoredReadsBackIff` | src/automation-launch-policy.ts:664-739 | The stored document reads back as the returned policy exactly unless a kept route lost a harness its preserved fallback names, or its preserved allow or deny list contradicts the one it brings; then it does not read back at all |
| `LaunchDocument.DroppedHarnessSpoils` | src/automation-launch-policy.ts:717-720 | Two valid documents of which the second drops a harness that the preserved fallback of the first names; what is stored does not read back |
| `LaunchDocument.ContradictedListSpoils` | src/automation-launch-policy.ts:709-716 | Two valid documents of which the second denies a model that the preserved list of the first allows; what is stored does not read back |
| `LaunchDocument.PreservedRouteIff` | src/automation-launch-policy.ts:697-726 | The same for a single preserved route |
| `LaunchDocument.GuardedWritesAreLinear` | src/automation-launch-policy.ts:676-680 | Every successful replacement builds on the document stored by the one before it, and a guarded one on exactly the document its caller had read (If-Match, section 13.1.1 of RFC 9110) |
| `LaunchDocument.GuardedEditsAreSerial` | src/automation-launch-policy.ts:664-739 | However clients interleave reading the document and submitting a change of what they read under its ETag, every stored document is the one that the successful changes give when made one at a time |
| `LaunchDocument.StoredDocuments` | src/automation-launch-policy.ts:641-655 | In every run a stored document reads back as what the call returned, or not at all |
| `LaunchDocument.GuardSurvives` | src/automation-launch-policy.ts:690-709 | While every document reads back and keeps the key of a route, its deny guard once set stays |
| `LaunchDocument.GuardKeptIff` | src/automation-launch-policy.ts:690-726 | The exact condition for one replacement of a guarded project that it still names: the guard stays if and only if nothing is written, the stored document loads, or the new one brings the guard itself |
| `LaunchDocument.GuardCanBeLost` | src/automation-launch-policy.ts:690-726 | For every project, model and reference: three replacements, each valid by itself, after which a guarded project is no longer guarded, because the second one stored a document that does not load |
| `LaunchDocument.DedupedListAgain` | src/automation-launch-policy.ts:470-483 | A validated fallback list is its own normal form and holds at most eight models |
| `LaunchDocument.CollectModels` | src/automation-launch-policy.ts:468-484 | The loop over a fallback list, with its set of seen keys |
| `LaunchDocument.AutomationLaunchPolicyStore.Replace` | src/automation-launch-policy.ts:664-749 | Validation, the ETag guard, preservation and the write, in place |
| `LaunchDocument.AutomationLaunchPolicyStore.KeepRoutes` | src/automation-launch-policy.ts:697-726 | The loop over the routes keeps guard, lists and fallback an older editor left out |
| `CdpChat.CallsStayOnFixture` | src/cdp-chat.ts:480-621 | In every run each message, edit and download that reaches the page carries the raw id of the one chat created as the fixture, on the page identity the client was bound to |
| `CdpChat.BoundOnce` | src/cdp-chat.ts:498-500 | The fixture and the page identity are bound once and never change, and what reached the page stays on record |
| `CdpChat.ReferencesAreFaithful` | src/cdp-chat.ts:652-730 | A reference made from raw ids without bars stands for exactly those ids and resolves to them, if it resolves at all |
| `CdpChat.PlainNames` | src/cdp-chat.ts:652-676 | Two things with the same table key are the same, when the ids of one have no bars |
| `CdpChat.NamesOneThingIff` | src/cdp-chat.ts:652-676 | The exact condition: a table key names one thing if and only if the message and media ids, and the chat id beside them, hold no bar |
| `CdpChat.ReferencesAreFaithfulIff` | src/cdp-chat.ts:652-730 | In every run each reference asked for a thing stands for that thing, if and only if its ids hold no bar |
| `CdpChat.DownloadCanMislead` | src/cdp-chat.ts:668-730 | A run in which the reference asked for one media of the fixture chat downloads another, whose ids differ only in where a bar stands |
| `CdpChat.GateUsesAreApart` | src/cdp-chat.ts:636-649 | Two successful uses of one gate key are more than its time to live apart |
| `CdpChat.RunKeepsInv` | src/cdp-chat.ts:454-730 | References, tables, fixture and page calls stay consistent over every interleaving |
| `CdpChat.BindKeepsInv` | src/cdp-chat.ts:497-500 | Binding the fixture marks one reference only, also when the chat was listed before |
| `CdpChat.CdpChatClient.Consume` | src/cdp-chat.ts:636-649 | Granted, expired, conflict or used, and the gate table after each |
| `CdpChat.CdpChatClient.EnterPage` | src/cdp-chat.ts:624-628 | Another page identity is refused, the first one is bound |
| `CdpChat.CdpChatClient.RememberRaw` | src/cdp-chat.ts:652-682 | A known thing keeps its reference, a new one gets a fresh one |
| `CdpChat.CdpChatClient.FinishNewChat` | src/cdp-chat.ts:492-508 | The last part of creating the fixture, with each refusal; the reference returned is the one the fixture and the chat's key have |
| `CdpChat.CdpChatClient.SendMessage` | src/cdp-chat.ts:574-578 | What reaches the page, and when nothing does |
| `CdpChat.CdpChatClient.ShowAll` | src/cdp-chat.ts:684-701 | Everything a page shows gets the reference that its key has in the table, one each and in order |

## Left out

- Network, child processes, browser automation, HTTP, MCP registration, rendering and redaction: environments that
  answer as they like, or not modelled at all.
- Byte-level file calls, file modes, and the timing of the lock library.
- `src/herder-events.ts`: listeners, the debounce timer (a flush may come at any time), numbers beyond the safe
  integer range; one retention bound holds across restarts.
- `src/cadence-scheduler.ts`: the bounds on the request's texts, and the text of results and reasons. The sweep loop is a
  state machine over its awaits, so that sweepers interleave; each locked section is a method.
- `src/browserclaw-worker.ts`, `src/browser-wake.ts`: the driver's page steps, cancellation by signal, and the format of
  the request fields.
- `src/cache-handoff.ts`: summaries, model choice, the automation disarm lever, the pending flag of results, moved pins, and a
  user who types the handoff prompt word for word; lineage is taken as configured.
- `src/herder-jobs.ts`: progress values, results, retained inputs and delivery receipts; a write may happen at any time, so
  they are covered as writes of unchanged jobs. Persistence is taken as configured.
- HerderJobs.HerderJobRegistry.WriteHistory: which ordinary jobs a write keeps is left to the disk, because only durable ones are promised.
- HerderJobs.HerderJobRegistry.LoadRecords: which ordinary jobs a restore keeps is left open in the same way.
- `src/human-stop-store.ts`: lookup by title, `wasStoppedAfter`, the encoding of shutdown proofs (their identities are
  given), and path resolution of the working directory.
- HumanStop.FenceIsSafe: starts at a moment when no admission is in progress, because a running one may already have cleared the session in its own copy of the file.
- HumanStop.ClearedStaysCleared: starts at such a moment too, because a running admission may hold a copy from before the clearing.
- `src/browserclaw-a11y.ts`: splitting a line into indent, ref, role and name, the byte limits, page metadata, response
  envelopes and action validation. Node objects are indices of lines, and their child lists an array.
- `src/coordination-delivery-budget.ts`: the wording of receipts; whether one refunds is the environment's choice.
- `src/deferred-messages.ts`: the optional harness of a regular message, and the rendered envelopes. The first section
  of an offer only reads, so the second may follow at any time.
- `src/coordination-notes.ts`: presence, workspace declarations, rendered boards, events, and the normalisation of paths,
  hosts and working directories.
- `src/chatgpt-history-archive.ts`: article views, catalogues, routes from page addresses, and two exports at the same time.
- HistoryArchive.ReconcileTwice: the listing of stored files is any list that names each of them, because the directory order is not fixed.
- `src/automation-launch-policy.ts`: which route governs a directory, operator cohort presets, the audit log, the incident profile,
  and inputs of the wrong JSON type.
- LaunchDocument.GuardedWritesAreLinear: edits of the file by other programs are not steps of the run.
- `src/chatgpt-transcript-reader.ts`: decoding and matching the native export; payloads and timestamps of events.
- `src/cdp-chat.ts`: listing, searching, bounded exports, file names and confined directories; the parts of a page identity
  are one name.
- Not modelled at all: `src/autopilot-runner.ts`, `src/integrator-progress.ts`, `src/autopilot-hook.ts`,
  `src/harness-runtime-settings.ts`, `src/codex-quota-guard.ts`, `src/adapter-registry.ts`, the web interface, and scripts.
