# scan2graph, verified

scan2graph is an SMTP-to-PDF gateway: a printer mails a scan, the gateway extracts the PDFs, keeps them in a budgeted job
store on disk, runs text recognition over them, mails them on through Microsoft Graph and lets people fetch them from a web
page until they expire. This project models that program in Dafny and proves what it is meant to guarantee. It stands alone:
`dafny verify dfyconfig.toml` checks everything.

## How it is organized

**The gateway as one concurrent system** is the main part. SMTP sessions, the worker pool, the sweeper, shutdown, deferred
file removals and the clock all act on one store, one critical section or one file operation at a time, in any order.

- `JobTypes`, `Sums`, `JobStore`: the entities, and every locked region of the store as a pure transition. `StoreObject` is
  the store as the mutable object it is; each of its methods is proved to make exactly the transition of the same name.
  `JobStoreBudget` has the budget theorems, `JobStoreReaders` what web readers see.
- `DiskStore`, `DiskStoreProofs`: the store together with the files it accounts for. A locked region and the removals it
  asks for are one step; each removal runs later, on its own.
- `SessionDesk`, `SessionDeskProofs`, `SessionObject`: generations, stagings and half-finished aborts of the SMTP sessions.
  A Data call is named by the reservation it takes.
- `Gateway`: the state machine - actions, when each may come next, and what it does. `GatewayInv` is its invariant, said
  about one call, queue slot, worker or record at a time. `GatewayRules` to `GatewayRecords` prove that every step keeps it:
  first that nobody breaks the store's rules (`GatewayRules`), then that bystanders keep what they had (`GatewayFrames`,
  `GatewayOthers`, `GatewayKept`), then that the one who acts does too (`GatewayHands`, `GatewayWork`, `GatewayRecords`).
- `PipelineObject`: a worker's methods as the straight code they are, over the store object, with the outcome of a run
  nobody interferes with.
- `GatewayRuns`: runs, that is arbitrary interleavings from an empty store, and the first theorems about them.
  `GatewaySettlement`, `GatewayTransactions`, `GatewayService`, `GatewayProgress`, `GatewayMail`, `GatewayLicense`,
  `GatewayReaders` and `GatewayEvictions` have the others. `GatewayScenario` takes one message from the printer's connection
  to its job, as a piece any run can contain; `GatewayRefusals` builds a run out of such pieces. `GatewayConfigured` joins
  them with `ConfigRules` and `ConfigLoad`, the loader.

**The other parts** are independent of it.

- `MimeTree`, `MimeScan`, `MimeVerdict`: the recursive MIME walk as a mutating extractor, a fold over the tree flattened in
  reading order, and what the verdict says about the tree.
- `GraphMailbox`, `GraphUpload`: the strict mailbox of the end-to-end tests as the receiver, and the draft-and-upload client
  with its retry loop as the sender, under any schedule of faults.
- `Backoff`: how long the retry loop waits.
- `SendRouting`, `Streams`: which way a mail goes out, and the two byte streams that must not care how they are cut.
- `ConfigFile`, `JsonKeys`, `Wizard`: the configuration file's printer and parser, the duplicate-key scan, and the setup
  wizard's shared state under interleaved presses.

## Where code and comments disagree

The model follows the code. Three comments promise more than it does; for each there is the input that shows it and the exact
condition under which the promise is kept.

- "A scan is only ever destroyed to make room for one that was actually accepted" (internal/jobs/store.go:234) fails when the
  worker queue is full: `GatewayRefusals.RefusedMessageMayHaveEvicted` is a run that does it, for every queue and message
  size. In any run a commit evicts exactly if the committed jobs then hold more than the budget
  (`GatewayEvictions.CommitsEvictExactly`), its message is refused exactly if the queue is full when its turn comes, and
  both together exactly if both (`GatewayEvictions.RefusedExactlyWhenFull`). No other step than a commit or a worker's final
  status ever evicts (`GatewayEvictions.EvictionsAreExact`).
- A message is called "without attachments" only when it was "understood completely" (internal/mimescan/mimescan.go:48-53)
  fails for a leaf under silent headers whose data does not begin like a PDF, wherever its decoding breaks:
  `MimeVerdict.BrokenLeafPassesForText`. The promise is kept exactly for the messages that are not called empty, or whose
  leaves all decode to their end: `MimeVerdict.UnderstoodExactly`.
- The duplicate-key scan promises to find a repetition anywhere (internal/config/env.go:349-353) but cannot report a repeated
  empty key, and loses its place behind one: `JsonKeys.EmptyKeyHidesTheRest`. It does what it promises exactly for the values
  whose first repeated key is not the empty one: `JsonKeys.ReportsExactly`.

Setting a finished job back to processing would break the budget, exactly in the cases
`JobStoreBudget.SetStatusKeepsBudgetIff` describes; the pipeline never does it (`GatewayRules.GuardedStepsKeepTheRules`).
A wizard press that folded before another press's save still overwrites it: `Wizard.StaleFoldOverwrites`, with the exact
condition in `Wizard.SaveWritesTheFoldedFile`. A mail goes out and is reported as failed exactly if the first of SEND's
attempts that is not lost on the way or turned away as busy reaches the mailbox and its reply does not come back:
`GraphUpload.Client.SendLarge`, with a schedule in `GraphUpload.FailedThoughSent`. A small attachment arrives once, and once
more for every reply to its POST that is lost: `GraphUpload.Client.AttachSmall` and `GraphUpload.ExactlyOnceIff`, with a
schedule in `GraphUpload.TwoCopiesArrive`. A Retry-After in seconds is honoured, up to the clamp, exactly if its product is a
64-bit duration or wraps to one that is clamped anyway: `Backoff.SecondsAreHonouredExactly`, with a number that is not in
`Backoff.LongerCanBeShorter`; the bounds hold all the same.

## Model

| member | source | states |
|---|---|---|
| JobStoreBudget.ReserveAdmitsExactly | internal/jobs/store.go:212-229 | On an open store, Reserve admits exactly when reservations, unfinished charges and the request together fit the budget, whatever finished or expired jobs still lie about |
| JobStoreBudget.MakeRoomAlwaysSucceeds | internal/jobs/store.go:231-280 | If reservations and unfinished work fit the budget, eviction always gets committed bytes back within it, and unfinished charges are untouched |
| JobStoreBudget.EvictionTouchesOnlyVictims | internal/jobs/store.go:266-279 | Every record but the victims is unchanged; each victim was finished with a non-zero charge and becomes an empty tombstone; no reservation changes |
| JobStoreBudget.EvictionIsOldestFirst | internal/jobs/store.go:256-264 | Nobody's scan is evicted while an older finished one stays |
| JobStoreBudget.EvictionIsLeast | internal/jobs/store.go:266-271 | Undoing the last eviction would leave the committed bytes over the budget |
| JobStoreBudget.EvictionIgnoresReservations | internal/jobs/store.go:243-254 | What is evicted does not depend on which reservations are open |
| JobStoreBudget.CommitKeepsBudget | internal/jobs/store.go:328-346 | Turning a reservation into a job and making room keeps the counter exact and both budget bounds |
| JobStoreBudget.SetStatusKeepsBudgetIff | internal/jobs/store.go:429-490 | SetStatus keeps the store valid if and only if the move is not to "evicted" and does not bring finished work back over what fits |
| JobStoreBudget.ReplaceKeepsBudget | internal/jobs/store.go:495-540 | Replacing a document keeps the budget even for a job that is already finished and grows |
| JobStoreBudget.SweepKeepsBudget | internal/jobs/store.go:609-630 | A sweep gives back exactly the charges of what it removes |
| StoreObject.Store.AdmitsLocked | internal/jobs/store.go:218-229 | The loop over finished jobs decides exactly the admission rule |
| StoreObject.Store.Reserve | internal/jobs/store.go:172-190 | Either one of the two errors with nothing changed, or the charge is booked under the new id |
| StoreObject.Store.OpenStaging | internal/jobs/store.go:172-210 | Succeeds exactly if the request is admitted and its directory can be made; a failure of either kind leaves the store as if nobody had asked |
| StoreObject.Store.EvictWhileOver | internal/jobs/store.go:266-279 | The in-place loop makes exactly the specified eviction and returns exactly its victims |
| StoreObject.Store.MakeRoomLocked | internal/jobs/store.go:242-280 | Sorting and evicting in place equals the specified transition for some valid oldest-first order |
| StoreObject.Store.CommitReservation | internal/jobs/store.go:328-346 | Refused with nothing changed if closed or gone; otherwise one reservation becomes one job carrying its charge, and room is made |
| StoreObject.Store.SetStatus | internal/jobs/store.go:429-490 | Not found for a missing or evicted job; otherwise status, error text, deadline, charge, leftovers and evictions are as specified |
| StoreObject.Store.ReplaceDocument | internal/jobs/store.go:495-550 | Its three refusals change nothing; otherwise exactly one document points at the new file and the old file is handed back for removal |
| StoreObject.Store.CleanExpired | internal/jobs/store.go:609-645 | Removes exactly the expired jobs and the reservations older than fifteen minutes, and their charges |
| StoreObject.Store.Delete | internal/jobs/store.go:588-603 | Drops the record with its charge and returns the directory to remove, or changes nothing |
| StoreObject.Store.Close | internal/jobs/store.go:684-701 | Empties the store once and for all |
| StoreObject.Store.ListForUser | internal/jobs/store.go:385-415 | Exactly the live web jobs addressed to one of the names, each once, newest first |
| JobStoreReaders.SweepIsInvisible | internal/jobs/store.go:348-425 | At any time at or after a sweep, Get and ListForUser answer as if it had not run |
| JobStoreReaders.ListedCanBeOpened | internal/jobs/store.go:370-425 | A job is listed exactly when Get finds it, it has web, and one of the names is among its recipients |
| JobStoreReaders.OverKeepsItsDeadline | internal/jobs/store.go:273-277 | A job that is over keeps its deadline and, until that passes, its record; the only change is eviction |
| JobStoreReaders.TombstoneRefusesWriters | internal/jobs/store.go:430-438 | A tombstone has no documents, charge or files, refuses every writer and is never evicted again |
| DiskStoreProofs.StepKeepsInv | internal/jobs/store.go:451-489 | Every step of a client that keeps to its own files preserves the budget, documents on disk, exclusive directories and fresh names |
| DiskStoreProofs.OthersDoNotDisturb | internal/jobs/store.go:256-260 | No commit, eviction, sweep, release or deferred removal by anyone else changes an unfinished job's record or kept files |
| SessionDeskProofs.MoveKeepsInv | internal/smtpin/session.go:68-83 | Every move of the session protocol keeps its invariant, stale calls that clear a newer call's slot included |
| SessionObject.SmtpSession.Rcpt | internal/smtpin/session.go:122-134 | However often and however spelled an address comes, the recipients stay distinct and allowed; an accepted address is among them, a refused one changes nothing |
| SessionObject.SmtpSession.TakeBack | internal/smtpin/session.go:192-201 | A call may go on exactly if no Reset came since its own snapshot, whatever other calls did to the slot in between; and that is the hand-over of the state machine |
| SessionObject.OverlappingCalls | internal/smtpin/session.go:136-216 | Of two overlapping calls with a Reset between their snapshots the first is given up and the second goes on with exactly its own recipient, though the first has cleared its slot |
| GatewayRules.GuardedStepsKeepTheRules | internal/pipeline/pipeline.go:149-229 | In every good state, whatever session, worker, sweeper or removal may come next keeps the store's and the desk's rules |
| GatewayWork.OwnWorkerIsKept | internal/pipeline/pipeline.go:152-301 | Each step of process, runOCR, deliver and fail leaves the worker knowing what its next step relies on |
| GatewayHands.StattedJobIsReady | internal/jobs/store.go:780-830 | What Commit's checks saw of the files is still true when the reservation is booked, if it still is one |
| GatewayRuns.StepKeepsSystemInv | internal/smtpin/session.go:140-247 | Any enabled step of the whole system keeps the rules and leads to another good state |
| GatewayRuns.EveryStateIsGood | internal/pipeline/pipeline.go:123-191 | Every state of every interleaving satisfies the invariant |
| GatewayRuns.BudgetHoldsThroughout | internal/jobs/store.go:172-280 | In every state of every interleaving the counter is exact, committed jobs fit the budget, and so do reservations plus unfinished work |
| GatewayRuns.AdmissionIsExact | internal/jobs/store.go:212-229 | In every reachable open state, admission depends on reservations and unfinished work alone |
| GatewayRuns.DocumentsAreOnDiskThroughout | internal/jobs/store.go:451-550 | Each document of a job that was not evicted is a registered file of the recorded size, finished jobs hold exactly their documents' files, and no pending removal names a document |
| GatewayRuns.NothingLeaks | internal/jobs/store.go:353-358 | An unfinished job is always with the session that committed it, in the queue, or with the worker that took it |
| GatewaySettlement.EveryReservationIsSettledOnce | internal/jobs/store.go:170-171 | A reservation stays on the books until it is settled, never both, and its outcome never changes |
| GatewaySettlement.OneReservationOneJob | internal/jobs/store.go:324-346 | A commit turns one reservation into one job with its whole charge and directory, and no other reservation ever becomes that job |
| GatewaySettlement.ProvenanceThroughout | internal/smtpin/session.go:218-224 | Every job on the books came out of the reservation its directory is named after, with the sender, capabilities and recipients of that call |
| GatewayTransactions.CommitsOnlyForItsTransaction | internal/smtpin/session.go:65-69 | No Reset, second MAIL or Logout came between the snapshot and the commit, and what is committed is the transaction as snapshotted |
| GatewayTransactions.NothingStaysReserved | internal/smtpin/session.go:136-247 | Once none of a session's Data calls runs and no Reset is half-way through a release, none of its reservations is on the books, however calls overlapped |
| GatewayService.JobsInProgressAreUndisturbed | internal/jobs/store.go:256-260 | From commit to its final status nobody but its holder changes a job's record, charge or files |
| GatewayService.WorkersFindTheirInputs | internal/pipeline/pipeline.go:197-229 | Until Close, a worker's copy is the store's record and every document it names is on disk with that size, for OCR and for mail |
| GatewayService.OnlyCloseStopsAWorker | internal/pipeline/pipeline.go:156-190 | The store refuses a worker, or a file of its job is missing, only once the store is closed |
| GatewayService.LettingGo | internal/pipeline/pipeline.go:152-191 | A worker puts a job down only by finishing it, deleting it or finding it gone |
| GatewayService.JobsEndForGood | internal/pipeline/pipeline.go:149-191 | From the step in which its worker lets go on, a job is ready, failed, evicted or gone for ever |
| GatewayProgress.TakenJobsEnd | internal/pipeline/pipeline.go:149-229 | In any interleaving, after eight of its worker's own steps per document and six more, however many of others in between, the worker has let go and the job is ready, failed, evicted or gone |
| GatewayProgress.TakenJobsCanEnd | internal/pipeline/pipeline.go:149-229 | From any reachable state a worker is able to take those steps, alone and at once: it is never stuck |
| GatewayProgress.RankFalls | internal/pipeline/pipeline.go:149-301 | Each own step of a worker brings it closer to the end of its job, and no step of anybody else takes it further away |
| PipelineObject.Pipeline.RunOcr | internal/pipeline/pipeline.go:197-229 | Left alone, OCR succeeds exactly if the service recognizes every document, and then store and copy agree on documents that are the old ones in new files of the returned sizes |
| PipelineObject.Pipeline.Fail | internal/pipeline/pipeline.go:262-272 | Failed with the reason (or evicted in that step), a notice exactly with email, and no record without web |
| PipelineObject.Pipeline.Process | internal/pipeline/pipeline.go:152-191 | Left alone, what is mailed, what notice goes out and how the job ends, for every answer of the two services |
| GatewayMail.MailIsSentAtMostOnce | internal/pipeline/pipeline.go:163-301 | For any outcome of OCR and mail: at most one scan and one notice per job, only with email; with OCR, the scan and the ready state only when every document went through it |
| GatewayLicense.OnlyLicensedMail | internal/smtpin/session.go:118-134 | Every job and every message handed to the mailer names distinct recipients RCPT allowed and only capabilities some MAIL was granted |
| GatewayConfigured.NobodyElseIsMailed | internal/config/config.go:474-494 | Under any configuration Load accepts, jobs ask only for what is configured, and every mailed recipient is on a non-empty allowlist |
| GatewayReaders.FinishedScansLast | internal/jobs/store.go:348-365 | In any interleaving a finished scan can be fetched until its deadline; nobody but its own worker removes it, and only eviction can change it |
| GatewayReaders.FinishingStartsTheWindow | internal/jobs/store.go:445-454 | The download window starts at the final state, not at arrival, even if the job is evicted in the same step |
| GatewayEvictions.OnlyBookedScansEvict | internal/jobs/store.go:212-217 | A scan is removed early only by a commit that went through or a worker finishing a job, never by a reservation, reset, abort or refused message |
| GatewayEvictions.EvictionsAreExact | internal/jobs/store.go:242-280 | In any run, a step turns some record into a tombstone exactly if it commits a job or sets a final status and with that the committed jobs hold more than the budget |
| GatewayEvictions.CommitsEvictExactly | internal/jobs/store.go:328-346 | A call's commit evicts exactly if the jobs already there and its own, at the whole reservation, hold more than the budget |
| GatewayEvictions.RefusedExactlyWhenFull | internal/smtpin/session.go:225-247 | A committed message is refused exactly if the queue is full at its turn, and has evicted as well exactly if the commit went over the budget |
| GatewayRefusals.RefusedMessageMayHaveEvicted | internal/smtpin/session.go:225-247 | A run from an empty store, for every queue capacity and message size: a web scan waits to be fetched, the queue is full, the next commit evicts the scan, its message is refused and its job deleted, and the scan stays gone |
| ConfigLoad.Loader.Load | internal/config/config.go:113-192 | Accepts exactly the acceptable settings, and what it loads is sound and is those settings and their defaults |
| ConfigLoad.LoginIsNeverOpenByAccident | internal/config/config.go:301-335 | In whatever is loaded, SMTP is open exactly if that was asked for, and otherwise has a user name and a password that is not empty |
| ConfigLoad.Loader.Profiles | internal/config/config.go:194-226 | Reports no error exactly if every key is an address, no two are the same one and every profile does something, whatever the iteration order |
| ConfigLoad.Loader.ParseDomains | internal/config/config.go:243-262 | The valid entries in order of first mention, and one error for each bad one |
| ConfigLoad.DomainsExact | internal/config/config.go:243-262 | An entry is in the list exactly if it is a valid domain somebody wrote, and only once |
| ConfigLoad.NoBadDomains | internal/config/config.go:249-256 | No error exactly if every entry that is not blank is a valid domain |
| ConfigLoad.LoadedIsSound | internal/config/config.go:124-171 | In a loaded configuration, whatever capabilities a sender can be granted have their settings: email a sender and a non-empty allowlist, web a base URL, OCR an endpoint |
| MimeScan.Extractor.Leaf | internal/mimescan/mimescan.go:197-256 | One part's effect on the flag, the list, the files and the verdict |
| MimeScan.Extractor.Walk | internal/mimescan/mimescan.go:143-193 | The recursive walk with its early exits equals the fold over the flattened tree |
| MimeScan.Extractor.Extract | internal/mimescan/mimescan.go:101-123 | The verdict and the surviving files of the whole message |
| MimeVerdict.VerdictWithoutFaults | internal/mimescan/mimescan.go:79-123 | Too complex exactly if a limit is passed: ten levels, a hundred parts, or a claim to be a PDF after sixteen; otherwise exactly the message's PDFs in order, byte for byte |
| MimeVerdict.NothingAttachedExactly | internal/mimescan/mimescan.go:48-53 | Whatever storage does, "no attachments" exactly for a message within limits, nothing in doubt, and no leaf named, declared, non-text or starting like a PDF |
| MimeVerdict.SurvivorsAreTheReturnedPdfs | internal/mimescan/mimescan.go:90-98 | Whatever storage does, the files left are exactly those of the returned PDFs, with their bytes; none after any error |
| MimeVerdict.NestedMeansTooHigh | internal/mimescan/mimescan.go:146-148 | The depth check fires somewhere exactly if the tree is higher than ten |
| MimeVerdict.WalkSeesTheTree | internal/mimescan/mimescan.go:159-192 | Within the depth limit the walk counts every part, reads every leaf in order and notices every doubt |
| MimeVerdict.UnderstoodExactly | internal/mimescan/mimescan.go:48-53 | "No attachments" means every leaf was read to its clean end exactly for the messages over a limit, not empty, or with only such leaves |
| MimeVerdict.BrokenLeafPassesForText | internal/mimescan/mimescan.go:219-224 | Under silent headers any data that does not begin like a PDF is dropped without a word, wherever and however its decoding breaks |
| GraphMailbox.Mailbox.PutChunkHandler | e2e/fakes/graph.go:284-341 | What has arrived in a session is always its accepted chunks one after the other, and what the last one attaches is exactly those |
| GraphMailbox.Mailbox.SendDraftHandler | e2e/fakes/graph.go:345-361 | Accepted exactly for a draft that is waiting, which then goes out as it stands; no draft is ever both waiting and sent, or sent twice |
| GraphUpload.Client.Do | internal/msapi/msapi.go:35-86 | For every fault schedule, exactly how often the mailbox handled the request, which attempt is the next, and that success means an answer that came back accepted |
| GraphUpload.AnsweredOnceMoreThanLost | internal/msapi/msapi.go:35-86 | A request that is answered was handled once, and once more for every reply that got lost |
| GraphUpload.FirstAttemptTells | internal/msapi/msapi.go:35-86 | A request is handled at all exactly if the first attempt that is not lost or turned away as busy reaches the mailbox, and handled once and answered exactly if that attempt is delivered |
| GraphUpload.Client.AttachLarge | internal/graphmail/upload.go:127-166 | On success the draft gained the file exactly once, byte for byte, from ranges that are the partition; in any case it is unsent |
| GraphUpload.Client.AttachSmall | internal/graphmail/upload.go:111-125 | Succeeds exactly if its request is answered and the file has a name and bytes, and then the draft gained one copy and one more for every reply lost |
| GraphUpload.Client.SendLarge | internal/graphmail/upload.go:49-70 | For every fault schedule: before SEND nothing goes out and failure is reported; from then on one complete mail goes out exactly if the first telling attempt reaches the mailbox, and success is reported exactly if that attempt is delivered |
| GraphUpload.ExactlyOnceIff | internal/graphmail/upload.go:111-125 | In a mail that went out every file is there exactly once, in order, byte for byte, if and only if no reply to a small file's POST was lost |
| GraphUpload.FailedThoughSent | internal/graphmail/upload.go:49-70 | A schedule under which a complete mail is out and the sender is told it failed |
| GraphUpload.TwoCopiesArrive | internal/graphmail/upload.go:111-125 | A schedule under which the sender is told it worked and the recipients get the file twice |
| GraphUpload.RangesPartition | internal/graphmail/upload.go:140-165 | The chunk ranges cover the file from first to last byte without gap or overlap, each under four mebibytes |
| GraphUpload.ChunkDone | internal/graphmail/upload.go:148-164 | An acknowledged chunk was placed exactly once, whatever was retried |
| GraphUpload.RepeatedAttachment | e2e/fakes/graph.go:263-270 | Each repetition of an attachment POST attaches once more |
| GraphUpload.RefusedTheSecondTime | e2e/fakes/graph.go:313-325 | A repeated chunk or SEND changes nothing more and is refused |
| GraphUpload.SendDone | e2e/fakes/graph.go:345-361 | However often SEND arrives the draft goes out at most once; it is out and unreported exactly if the first telling attempt got there and its reply did not come back |
| Backoff.EveryWaitIsBounded | internal/msapi/msapi.go:109-143 | Whatever Retry-After says, every wait is between half a second and half a minute |
| Backoff.SecondsAreHonouredExactly | internal/msapi/msapi.go:123-128 | A number of seconds is waited for, up to the clamp, exactly if its product does not overflow a duration or wraps to one past the clamp |
| Backoff.WrappingOnlyShortens | internal/msapi/msapi.go:123-128 | Overflow never makes a wait longer than was asked for |
| SendRouting.Send | internal/graphmail/graphmail.go:81-120 | A readable message goes out in one request exactly if its encoded form fits, and is refused exactly if not and there is no upload path |
| SendRouting.AttachFile | internal/graphmail/message.go:71-98 | However the encoder cuts its output, a part is its header and the encoded file in lines, and exactly as long as the size arithmetic says |
| SendRouting.PastTheEstimateNothingFits | internal/graphmail/graphmail.go:37-42 | Attachments past the estimate never fit, for any number and sizes of them |
| SendRouting.PartsGrow | internal/graphmail/message.go:93-97 | Encoding costs at least a third, over any attachments |
| SendRouting.TheLimitItselfDoesNotFit | internal/graphmail/graphmail.go:104-110 | A scan of exactly the quoted size does not fit once composed |
| Streams.LineWrap.Write | internal/graphmail/message.go:108-126 | The output is a function of the concatenated input, however it was split into writes |
| Streams.WrapByte | internal/graphmail/message.go:100-107 | Every line but the last is exactly 76 bytes then CRLF, and every input byte is at its place |
| Streams.WrapMore | internal/graphmail/message.go:110-124 | What one pass of the loop adds |
| Streams.Compact | internal/mimescan/mimescan.go:317-328 | Compacting in place keeps exactly the bytes that are not blank and leaves the rest of the buffer alone |
| Streams.ReadAll | internal/mimescan/mimescan.go:311-328 | Reading in pieces of any sizes recovers the blank-free input |
| Streams.NonBlankKeepsTheRest | internal/mimescan/mimescan.go:311-314 | No blank survives and every other byte does, in order |
| ConfigFile.ParseFile | internal/config/file.go:78-105 | The line loop yields every line's setting, and nothing if a line is malformed or a name repeats |
| ConfigFile.Serialize | internal/web/setup.go:647-666 | Notes, then one line per setting in sorted order |
| ConfigFile.FileRoundTrip | internal/web/setup.go:662-664 | Whatever was written reads back exactly, for names that can be read back and values on one line |
| ConfigFile.ParsedFilesSurvive | internal/web/setup.go:638-666 | Every file that parses at all is the same settings after being read, written and read again |
| ConfigFile.QuotingRoundTrip | internal/web/setup.go:668-680 | Any value at all survives quoting, trimming and unquoting |
| ConfigFile.LineRoundTrip | internal/config/file.go:87-102 | A written line reads back as its name and value, "=", "#", quotes and "export" included |
| ConfigFile.LineRoundTripIff | internal/config/file.go:91-98 | Exactly the names without blank, tab, "=", edge space or leading "#" can be read back |
| ConfigFile.SortingIsUnique | internal/web/setup.go:662 | A map's keys are sorted in one way only |
| ConfigFile.SavingAgainChangesNothing | internal/web/setup.go:638-639 | Reading a saved file and saving it again writes the same lines |
| ConfigFile.OneLayerDecides | internal/config/file.go:37-56 | Whatever file and environment hold, both spellings of a setting are read from the same layer, exactly for the settings whose own name does not end in `_FILE` |
| JsonKeys.Finder.Value | internal/config/env.go:357-396 | The recursive closure over one decoder equals the scan of the token stream |
| JsonKeys.ReportsExactly | internal/config/env.go:349-353 | The scan reports a key exactly when some object repeats one, namely the first, and otherwise reads exactly the value, if and only if the first repeated key is not the empty one |
| JsonKeys.FirstIffRepeats | internal/config/env.go:368-383 | There is a first repeated key exactly if some object in the value has the same key twice |
| JsonKeys.NoEmptyKeysReportExactly | internal/config/env.go:375-378 | In particular it keeps its promise for every value without empty keys |
| JsonKeys.EmptyKeyHidesTheRest | internal/config/env.go:376-382 | Behind a repeated empty key any repetition goes unseen |
| Wizard.SetupServer.Base | internal/web/setup.go:548-558 | A page's own values exactly while it is remembered and no save came since, the file otherwise |
| Wizard.SetupServer.FoldForm | internal/web/setup.go:365-410 | The field loop folds the form into that base |
| Wizard.SetupServer.Save | internal/web/setup.go:531-539 | After a save memory is what was written, no form is remembered and every page starts from it; after a failed one everything is as it was |
| Wizard.SetupServer.Remember | internal/web/setup.go:579-584 | What is remembered is exactly the newest forms handed back since the last save, up to four, and a new page starts from its own values while the file is the one it was folded from |
| Wizard.FoldDecidesEachSetting | internal/web/setup.go:386-408 | Each box decides both spellings of its own setting and no other |
| Wizard.MemoryAndDiskAgree | internal/web/setup.go:522-539 | In every interleaving memory is what is on disk, failed writes included |
| Wizard.BlankSecretKeepsTheRightOne | internal/web/setup.go:560-578 | A blank secret box yields what was typed or generated on its page since the last save, or what is on disk, never an older value |
| Wizard.HandedBackIsCurrent | internal/web/setup.go:571-578 | A page handed back is current exactly if no save came since its press folded, and a save outdates every page |
| Wizard.SaveWritesTheFoldedFile | internal/web/setup.go:531-537 | A save leaves an untyped secret alone exactly if the file still holds what it held at the fold |
| Wizard.StaleFoldOverwrites | internal/web/setup.go:263-305 | A run in which a press that folded earlier overwrites a newer save |

## Left out

- Width of integers: sizes, counters and times are mathematical integers; overflow of the 64-bit byte counters and of the generation is not modelled.
- Randomness: ids, file names, boundaries and form ids are fresh parameters; collisions, and failure of the random source, are not modelled. A file name is never reused.
- File systems: a set of paths with sizes (contents in the MIME part). Permissions, fsync, symbolic links and path cleaning are not modelled; a removal that runs succeeds.
- The Data call is a step machine over the shared state rather than one method, because other threads act between any two of its steps. The worker is both: `Gateway` interleaves its steps, and `PipelineObject` has its methods for the case that nobody interferes.
- Cancellation: a job's time limit is one way for OCR or mail to fail; queued jobs dropped at shutdown simply stay queued while the store closes.
- A refused Reserve, a refused MAIL and an unauthenticated session take no step at all; go-smtp's command order is not assumed, so every order is covered.
- MIME parsing, header and encoded-word decoding, transfer decoding and multipart boundaries are the library's: the walk starts from an already parsed tree with decoded bytes. `os.Remove` after a failed extraction succeeds.
- Subjects and display names are not sanitized in the model, and normalizing an address lowers ASCII letters only and measures length in characters.
- URL and JSON decoding and the parsing of numbers and durations are parameters of the loader; the URL path prefix it derives from the base URL is absent.
- Granularity: the checks Commit makes of its files before it takes the lock, several looks at the disk and one at the clock, are one step, and a MAIL is not tied to a Reset of its own.
- GraphMailbox.Mailbox.PutChunkHandler: a chunk reaching past the announced size is refused, where the fake would misbehave; the client never sends one.
- GraphUpload.Client.Do: time and credentials are not modelled; attempts fail in any order the schedule says. How long it would wait is in `Backoff`.
- ConfigFile.Serialize: the comment lines above the settings are any comment lines.
- Wizard.SetupServer.FoldForm: the profile editor's boxes arrive as one already composed text; form validation, checks and rendering are not modelled.
- HTTP, OIDC, TLS, SMTP wire handling, the web pages, the Document Intelligence client, start-up, logging and the marker file are not part of this model.
