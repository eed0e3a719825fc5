# A verified model of submission-triage

submission-triage reads an insurance agency's inbox. It threads each email into a
submission, checks the attached documents against the checklist of the policy type, asks the
broker for what is missing, escalates submissions that go quiet and closes the ones that are
settled. This project models its core in Dafny and proves what the core promises.

`dafny verify dfyconfig.toml` checks everything. Nothing here runs the original program.

## What is modelled

**Sending replies** (`Outbox*.dfy`, `Dispatch*.dfy`). Two senders share one outbox: an online
path (the ingest claims the submission, commits the row, hands a job to a worker) and a
sweeper (lists due rows, claims, re-reads, sends). They are a state machine of 34 kinds of
atomic steps over the table, the claims, the job channel, the in-flight counter and the
activities in progress, with expiry, pruning, holds, shutdown, failing reads, writes and
sends, and crashes. Each commit has a number that also stands for the text it queued, so
"newer reply" is "larger number". The invariants are kept in five groups (where a text comes
from, who owns a submission, what was delivered, how often a row was tried, the worker pool);
`DispatchInvariant` puts them together, `DispatchRuns` and `DispatchProgress` draw the
conclusions about whole runs. `DispatchRows` says what a row goes through, and `DispatchDue` that
what is sent was due.

**Checklists and decisions** (`Checklist.dfy`, `ChecklistLaws.dfy`, `Decisions.dfy`). The
bucketing evaluator against a definition that looks at one item at a time; the reply and the
review flag an evaluation leads to; when complete is complete for good.

**The life of a submission** (`Lifecycle.dfy`, `Sweeps.dfy`, `SweepLaws.dfy`, `Sweeper.dfy`,
`EscalationRuns.dfy`). The states and their time stamps, and the sweeps over batches that
`ORDER BY` and `LIMIT` may cut off.

**Repeats** (`Fingerprint.dfy`, `ReplyGate.dfy`, `OutboxGate.dfy`, `OutboxRuns.dfy`,
`OutboxWitness.dfy`, `Dedup.dfy`, `HoldFolder.dfy`). What a reply fingerprint tells apart, and what
the repeat gate lets through: a small machine over the texts of one submission. A function reads its
steps off any run of the interleaved model, step by step, so that the gate's laws become laws of the
outbox. When a redelivered email is recognised, and what the Hold folder and stale writes can change
of a submission.

**Texts and money** (`Strings.dfy`, `References.dfy`, `ReferenceParser.dfy`, `JsonScanner.dfy`,
`SpendCap.dfy`). The References header printed, folded and parsed back; the JSON object in a
model's answer; the daily spend cap under concurrent calls.

## Findings

- The program's README says a broker never gets the same request twice in a row
  (README.md:127-129). The code does not make that true: when a broker who was asked for a
  document speaks of attaching without attaching, the ask changes, and a plain email brings the
  first ask back while the second still waits (`OutboxWitness.LossRunsTwice`, a run of the outbox
  with three emails). The same comes about when a follow-up overtakes a job in the channel
  (`OutboxWitness.AskedAgainByWorker`). `OutboxRuns.BrokerAskedTwiceIff` says exactly when.
- The daily cap is not a hard limit: with k callers a day can cost the cap plus k calls, less
  one unit, and never more (`SpendCap.BoundIsReached`, `SpendCap.OvershootIsBounded`).
- A crash between a send and its mark does repeat the reply (`DispatchWitness.CrashCanRepeat`);
  no other crash and no other submission's fault does (`DispatchRuns.DeliveriesExactlyOnce`).
- A satisfied checklist item can become missing again when a short document arrives after an
  unread one (`ChecklistLaws.ShortDocumentUndoesSoftPass`);
  `ChecklistLaws.WhenSatisfactionIsUndone` says exactly when.
- An email that answers one submission and refers to another makes the first one's email
  ambiguous; delivered again, that is attached to the other submission
  (`Dedup.AmbiguousIsNotDuplicate`). `Dedup.DuplicateIff` says exactly when it is recognised.

## Assumptions

- A statement or transaction is one atomic step, and two writes of one outbox row never carry
  the same `updated_at`.
- An SMTP send that reports success has delivered once, and one that reports failure has
  delivered nothing, although it tries several times inside (internal/infrastructure/email/smtp.go:119-121).
- A crash loses memory, never the tables.
- The clock does not go back. One ingest, escalation or closure of a submission is atomic with
  respect to the others.
- SHA-256 maps different strings to different digests (`ReplyGate.DigestTellsApart` makes the
  assumption explicit).
- `strings.TrimSpace` and `strings.Fields` are parameters; where a law needs anything of them,
  its `requires` says so.

## Model

| member | source | states |
|---|---|---|
| `OutboxTable.UpsertKeepsRows` | internal/repository/outbox.go:72-108 | an insert or coalescing overwrite keeps at most one pending row a submission, and every row's submission and creation time |
| `OutboxTable.UpdateKeepsOnePending` | internal/repository/outbox.go:256-265 | the unguarded update cannot break the partial unique index either |
| `OutboxStore.Outbox.Insert` | internal/repository/outbox.go:72-108 | overwrites text, schedule and stamp of the submission's pending row, or adds a fresh row under the new uuid when there is none; no other row changes and the index holds |
| `OutboxStore.Outbox.MarkSent` | internal/repository/outbox.go:193-204 | settles the row exactly while it is pending at the version that was read, and changes nothing else |
| `OutboxStore.Outbox.Update` | internal/repository/outbox.go:256-265 | writes status, attempts and stamp of that row whatever its status or version, refused exactly on an index conflict |
| `OutboxStore.Outbox.ExpirePending` | internal/repository/outbox.go:207-219 | the pending rows created before the cutoff become failed, keeping all else; every other row stays as it is |
| `OutboxStore.Outbox.Prune` | internal/repository/outbox.go:243-253 | exactly the settled rows created before the cutoff go; the others stay as they are |
| `OutboxStore.Dispatcher.ClaimDispatch` | internal/service/submissions.go:272-283 | exactly one caller holds a claim until it is released |
| `OutboxStore.Dispatcher.ReleaseDispatch` | internal/service/submissions.go:285-289 | gives up that claim and no other |
| `OutboxStore.Dispatcher.EnqueueReply` | internal/service/submissions.go:294-308 | hands over exactly when the pool is open and not full; otherwise nothing stays queued or counted |
| `OutboxStore.EnqueueIsSteps` | internal/service/submissions.go:294-308 | that effect is what the steps EnterEnqueue, CountJob and PutJob of the interleaved model have in a row, or EnterEnqueue alone once the pool is closed |
| `DispatchInvariant.StepInv` | internal/service/submissions.go:242-308 | every one of the 34 kinds of steps keeps provenance, ownership, delivery order, attempt counts and pool together |
| `DispatchRuns.DeliveriesInOrder` | internal/service/submissions.go:904-972 | in every run, crashes included, no older reply of a submission goes out after a newer one, and its replies repeat at most once per fault that struck one of its own sends between delivery and mark |
| `DispatchRuns.DeliveriesExactlyOnce` | internal/service/submissions.go:252-265 | when no fault strikes a send of the submission before its mark, whatever else crashes or fails, its delivered commit numbers strictly increase |
| `DispatchRuns.SentWasDelivered` | internal/repository/outbox.go:193-204 | in every run a row marked sent holds a text that was delivered to its submission |
| `DispatchRuns.SentNeverLeaves` | internal/service/submissions.go:938-972 | in every run a sent row stays exactly as it is until it is pruned, and its id is never used again |
| `DispatchRuns.SendersAreCoordinated` | internal/service/submissions.go:242-308 | in every reachable state a submission is claimed exactly when one activity owns it, and only one; the counter equals the counted, queued and running jobs; the channel holds the queued ones; nothing is put on the closed channel |
| `DispatchRuns.AttemptsNeverFall` | internal/repository/outbox.go:91-103 | in every run the attempts of a row never fall, however many replies coalesce into it |
| `DispatchRuns.FailingSendsBounded` | internal/service/submissions.go:951-968 | in every run the sweeper makes at most ten failing sends on a row, plus one per attempt of that row that a failed write or a crash lost |
| `DispatchRows.FailingSendCounts` | internal/service/submissions.go:951-957 | in every run a failing send of the sweeper on a pending row, once written, counts for one attempt; the row stays pending below ten and fails at ten |
| `DispatchRows.FailsOnlyWhenSpent` | internal/service/submissions.go:951-968 | in every run a pending row fails only by expiry, by the end of a hold, or at the tenth attempt |
| `DispatchRows.RevivedOnlyByRetry` | internal/repository/outbox.go:256-265 | in every run a settled row waits again only when it had failed and a send taken up before fails for less than the tenth time |
| `DispatchRows.MarkedExactlyAsSent` | internal/repository/outbox.go:193-204 | in every run a pending row is marked sent exactly by the sender of the text it holds, at the version it has |
| `DispatchRows.CommitCoalesces` | internal/repository/outbox.go:72-108 | in every run a commit overwrites text and schedule of its submission's pending row, keeping attempts and creation time, or adds a row; no other row changes |
| `DispatchRows.ExpiryTakesTheOld` | internal/service/retention.go:24-31 | in every run the retention sweep fails exactly the pending rows created before its cutoff |
| `DispatchRows.ReleaseDropsTheirs` | internal/repository/outbox.go:222-240 | in every run the end of a hold fails exactly the pending rows of the submissions released |
| `DispatchRows.GoesOnlyWhenPruned` | internal/repository/outbox.go:243-253 | in every run a row goes exactly when a pruning finds it settled and created before the cutoff |
| `DispatchDue.SweeperSendsWhatIsDue` | internal/service/submissions.go:904-933 | in every run what a sweeper sends or tries was in its latest listing: pending then, its time come, untried or unwritten for two minutes, its submission not held or bounced |
| `DispatchDue.SkippedOnlyWhenBlocked` | internal/service/submissions.go:920-929 | and a listed row is passed over only if its submission was held or bounced at the listing, or is owned by somebody now |
| `DispatchDue.SweepMayStop` | internal/service/submissions.go:919-922 | a sweep may be cut short between any two rows, and leaves rows, claims and log as they are |
| `DispatchDue.WorkerSendsWhatIsDue` | internal/service/submissions.go:447-455 | in every run what a worker sends was scheduled for the very time of its commit |
| `DispatchDue.SkippedOnlyForLater` | internal/service/submissions.go:447-455 | in every run an ingest that holds the claim offers its reply to the workers unless it is scheduled for later |
| `DispatchDue.RetriesAreSpaced` | internal/repository/outbox.go:111-124 | in every run no sweep lists a row within two minutes of a failing send written into it, whatever is coalesced into it meanwhile |
| `DispatchDue.DueCanBeSent` | internal/service/submissions.go:904-972 | from any state a sweep can list and deliver a due row whose submission is not held, bounced or owned |
| `DispatchProgress.OwnerMovesOn` | internal/service/submissions.go:252-308 | every step leaves a claim with its owner, unchanged or nearer to its release, or releases it: no gap and no leak |
| `DispatchProgress.OwnersRunOut` | internal/service/submissions.go:252-308 | in every run, faults and failures included, each move of an activity while it owns a submission uses up one of its at most nine stages, so it cannot move on without coming to its release |
| `DispatchProgress.OwnershipEndsInRelease` | internal/service/submissions.go:285-289 | in every run an activity stops owning a submission only by giving the claim back |
| `DispatchProgress.ClaimsAreReleased` | internal/service/submissions.go:285-289 | from every state the invariants allow, an owner is never stuck: some continuation without faults releases any given claim |
| `DispatchWitness.CrashCanRepeat` | internal/service/submissions.go:252-265 | a run with one crash between a send and its mark delivers one reply twice, so the bound is exact |
| `Checklist.FillBuckets` | internal/model/checklist.go:141-164 | after one pass over the documents every item's bucket is what the definition says of that item |
| `Checklist.CheckRule` | internal/model/checklist.go:176-197 | the early-exit loop finds an affirming document if there is one, else the reason of the last failing one |
| `Checklist.JudgeItem` | internal/model/checklist.go:166-219 | reports an item exactly when it is not satisfied, with the defined code, reason and confidence |
| `Checklist.EvaluateChecklist` | internal/model/checklist.go:141-246 | the result is one report per unsatisfied item, in checklist order, as the one-item definition gives it |
| `Checklist.BrokerActionable` | internal/model/checklist.go:75-84 | keeps exactly the items whose code the broker can act on, in order |
| `Checklist.RequiresReview` | internal/model/checklist.go:64-71 | holds exactly when some item is unreadable or below the floor |
| `ChecklistLaws.OrderDoesNotMatter` | internal/model/checklist.go:141-198 | ids, codes and confidences are the same for every order of the documents |
| `ChecklistLaws.EvaluationIsUnique` | internal/model/checklist.go:141-246 | the definition leaves no freedom: two evaluations of the same documents are equal, reasons included |
| `ChecklistLaws.CompleteIffAllSatisfied` | internal/model/checklist.go:166-198 | nothing is missing exactly when every required item is satisfied |
| `ChecklistLaws.EvaluatorCodes` | internal/model/checklist.go:204-219 | every code the evaluator gives is one the broker or the agency acts on |
| `ChecklistLaws.EvaluatesItemByItem` | internal/model/checklist.go:166-198 | the reports on the parts of a checklist, one after the other, are the reports on the whole |
| `ChecklistLaws.NoDocument` | internal/model/checklist.go:204-219 | an item nothing is classified to is missing as not provided |
| `ChecklistLaws.UnusableDocument` | internal/model/checklist.go:151-163 | the only document of an item: locked, else scanned, else below the floor, with code, reason and confidence |
| `ChecklistLaws.UsableDocument` | internal/model/checklist.go:221-247 | the only usable document of an item, in terms of its extracted field: absent passes, null and non-numbers are unconfirmed, a number falls short exactly below the minimum |
| `ChecklistLaws.LastShortfallIsNamed` | internal/model/checklist.go:176-197 | of several documents the last one that falls short gives the reason |
| `ChecklistLaws.MostSpecificCause` | internal/model/checklist.go:200-219 | of several unusable documents the code is the most specific and the confidence the highest |
| `ChecklistLaws.AffirmedForGood` | internal/model/checklist.go:166-198 | an affirmed item is never missing again, whatever documents follow |
| `ChecklistLaws.WhenSatisfactionIsUndone` | internal/model/checklist.go:176-197 | one more document undoes a satisfied item exactly when it qualifies, fails the rule and nothing affirmed the item |
| `ChecklistLaws.ShortDocumentUndoesSoftPass` | internal/model/checklist.go:176-197 | a concrete pair of documents where that happens |
| `Decisions.Triage.ResolvePolicyType` | internal/service/submissions.go:676-693 | a known policy type never changes; an unknown one takes the subject's, and only failing that the body's, and never becomes unknown again |
| `Decisions.Triage.Evaluate` | internal/service/submissions.go:719-750 | the record after an evaluation, known and unknown policy type |
| `Decisions.Triage.BuildReply` | internal/service/submissions.go:831-855 | a completion note iff the type is known and nothing is missing, the policy question iff it is unknown and the asks are not spent, a request iff the type is known and some item is the broker's |
| `Decisions.Triage.FlagReview` | internal/service/submissions.go:392-395 | the review flag |
| `Decisions.SilentIff` | internal/service/submissions.go:392-430 | for any record, reachable or not, no reply and no flag exactly when something is missing, no code is anybody's and the asks are not spent |
| `Decisions.Triage.ExtractIdentity` | internal/service/submissions.go:376-379 | a named insured comes on a case only after an evaluation with a known policy type, and stays |
| `Decisions.Triage.ContentMatch` | internal/service/submissions.go:605-641 | a merge happens exactly when the named insured is the same and the case is open or awaiting; the documents are added and only a known policy type is evaluated again |
| `Decisions.EveryIngestIsHeard` | internal/service/submissions.go:330-430 | in every run of a case, new or stored without codes, through evaluated and merged emails, sweeps and changed registries, every ingest of mail that is neither a bounce nor automated leads to a reply or a flag, and a completion note means every required item is satisfied |
| `Decisions.AsksAreClean` | internal/model/checklist.go:21-29 | the reason codes hold neither separator of the fingerprint, so only the ids of a checklist can |
| `Decisions.NeverSilentAfterEvaluation` | internal/service/submissions.go:712-750 | after every evaluation there is a reply or a flag, and a completion note exactly when the checklist is met |
| `Decisions.QuestionsAreLimited` | internal/service/submissions.go:707-716 | in every run of emails without a policy type the n-th is answered with the question up to the limit, then flagged instead; a limit of zero is none |
| `Decisions.DocumentsAccumulate` | internal/service/submissions.go:719-750 | in every run a submission's documents are those it had and, in order, those of the emails whose policy type was known |
| `Decisions.WhoIsTold` | internal/model/checklist.go:62-84 | a locked, absent or short document leads to a request to the broker and no flag, a scanned or doubtful one to a flag and no request |
| `Decisions.AttachmentIsAskedFor` | internal/service/submissions.go:847-851 | the attachment is asked for exactly when the email brought none, spoke of one, and something is the broker's to do |
| `Decisions.InsuredIff` | internal/service/submissions.go:376-379 | in every run a case has a named insured exactly when an email with a known policy type gave one |
| `Decisions.CodesAreDistinct` | internal/model/checklist.go:21-29 | different reason codes have different texts |
| `Decisions.RequestNamesBrokerItems` | internal/service/submissions.go:842-855 | a request names exactly the items the broker can act on, or asks for the attachment; it is never empty |
| `Decisions.CompleteForGood` | internal/service/submissions.go:719-770 | once all items are affirmed, every later evaluation is complete under the same policy type, through any sequence of emails |
| `Decisions.ReturnsToComplete` | internal/service/submissions.go:754-770 | and the submission is complete again after it, from whatever state |
| `Lifecycle.Submission.TransitionTo` | internal/model/submission.go:121-147 | fails exactly on a move to open, or to escalated from anything but open or awaiting, and then changes nothing; otherwise the new state, every stamp of it said outright |
| `Lifecycle.Submission.MarkAction` | internal/model/submission.go:150-153 | moves the activity clock and nothing else |
| `Lifecycle.IngestAlwaysLands` | internal/service/submissions.go:754-770 | every state accepts an inbound email and lands in complete or awaiting, dated |
| `Lifecycle.IngestInPlainTerms` | internal/service/submissions.go:347-362 | what an ingested email makes of a row, column by column |
| `Sweeps.BatchTakesOldest` | internal/repository/submissions.go:311-370 | of the keys below any bound, a batch in key order takes all, or as many as its limit |
| `Sweeper.OrderLimit` | internal/repository/submissions.go:439-467 | returns such a batch for every table |
| `Sweeper.Sweeper.ComputeMinThreshold` | internal/service/submissions.go:1003-1011 | the least positive threshold over the registry, or the global one |
| `Sweeper.Sweeper.Escalate` | internal/service/submissions.go:1059-1078 | escalates exactly when the broker has something to do and the move is allowed, stamping the escalation; else nothing changes |
| `Sweeper.Sweeper.CloseQuiet` | internal/service/submissions.go:1129-1142 | leaves that row closed, from whatever state, and changes no other |
| `Sweeper.Sweeper.CheckEscalations` | internal/service/submissions.go:1002-1054 | escalates only rows due by the quiet or the bind rule, and when neither query is cut off exactly those awaiting a reachable broker who can act, not held, and idle past their own threshold or binding soon |
| `SweepLaws.QuietPassExactly` | internal/service/submissions.go:1012-1029 | the quiet pass, its batch not cut off, escalates a row exactly when it is nudgeable, idle for its own threshold and longer than the least one |
| `SweepLaws.IdleIsListed` | internal/service/submissions.go:1003-1029 | whoever is idle strictly longer than their own threshold is among those, because the least threshold is no larger |
| `SweepLaws.EscalationInPlainTerms` | internal/service/submissions.go:1003-1054 | the uncut tick row by row, from the row's columns and the configured hours, the boundary case of a row idle for exactly its threshold included |
| `SweepLaws.FewAwaiting` | internal/repository/submissions.go:371-436 | neither query is cut off while at most a hundred submissions are awaiting |
| `Sweeper.Sweeper.CheckClosures` | internal/service/submissions.go:1082-1127 | shuts only overdue rows, and min(cap, overdue) of each class whose window is open, by its own cutoff and by every earlier one; with few rows, exactly the overdue ones not held |
| `SweepLaws.ClosureInPlainTerms` | internal/service/submissions.go:1082-1142 | with at most a hundred complete, five hundred escalated and a hundred open or awaiting rows, a tick closes exactly the overdue ones |
| `SweepLaws.TicksDrain` | internal/service/submissions.go:1082-1142 | n ticks in a row take n times the cap off what was overdue at the first, in each class whose window is open |
| `SweepLaws.EverythingCloses` | internal/service/submissions.go:1082-1142 | enough ticks close every submission that was overdue at the first |
| `EscalationRuns.EscalationsAreSpaced` | internal/service/submissions.go:1002-1078 | in every run of one submission two consecutive escalations are at least the minimum gap or its quiet threshold apart, whichever is less |
| `EscalationRuns.ReachableAreDated` | internal/model/submission.go:121-147 | in every run an escalated submission was escalated at its last action and a complete one has a completion time, which is what the closing sweeps rely on |
| `EscalationRuns.TickIsAStep` | internal/service/submissions.go:1012-1054 | whatever an escalation tick does to a row is a step of such a run |
| `Fingerprint.ReplyFingerprint` | internal/model/reply.go:33-46 | writes the kind and the sorted keys, each behind a zero octet |
| `Fingerprint.PrintedParts` | internal/model/reply.go:24-46 | split at the zero octets, the text is the name of the reply and, sorted, each id and code behind a unit separator |
| `Fingerprint.SortedIsUnique` | internal/model/reply.go:38 | there is only one sorted order of the keys, so any sorting routine gives the same fingerprint |
| `Fingerprint.SameAskSamePrint` | internal/model/reply.go:30-46 | the same kind and the same items for the same reasons give one fingerprint, in any order |
| `Fingerprint.SamePrintSameAsk` | internal/model/reply.go:30-46 | when no id holds a zero octet, equal fingerprints mean equal kind and equal items and codes with their multiplicities |
| `Fingerprint.ZeroInIdCollides` | internal/model/reply.go:33-46 | with a zero octet in an id, one missing item and two missing items get one fingerprint |
| `ReplyGate.DigestTellsApart` | internal/model/reply.go:39-45 | any collision-free digest of that text is a fingerprint the gate can work with |
| `ReplyGate.NoRepeatIsQueued` | internal/service/submissions.go:417-431 | in every run of asks, take-ups, sends, marks, failures, dead letters, expiries and crashes two replies queued one after the other differ in kind or in items and codes, unless a dead letter came between |
| `ReplyGate.DroppedIffRepeat` | internal/service/submissions.go:425-429 | in every such run a reply is held back as unchanged exactly when it asks what the last queued one asked |
| `ReplyGate.WaitingIff` | internal/repository/outbox.go:193-265 | in every such run a reply waits exactly when something new was asked, or an expired row written back to pending, and since then it has not expired, no text taken up after it was marked and its row was not buried; it is the latest new ask |
| `ReplyGate.DeliveredIsTakenUp` | internal/service/submissions.go:447-455 | in every such run each delivery asks what was latest when its text was taken up: at its own commit on the online path, at the re-read by the sweeper |
| `ReplyGate.DeliveredTwiceIff` | internal/service/submissions.go:938-972 | so the broker gets the same request twice in a row exactly when the same ask was latest at the two take-ups |
| `ReplyGate.SameRequestTwice` | internal/service/submissions.go:847-851 | three emails without attachments, evaluated and decided as the program does, after which the broker has the request for the loss runs twice in a row |
| `ReplyGate.OvertakenInTheChannel` | internal/service/submissions.go:447-455 | a second way, for any two asks: the follow-up comes while the first waits for a worker, which sends the older text, and the first is asked again |
| `OutboxRuns.StepMatches` | internal/service/submissions.go:904-972 | of each of the 34 kinds of steps of the interleaved model any one submission sees a given step of the gate or none, and after it the same text waits, is held and is delivered, and the same fingerprint is stored; so too between a burial and the clearing of its fingerprint, whatever is committed or expires meanwhile |
| `OutboxRuns.OutboxIsGate` | internal/service/submissions.go:417-455 | in every interleaved run, for every submission, at every point and whatever its commits ask, as long as each passes the check against the stored fingerprint: the gate steps read off the run so far are a run of the gate, and it has delivered the texts of the log, in order, holds the pending row's text and stores the same fingerprint |
| `OutboxRuns.DeliveriesAreTakenUp` | internal/service/submissions.go:447-455 | in every interleaved run each text in a submission's log asks what was latest when it was taken up: at its own commit on the online path, at the re-read by the sweeper |
| `OutboxRuns.BrokerAskedTwiceIff` | internal/service/submissions.go:938-972 | so two texts next to each other in the log ask the same exactly when the same ask was latest at the two take-ups |
| `OutboxRuns.RowWaitsIff` | internal/repository/outbox.go:72-265 | in every interleaved run a submission has a pending row exactly when something new was committed, or an expired row written back, and since then it has not expired, no text taken up after it was marked and its row was not buried; the row holds the latest new ask |
| `OutboxWitness.AskedAgainBySweeper` | internal/service/submissions.go:904-972 | for any two asks an interleaved run of three commits that pass the check, after which the log holds the first ask twice in a row: the second was queued for later and overwritten |
| `OutboxWitness.AskedAgainByWorker` | internal/service/submissions.go:252-308 | another such run: the second overwrites the row while the first waits in the channel |
| `OutboxWitness.LossRunsTwice` | internal/service/submissions.go:847-851 | three emails without attachments, evaluated and decided as the program does, for which both runs give the broker the request for the loss runs twice in a row |
| `HoldFolder.OwnedColumns` | internal/repository/submissions.go:724-759 | through any writes, stale whole-row upserts among them, a row's hold flag and last-reply time are what their own setters last wrote, its creation time never changes, and all else is what the last upsert said |
| `HoldFolder.RowsComeByUpsert` | internal/repository/submissions.go:724-759 | a row is there exactly when it was or was upserted, and the first upsert says all of it |
| `HoldFolder.HoldDesk.SetOnHold` | internal/repository/submissions.go:586-600 | sets the flag of the named submissions and nothing else |
| `HoldFolder.SubmissionIDsByMessageIDs` | internal/repository/submissions.go:633-650 | the submissions with an email whose Message-ID is among the trimmed, non-blank ones |
| `HoldFolder.HoldDesk.ReconcileHold` | internal/service/submissions.go:1146-1193 | a submission is held exactly when it has a message in the folder, the pending replies of those released fail, nothing else changes |
| `HoldFolder.ReconcileIsIdempotent` | internal/service/submissions.go:1144-1193 | the held submissions are those in the folder, and reconciling again changes neither table |
| `HoldFolder.FailsExactlyTheReleased` | internal/repository/outbox.go:222-240 | a reply fails exactly when it was pending for a held submission that left the folder |
| `Dedup.EmailTable.UpsertEmailRow` | internal/repository/submissions.go:766-797 | an id already stored keeps its row and reports a duplicate |
| `Dedup.CleanThreadRefs` | internal/service/submissions.go:1799-1815 | the loop with its seen set computes the cleaned references |
| `Dedup.CleanedExactly` | internal/service/submissions.go:1799-1815 | which are exactly the trimmed, non-blank references, each once |
| `Dedup.Resolved` | internal/service/submissions.go:558-599 | every request has an outcome when every email belongs to a stored submission |
| `Dedup.ResolvedInPlainTerms` | internal/repository/submissions.go:181-271 | by its Message-ID, In-Reply-To and References an email goes to the related submission updated last, ties to the greater id, a duplicate exactly if stored there; related to none, a duplicate if stored anywhere, else a new submission |
| `Dedup.NewEmailIsFiled` | internal/repository/submissions.go:766-797 | a new email is stored, with its headers, under the submission it was resolved to |
| `Dedup.DuplicateIff` | internal/repository/submissions.go:181-271 | a stored email is reported as a duplicate exactly when no thread matches, or its own does and was updated later than every other match, ties going to the greater id |
| `Dedup.UnambiguousIsDuplicate` | internal/repository/submissions.go:181-226 | with a trimmed, non-blank Message-ID and an unambiguous lookup it is reported under its owner |
| `Dedup.FiledAt` | internal/repository/submissions.go:83-146 | in every run each email belongs to a stored submission |
| `Dedup.RedeliveryChangesNothing` | internal/service/submissions.go:558-599 | after every run from an empty store an email ingested before is, when its lookup is unambiguous, a duplicate of the same owner and leaves every table as it was |
| `Dedup.AmbiguousIsNotDuplicate` | internal/repository/submissions.go:258-271 | a run of three emails from an empty store after which the first, delivered again, is attached to another submission and nothing else can come out |
| `References.BuildRefs` | internal/infrastructure/email/smtp.go:175-204 | prints the sanitised, non-empty, not oversized ids of the last fifty, folded |
| `References.StripOne` | internal/infrastructure/email/smtp.go:165-171 | sanitising drops exactly line breaks, tabs, spaces and angle brackets |
| `References.StripBoth` | internal/infrastructure/email/smtp.go:165-171 | and does so character by character |
| `References.OneId` | internal/infrastructure/email/smtp.go:180-184 | a reference is printed, sanitised, exactly when that leaves 1 to 256 octets |
| `References.IdsOfBoth` | internal/infrastructure/email/smtp.go:180-188 | each reference is kept or dropped on its own, in order |
| `References.UnfoldedIsSpaced` | internal/infrastructure/email/smtp.go:189-204 | unfolded, the header is its name and the ids in angle brackets, a space between each two |
| `References.LinesBreakLate` | internal/infrastructure/email/smtp.go:173-204 | a line is broken only where the next id would not have fitted into 900 octets |
| `References.HeaderLinesFit` | internal/infrastructure/email/smtp.go:173-204 | every physical line of the header, its name included, has at most 900 octets |
| `ReferenceParser.SplitReferences` | internal/delivery/emailingest/translate.go:150-174 | each bracketed id in turn, or the id-like words when there is none |
| `ReferenceParser.TrimAngles` | internal/delivery/emailingest/translate.go:176-184 | the ids without angle brackets, empty ones dropped |
| `ReferenceParser.TrimAngleExactly` | internal/delivery/emailingest/translate.go:139-141 | angle brackets go at both ends and nothing else does |
| `ReferenceParser.WordsAreTaken` | internal/delivery/emailingest/translate.go:166-172 | without a bracketed id, exactly the words with an at sign and no angle bracket are taken |
| `ReferenceRoundTrip.RoundTrip` | internal/delivery/emailingest/translate.go:139-184 | parsing what was printed, folded or unfolded, gives back exactly the printed ids in order, for every list and every trimming |
| `ReferenceRoundTrip.PrintAndParse` | internal/infrastructure/email/smtp.go:165-204 | the same for the two loops run one after the other; ids that need no sanitising come back as they were, the newest fifty of them |
| `JsonScanner.ExtractJSON` | internal/infrastructure/llm/anthropic.go:521-555 | the text from the first opening brace to the first return to depth zero outside strings, or the whole input, always so without a brace |
| `JsonScanner.ExtractedIsFirstBalanced` | internal/infrastructure/llm/anthropic.go:519-555 | for every input with an opening brace: the shortest text from the first one on with as many closing as opening braces outside strings, or the input unchanged when there is none |
| `JsonScanner.ObjectIsExtracted` | internal/infrastructure/llm/anthropic.go:519-555 | every JSON object, whatever braces and escapes its strings hold, is extracted from behind any brace-free text and before any text; with a brace before it the scan starts at that brace |
| `JsonScanner.ExtractTwice` | internal/infrastructure/llm/anthropic.go:521-555 | extracting from what was extracted changes nothing, for every input |
| `SpendCap.SpendTable.Today` | internal/repository/llm_spend.go:23-33 | the day's total, zero when there is no row |
| `SpendCap.SpendTable.Add` | internal/repository/llm_spend.go:36-44 | adds to that day's row and to no other |
| `SpendCap.OvershootIsBounded` | internal/infrastructure/llm/anthropic.go:384-389 | in every interleaving, calls across midnight included, every day records no more than it costs and costs less than the cap plus one call for each caller and each failed read or write |
| `SpendCap.TotalsAreSums` | internal/repository/llm_spend.go:36-44 | in every run a day's row is the sum of the costs added on it, and what a day costs that of the calls that end on it |
| `SpendCap.AdmittedBelowCap` | internal/infrastructure/llm/anthropic.go:384-389 | in every run a total that could be read admits a call only below the cap |
| `SpendCap.FailsOpen` | internal/infrastructure/llm/anthropic.go:384-389 | after every run a total that cannot be read keeps no call back |
| `SpendCap.NoCapNoLimit` | internal/infrastructure/llm/anthropic.go:385 | with a cap of zero a day may cost any amount |
| `SpendCap.BoundIsReached` | internal/infrastructure/llm/anthropic.go:433-443 | for all limits some run without a failure costs one unit less than that bound |

## Left out

- SQL text, JSON encoding, SQLite locking and migrations: tables are maps, statements are atomic steps.
- SMTP, IMAP, OAuth and HTTP clients, configuration, logging, audit trail and health endpoint: plumbing over libraries.
- Text extraction from PDF, DOCX, XLSX and CSV, classification and identity extraction by the model: their results are arbitrary inputs.
- Inference of the policy type from subject and body, and the search for file-sharing hosts: string searches whose results are parameters.
- The wording of replies and digests, greeting names, retry timing inside one send, glob matching: easy or bound to libraries.
- The coalescing window: a commit's schedule is any time from now on.
- Outbox rows whose stored reply cannot be decoded, and the `last_error` text: the insert only writes encoded replies.
- How content threading compares named insured, sender and creation time: whether they match is a parameter; the guards on the stored case and the merge are modelled.
- Interleaving of two ingests or of an ingest and a sweep on one submission row: the life-cycle columns and the check of `last_reply_hash` are modelled with atomic ingests and sweeps; only the clearing of a dead letter's fingerprint is interleaved (`OutboxRuns.StepMatches`).
- DispatchProgress.ClaimsAreReleased: no scheduler is modelled; that an owner that keeps moving comes to its release in every run is `DispatchProgress.OwnersRunOut`.
- Fingerprint.SamePrintSameAsk: one way only for ids with zero octets, because such an id collides only when its parts happen to be keys in sorted order.
- OutboxRuns.OutboxIsGate: one way; that each run of the gate is seen in some run of the outbox is not shown. An ingest that is dropped as a repeat is no step of the interleaved model.
- SpendCap.OvershootIsBounded: counts estimated costs in a smallest unit instead of floating point.
- JsonScanner.ObjectIsExtracted: accepts every spelling made of number characters as a number, which is more than JSON allows.
