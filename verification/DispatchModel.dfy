/**
The two senders of internal/service/submissions.go as interleaved atomic steps over
the shared outbox table, the in-memory dispatch claims, the job channel and the
in-flight counter.

An activity is one thread of work that may own a submission's outbound reply. An
online activity follows one reply from the ingest that claimed it, through the
channel, to the worker that sends it; a sweeping activity is one RedeliverOutbox
call. Each commit has a number, which also stands for the text it queued and for
the uuid it offers to the insert.
*/
module DispatchModel {
  import opened OutboxTable

  const MAX_ATTEMPTS: nat := 10
  const QUEUE_SIZE: nat := 64
  const OUTBOX_BATCH: nat := 100
  const RETRY_AFTER: int := 120_000_000_000

  /** A reply in hand: the row it came from, its text and the row version it was read at. */
  datatype Job = Job(sub: SubId, row: RowId, reply: nat, version: int)

  datatype Listed = Listed(row: RowId, sub: SubId)

  datatype Activity =
    // online path: ingest
    | Claimed(sub: SubId, held: bool)        // claimDispatch returned `held`, the row is not committed yet
    | Committed(job: Job, due: bool)         // the transaction committed while the claim is held
    | Enqueueing(job: Job)                   // in enqueueReply with the read lock, the pool is open
    | Counted(job: Job)                      // inFlightWG raised, the read lock still held
    | Releasing(sub: SubId)                  // not handed over; the claim is still to be released
    // online path: channel and worker
    | Queued(job: Job)
    | Sending(job: Job)
    | Marking(job: Job)                      // sent; the mark-sent is still to run
    | Finishing(sub: SubId)                  // the deferred release is still to run
    | Leaving                                // released; inFlightWG.Done is still to run
    // sweeper
    | Sweeping(rest: seq<Listed>, blocked: set<SubId>)
    | Rereading(row: RowId, sub: SubId, rest: seq<Listed>, blocked: set<SubId>)
    | Redelivering(job: Job, attempts: nat, rest: seq<Listed>, blocked: set<SubId>)
    | SweepMarking(job: Job, rest: seq<Listed>, blocked: set<SubId>)
    | SweepFailing(job: Job, attempts: nat, rest: seq<Listed>, blocked: set<SubId>)
    | Settling(sub: SubId, rest: seq<Listed>, blocked: set<SubId>)

  /** Whether an activity believes it owns the submission's outbound reply. */
  predicate Owns(a: Activity, sub: SubId) {
    match a
    case Claimed(s, held) => held && s == sub
    case Committed(job, _) => job.sub == sub
    case Enqueueing(job) => job.sub == sub
    case Counted(job) => job.sub == sub
    case Releasing(s) => s == sub
    case Queued(job) => job.sub == sub
    case Sending(job) => job.sub == sub
    case Marking(job) => job.sub == sub
    case Finishing(s) => s == sub
    case Leaving => false
    case Sweeping(_, _) => false
    case Rereading(_, s, _, _) => s == sub
    case Redelivering(job, _, _, _) => job.sub == sub
    case SweepMarking(job, _, _) => job.sub == sub
    case SweepFailing(job, _, _, _) => job.sub == sub
    case Settling(s, _, _) => s == sub
  }

  type ActId = nat

  datatype Sys = Sys(
    clock: int,                       // the next updated_at stamp; every write takes a new one
    commits: nat,                     // number of the next commit
    rows: Table,
    dispatching: set<SubId>,          // the claims
    acts: map<ActId, Activity>,
    queue: seq<ActId>,                // the channel
    closed: bool,
    channelClosed: bool,
    panicked: bool,                   // a send on the closed channel, or a negative WaitGroup
    inFlight: int,
    blocked: set<SubId>,              // held or hard-bounced submissions
    // history
    log: Logs,                        // replies delivered, per submission
    unmarked: map<SubId, nat>,        // sends whose mark-sent a fault kept from running, per submission
    failures: map<RowId, nat>,        // failing sweeper sends, per row
    lost: map<RowId, nat>             // failing sends that a failed write or a crash kept out of the row, per row
  )

  ghost predicate Init(s: Sys) {
    s == Sys(s.clock, 0, map[], {}, map[], [], false, false, false, 0, {}, map[], map[], map[], map[])
  }

  type Logs = map<SubId, seq<nat>>

  function LogOf(log: Logs, sub: SubId): seq<nat> {
    if sub in log then log[sub] else []
  }

  function Tally(counts: map<nat, nat>, key: nat): nat {
    if key in counts then counts[key] else 0
  }

  function Raised(counts: map<nat, nat>, keys: set<nat>): map<nat, nat> {
    map k | k in counts.Keys + keys :: Tally(counts, k) + (if k in keys then 1 else 0)
  }

  /** The submissions with a send that still awaits its mark. */
  function AwaitingMark(acts: map<ActId, Activity>): set<SubId> {
    set t | t in acts && (acts[t].Marking? || acts[t].SweepMarking?) :: acts[t].job.sub
  }

  /** The rows with a failing send that still awaits its write. */
  function AwaitingWrite(acts: map<ActId, Activity>): set<RowId> {
    set t | t in acts && acts[t].SweepFailing? :: acts[t].job.row
  }

  datatype Step =
    // ingest
    | IngestClaim(t: ActId, sub: SubId)
    | CommitFail(t: ActId)
    | Commit(t: ActId, row: RowId, now: int, notBefore: int)
    | SkipOnline(t: ActId)
    | EnterEnqueue(t: ActId)
    | CountJob(t: ActId)
    | PutJob(t: ActId)
    | Release(t: ActId)
    // worker
    | TakeJob
    | SendOk(t: ActId)
    | SendFail(t: ActId)
    | Mark(t: ActId)
    | MarkFail(t: ActId)
    | Finish(t: ActId)
    | Leave(t: ActId)
    // sweeper
    | SweepList(t: ActId, batch: seq<RowId>)
    | SweepEnd(t: ActId)
    | SweepSkip(t: ActId)
    | SweepClaim(t: ActId)
    | Reread(t: ActId, ok: bool)
    | ResendOk(t: ActId)
    | ResendFail(t: ActId)
    | SweepMark(t: ActId)
    | SweepMarkFail(t: ActId)
    | Settle(t: ActId, ok: bool)
    | SweepRelease(t: ActId)
    // the rest of the process
    | ExpireOld(cutoff: int)
    | DropReleased(subs: set<SubId>)
    | PruneOld(cutoff: int)
    | SetBlocked(subs: set<SubId>)
    | Tick(span: nat)
    | ShutdownFlag
    | CloseChannel
    | Crash

  function Listing(rows: Table, batch: seq<RowId>): seq<Listed>
    requires forall i :: 0 <= i < |batch| ==> batch[i] in rows
  {
    seq(|batch|, i requires 0 <= i < |batch| => Listed(batch[i], rows[batch[i]].sub))
  }

  /** The status a failing sweep writes for the attempt count it computed. */
  function FailStatus(attempts: nat): Status {
    if attempts < MAX_ATTEMPTS then Pending else Failed
  }

  /** A successful SMTP send, appended to the submission's delivery log. */
  function Delivered(s: Sys, job: Job): Logs {
    s.log[job.sub := LogOf(s.log, job.sub) + [job.reply]]
  }

  // ---- ingest ----

  ghost predicate DoIngestClaim(s: Sys, t: ActId, sub: SubId, s': Sys) {
    && t !in s.acts
    && s' == s.(acts := s.acts[t := Claimed(sub, sub !in s.dispatching)],
                dispatching := s.dispatching + {sub})
  }

  ghost predicate DoCommitFail(s: Sys, t: ActId, s': Sys) {
    && t in s.acts && s.acts[t].Claimed?
    && s' == s.(acts := if s.acts[t].held then s.acts[t := Releasing(s.acts[t].sub)] else s.acts - {t})
  }

  ghost predicate DoCommit(s: Sys, t: ActId, row: RowId, now: int, notBefore: int, s': Sys) {
    && t in s.acts && s.acts[t].Claimed?
    && now <= notBefore && now <= s.clock
    && IsUpsertTarget(s.rows, s.acts[t].sub, s.commits, row)
    && var sub := s.acts[t].sub;
       s' == s.(rows := Upsert(s.rows, row, sub, s.commits, s.clock, notBefore),
                clock := s.clock + 1,
                commits := s.commits + 1,
                acts := if s.acts[t].held
                        then s.acts[t := Committed(Job(sub, row, s.commits, s.clock), notBefore <= now)]
                        else s.acts - {t})
  }

  ghost predicate DoSkipOnline(s: Sys, t: ActId, s': Sys) {
    && t in s.acts && s.acts[t].Committed? && !s.acts[t].due
    && s' == s.(acts := s.acts[t := Releasing(s.acts[t].job.sub)])
  }

  ghost predicate DoEnterEnqueue(s: Sys, t: ActId, s': Sys) {
    && t in s.acts && s.acts[t].Committed? && s.acts[t].due
    && s' == s.(acts := s.acts[t := if s.closed then Releasing(s.acts[t].job.sub) else Enqueueing(s.acts[t].job)])
  }

  ghost predicate DoCountJob(s: Sys, t: ActId, s': Sys) {
    && t in s.acts && s.acts[t].Enqueueing?
    && s' == s.(acts := s.acts[t := Counted(s.acts[t].job)], inFlight := s.inFlight + 1)
  }

  ghost predicate DoPutJob(s: Sys, t: ActId, s': Sys) {
    && t in s.acts && s.acts[t].Counted?
    && if s.channelClosed then
         s' == s.(panicked := true)
       else if |s.queue| < QUEUE_SIZE then
         s' == s.(acts := s.acts[t := Queued(s.acts[t].job)], queue := s.queue + [t])
       else
         s' == s.(acts := s.acts[t := Releasing(s.acts[t].job.sub)], inFlight := s.inFlight - 1,
                  panicked := s.panicked || s.inFlight <= 0)
  }

  ghost predicate DoRelease(s: Sys, t: ActId, s': Sys) {
    && t in s.acts && s.acts[t].Releasing?
    && s' == s.(acts := s.acts - {t}, dispatching := s.dispatching - {s.acts[t].sub})
  }

  // ---- worker ----

  ghost predicate DoTakeJob(s: Sys, s': Sys) {
    && |s.queue| > 0 && s.queue[0] in s.acts && s.acts[s.queue[0]].Queued?
    && s' == s.(queue := s.queue[1..], acts := s.acts[s.queue[0] := Sending(s.acts[s.queue[0]].job)])
  }

  ghost predicate DoSendOk(s: Sys, t: ActId, s': Sys) {
    && t in s.acts && s.acts[t].Sending?
    && s' == s.(acts := s.acts[t := Marking(s.acts[t].job)], log := Delivered(s, s.acts[t].job))
  }

  ghost predicate DoSendFail(s: Sys, t: ActId, s': Sys) {
    && t in s.acts && s.acts[t].Sending?
    && s' == s.(acts := s.acts[t := Finishing(s.acts[t].job.sub)])
  }

  ghost predicate DoMark(s: Sys, t: ActId, s': Sys) {
    && t in s.acts && s.acts[t].Marking?
    && s' == s.(acts := s.acts[t := Finishing(s.acts[t].job.sub)],
                rows := MarkSent(s.rows, s.acts[t].job.row, s.acts[t].job.version, s.clock),
                clock := s.clock + 1)
  }

  ghost predicate DoMarkFail(s: Sys, t: ActId, s': Sys) {
    && t in s.acts && s.acts[t].Marking?
    && s' == s.(acts := s.acts[t := Finishing(s.acts[t].job.sub)],
                unmarked := Raised(s.unmarked, {s.acts[t].job.sub}))
  }

  ghost predicate DoFinish(s: Sys, t: ActId, s': Sys) {
    && t in s.acts && s.acts[t].Finishing?
    && s' == s.(acts := s.acts[t := Leaving], dispatching := s.dispatching - {s.acts[t].sub})
  }

  ghost predicate DoLeave(s: Sys, t: ActId, s': Sys) {
    && t in s.acts && s.acts[t].Leaving?
    && s' == s.(acts := s.acts - {t}, inFlight := s.inFlight - 1, panicked := s.panicked || s.inFlight <= 0)
  }

  // ---- sweeper ----

  ghost predicate DoSweepList(s: Sys, t: ActId, batch: seq<RowId>, s': Sys) {
    && t !in s.acts
    && IsDueBatch(s.rows, s.clock, s.clock - RETRY_AFTER, OUTBOX_BATCH, batch)
    && s' == s.(acts := s.acts[t := Sweeping(Listing(s.rows, batch), s.blocked)])
  }

  ghost predicate DoSweepEnd(s: Sys, t: ActId, s': Sys) {
    && t in s.acts && s.acts[t].Sweeping?
    && s' == s.(acts := s.acts - {t})
  }

  ghost predicate DoSweepSkip(s: Sys, t: ActId, s': Sys) {
    && t in s.acts && s.acts[t].Sweeping? && s.acts[t].rest != []
    && (s.acts[t].rest[0].sub in s.acts[t].blocked || s.acts[t].rest[0].sub in s.dispatching)
    && s' == s.(acts := s.acts[t := Sweeping(s.acts[t].rest[1..], s.acts[t].blocked)])
  }

  ghost predicate DoSweepClaim(s: Sys, t: ActId, s': Sys) {
    && t in s.acts && s.acts[t].Sweeping? && s.acts[t].rest != []
    && s.acts[t].rest[0].sub !in s.acts[t].blocked && s.acts[t].rest[0].sub !in s.dispatching
    && var a := s.acts[t];
       s' == s.(acts := s.acts[t := Rereading(a.rest[0].row, a.rest[0].sub, a.rest[1..], a.blocked)],
                dispatching := s.dispatching + {a.rest[0].sub})
  }

  /** GetPending under the claim; `ok` is false when the read fails. */
  ghost predicate DoReread(s: Sys, t: ActId, ok: bool, s': Sys) {
    && t in s.acts && s.acts[t].Rereading?
    && var a := s.acts[t];
       s' == s.(acts := s.acts[t :=
         if ok && IsPending(s.rows, a.row)
         then var r := s.rows[a.row];
              Redelivering(Job(r.sub, a.row, r.reply, r.updatedAt), r.attempts, a.rest, a.blocked)
         else Settling(a.sub, a.rest, a.blocked)])
  }

  ghost predicate DoResendOk(s: Sys, t: ActId, s': Sys) {
    && t in s.acts && s.acts[t].Redelivering?
    && var a := s.acts[t];
       s' == s.(acts := s.acts[t := SweepMarking(a.job, a.rest, a.blocked)], log := Delivered(s, a.job))
  }

  ghost predicate DoResendFail(s: Sys, t: ActId, s': Sys) {
    && t in s.acts && s.acts[t].Redelivering?
    && var a := s.acts[t];
       s' == s.(acts := s.acts[t := SweepFailing(a.job, a.attempts, a.rest, a.blocked)],
                failures := s.failures[a.job.row := Tally(s.failures, a.job.row) + 1])
  }

  ghost predicate DoSweepMark(s: Sys, t: ActId, s': Sys) {
    && t in s.acts && s.acts[t].SweepMarking?
    && var a := s.acts[t];
       s' == s.(acts := s.acts[t := Settling(a.job.sub, a.rest, a.blocked)],
                rows := MarkSent(s.rows, a.job.row, a.job.version, s.clock),
                clock := s.clock + 1)
  }

  ghost predicate DoSweepMarkFail(s: Sys, t: ActId, s': Sys) {
    && t in s.acts && s.acts[t].SweepMarking?
    && var a := s.acts[t];
       s' == s.(acts := s.acts[t := Settling(a.job.sub, a.rest, a.blocked)],
                unmarked := Raised(s.unmarked, {a.job.sub}))
  }

  /** A failing send's Update; `ok` is false when the write itself fails. */
  ghost predicate DoSettle(s: Sys, t: ActId, ok: bool, s': Sys) {
    && t in s.acts && s.acts[t].SweepFailing?
    && var a := s.acts[t];
       s' == s.(acts := s.acts[t := Settling(a.job.sub, a.rest, a.blocked)],
                rows := if ok
                        then Update(s.rows, a.job.row, FailStatus(a.attempts + 1), a.attempts + 1, s.clock)
                        else s.rows,
                clock := s.clock + 1,
                lost := if ok then s.lost else Raised(s.lost, {a.job.row}))
  }

  ghost predicate DoSweepRelease(s: Sys, t: ActId, s': Sys) {
    && t in s.acts && s.acts[t].Settling?
    && var a := s.acts[t];
       s' == s.(acts := s.acts[t := Sweeping(a.rest, a.blocked)], dispatching := s.dispatching - {a.sub})
  }

  // ---- the rest of the process ----

  /** The write lock waits for every reader inside enqueueReply. */
  ghost predicate DoShutdownFlag(s: Sys, s': Sys) {
    && !s.closed
    && (forall t :: t in s.acts ==> !s.acts[t].Enqueueing? && !s.acts[t].Counted?)
    && s' == s.(closed := true)
  }

  ghost predicate DoCloseChannel(s: Sys, s': Sys) {
    && s.closed && !s.channelClosed
    && s' == s.(channelClosed := true)
  }

  /** The process dies and restarts: memory is gone, the table stays. */
  ghost predicate DoCrash(s: Sys, s': Sys) {
    s' == s.(dispatching := {}, acts := map[], queue := [], closed := false, channelClosed := false,
             inFlight := 0, unmarked := Raised(s.unmarked, AwaitingMark(s.acts)),
             lost := Raised(s.lost, AwaitingWrite(s.acts)))
  }

  ghost predicate Next(s: Sys, step: Step, s': Sys) {
    match step
    case IngestClaim(t, sub) => DoIngestClaim(s, t, sub, s')
    case CommitFail(t) => DoCommitFail(s, t, s')
    case Commit(t, row, now, notBefore) => DoCommit(s, t, row, now, notBefore, s')
    case SkipOnline(t) => DoSkipOnline(s, t, s')
    case EnterEnqueue(t) => DoEnterEnqueue(s, t, s')
    case CountJob(t) => DoCountJob(s, t, s')
    case PutJob(t) => DoPutJob(s, t, s')
    case Release(t) => DoRelease(s, t, s')
    case TakeJob => DoTakeJob(s, s')
    case SendOk(t) => DoSendOk(s, t, s')
    case SendFail(t) => DoSendFail(s, t, s')
    case Mark(t) => DoMark(s, t, s')
    case MarkFail(t) => DoMarkFail(s, t, s')
    case Finish(t) => DoFinish(s, t, s')
    case Leave(t) => DoLeave(s, t, s')
    case SweepList(t, batch) => DoSweepList(s, t, batch, s')
    case SweepEnd(t) => DoSweepEnd(s, t, s')
    case SweepSkip(t) => DoSweepSkip(s, t, s')
    case SweepClaim(t) => DoSweepClaim(s, t, s')
    case Reread(t, ok) => DoReread(s, t, ok, s')
    case ResendOk(t) => DoResendOk(s, t, s')
    case ResendFail(t) => DoResendFail(s, t, s')
    case SweepMark(t) => DoSweepMark(s, t, s')
    case SweepMarkFail(t) => DoSweepMarkFail(s, t, s')
    case Settle(t, ok) => DoSettle(s, t, ok, s')
    case SweepRelease(t) => DoSweepRelease(s, t, s')
    case ExpireOld(cutoff) => s' == s.(rows := ExpirePending(s.rows, cutoff, s.clock), clock := s.clock + 1)
    case DropReleased(subs) => s' == s.(rows := ExpireFor(s.rows, subs, s.clock), clock := s.clock + 1)
    case PruneOld(cutoff) => s' == s.(rows := Prune(s.rows, cutoff))
    case SetBlocked(subs) => s' == s.(blocked := subs)
    case Tick(span) => s' == s.(clock := s.clock + span)
    case ShutdownFlag => DoShutdownFlag(s, s')
    case CloseChannel => DoCloseChannel(s, s')
    case Crash => DoCrash(s, s')
  }
}
