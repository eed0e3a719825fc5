/**
What a step does to the replies in hand. The delivery proofs need only four things
about an activity: the text it holds, whether it is about to send it, has sent it or
has failed to, and which listed rows it still has to visit. This module gives that
view and shows which of a dozen shapes each step has.
*/
module DispatchShapes {
  import opened OutboxTable
  import opened DispatchModel

  datatype Hand =
    | Empty
    | Online(job: Job)                     // text taken at commit, not sent yet
    | Offline(job: Job, attempts: nat)     // text re-read by a sweeper, not sent yet
    | Fired(job: Job)                      // sent; the row is still to be marked
    | Missed(job: Job, attempts: nat)      // a sweeper's send failed; the row is still to be updated

  function HandOf(a: Activity): Hand {
    match a
    case Committed(job, _) => Online(job)
    case Enqueueing(job) => Online(job)
    case Counted(job) => Online(job)
    case Queued(job) => Online(job)
    case Sending(job) => Online(job)
    case Marking(job) => Fired(job)
    case Redelivering(job, attempts, _, _) => Offline(job, attempts)
    case SweepMarking(job, _, _) => Fired(job)
    case SweepFailing(job, attempts, _, _) => Missed(job, attempts)
    case _ => Empty
  }

  function RestOf(a: Activity): seq<Listed> {
    match a
    case Sweeping(rest, _) => rest
    case Rereading(row, sub, rest, _) => [Listed(row, sub)] + rest
    case Redelivering(_, _, rest, _) => rest
    case SweepMarking(_, rest, _) => rest
    case SweepFailing(_, _, rest, _) => rest
    case Settling(_, rest, _) => rest
    case _ => []
  }

  function HandAt(s: Sys, t: ActId): Hand {
    if t in s.acts then HandOf(s.acts[t]) else Empty
  }

  function RestAt(s: Sys, t: ActId): seq<Listed> {
    if t in s.acts then RestOf(s.acts[t]) else []
  }

  ghost predicate Others(s: Sys, s': Sys, t: ActId) {
    forall u :: u != t ==> HandAt(s', u) == HandAt(s, u) && RestAt(s', u) == RestAt(s, u)
  }

  /** The listed rows still to visit do not grow. */
  ghost predicate RestShrinks(s: Sys, s': Sys, t: ActId) {
    forall l :: l in RestAt(s', t) ==> l in RestAt(s, t)
  }

  ghost predicate SameHistory(s: Sys, s': Sys) {
    s'.log == s.log && s'.unmarked == s.unmarked && s'.failures == s.failures && s'.lost == s.lost
  }

  ghost predicate SameTable(s: Sys, s': Sys) {
    s'.rows == s.rows && s'.commits == s.commits && s'.clock == s.clock
  }

  /** Nothing but the hand of `t` moves, and a hand is only put down before its text is sent. */
  ghost predicate Quiet(s: Sys, s': Sys, t: ActId) {
    && SameTable(s, s') && SameHistory(s, s') && Others(s, s', t) && RestShrinks(s, s', t)
    && (HandAt(s', t) == HandAt(s, t) || (HandAt(s', t).Empty? && !HandAt(s, t).Fired? && !HandAt(s, t).Missed?))
  }

  /** A new sweep lists pending rows. */
  ghost predicate Lists(s: Sys, s': Sys, t: ActId) {
    && SameTable(s, s') && SameHistory(s, s') && Others(s, s', t)
    && HandAt(s', t).Empty?
    && forall l :: l in RestAt(s', t) ==> l.row in s.rows && s.rows[l.row].sub == l.sub
  }

  /** A commit queues a reply; the activity keeps it in hand if it owns the submission. */
  ghost predicate Commits(s: Sys, s': Sys, t: ActId, sub: SubId, row: RowId, notBefore: int) {
    && IsUpsertTarget(s.rows, sub, s.commits, row)
    && s'.rows == Upsert(s.rows, row, sub, s.commits, s.clock, notBefore)
    && s'.clock == s.clock + 1 && s'.commits == s.commits + 1
    && SameHistory(s, s') && Others(s, s', t) && RestShrinks(s, s', t)
    && HandAt(s, t).Empty?
    && (HandAt(s', t).Empty? ||
        (HandAt(s', t) == Online(Job(sub, row, s.commits, s.clock)) && t in s.acts && Owns(s.acts[t], sub)))
  }

  /** A text in hand is sent. */
  ghost predicate Sends(s: Sys, s': Sys, t: ActId) {
    && SameTable(s, s') && Others(s, s', t) && RestShrinks(s, s', t)
    && s'.unmarked == s.unmarked && s'.failures == s.failures && s'.lost == s.lost
    && (HandAt(s, t).Online? || HandAt(s, t).Offline?)
    && HandAt(s', t) == Fired(HandAt(s, t).job)
    && s'.log == Delivered(s, HandAt(s, t).job)
  }

  /** The mark-sent of a sent text runs. */
  ghost predicate Marks(s: Sys, s': Sys, t: ActId) {
    && SameHistory(s, s') && Others(s, s', t) && RestShrinks(s, s', t)
    && HandAt(s, t).Fired? && HandAt(s', t).Empty?
    && s'.rows == MarkSent(s.rows, HandAt(s, t).job.row, HandAt(s, t).job.version, s.clock)
    && s'.clock == s.clock + 1 && s'.commits == s.commits
  }

  /** The mark-sent of a sent text does not run. */
  ghost predicate LosesMark(s: Sys, s': Sys, t: ActId) {
    && SameTable(s, s') && Others(s, s', t) && RestShrinks(s, s', t)
    && HandAt(s, t).Fired? && HandAt(s', t).Empty?
    && s'.log == s.log && s'.failures == s.failures && s'.lost == s.lost
    && s'.unmarked == Raised(s.unmarked, {HandAt(s, t).job.sub})
  }

  /** A sweeper that owns the submission takes the row's current text. */
  ghost predicate Reads(s: Sys, s': Sys, t: ActId, row: RowId) {
    && SameTable(s, s') && SameHistory(s, s') && Others(s, s', t) && RestShrinks(s, s', t)
    && HandAt(s, t).Empty?
    && IsPending(s.rows, row)
    && HandAt(s', t) == Offline(Job(s.rows[row].sub, row, s.rows[row].reply, s.rows[row].updatedAt),
      s.rows[row].attempts)
    && exists l :: l in RestAt(s, t) && l.row == row && t in s.acts && Owns(s.acts[t], l.sub)
  }

  /** A sweeper's send fails. */
  ghost predicate Misses(s: Sys, s': Sys, t: ActId) {
    && SameTable(s, s') && Others(s, s', t) && RestShrinks(s, s', t)
    && s'.log == s.log && s'.unmarked == s.unmarked && s'.lost == s.lost
    && HandAt(s, t).Offline? && HandAt(s', t) == Missed(HandAt(s, t).job, HandAt(s, t).attempts)
    && s'.failures == s.failures[HandAt(s, t).job.row := Tally(s.failures, HandAt(s, t).job.row) + 1]
  }

  /** A failing send is written into its row, or that write fails. */
  ghost predicate Settles(s: Sys, s': Sys, t: ActId, ok: bool) {
    && Others(s, s', t) && RestShrinks(s, s', t)
    && s'.log == s.log && s'.unmarked == s.unmarked && s'.failures == s.failures
    && HandAt(s, t).Missed? && HandAt(s', t).Empty?
    && s'.rows == (if ok then Update(s.rows, HandAt(s, t).job.row, FailStatus(HandAt(s, t).attempts + 1),
                                     HandAt(s, t).attempts + 1, s.clock) else s.rows)
    && s'.clock == s.clock + 1 && s'.commits == s.commits
    && s'.lost == (if ok then s.lost else Raised(s.lost, {HandAt(s, t).job.row}))
  }

  ghost predicate Fails(s: Sys, s': Sys, id: RowId)
    requires id in s.rows && id in s'.rows
  {
    s.rows[id].status.Pending? && s'.rows[id] == s.rows[id].(status := Failed, updatedAt := s.clock) &&
      s'.clock == s.clock + 1
  }

  /** Rows are failed or pruned, or only time passes; no activity moves. */
  ghost predicate Retires(s: Sys, s': Sys) {
    && s'.acts == s.acts && s'.dispatching == s.dispatching && SameHistory(s, s')
    && s'.commits == s.commits && s.clock <= s'.clock
    && (forall id :: id in s'.rows ==> id in s.rows && (s'.rows[id] == s.rows[id] || Fails(s, s', id)))
    && (forall id :: IsPending(s.rows, id) ==> id in s'.rows)
  }

  // ---- every step has one of these shapes ----

  lemma ClaimShape(s: Sys, t: ActId, sub: SubId, s': Sys)
    requires DoIngestClaim(s, t, sub, s')
    ensures Quiet(s, s', t)
  {
  }

  lemma CommitFailShape(s: Sys, t: ActId, s': Sys)
    requires DoCommitFail(s, t, s')
    ensures Quiet(s, s', t)
  {
  }

  lemma SkipShape(s: Sys, t: ActId, s': Sys)
    requires DoSkipOnline(s, t, s')
    ensures Quiet(s, s', t)
  {
  }

  lemma ReleaseShape(s: Sys, t: ActId, s': Sys)
    requires DoRelease(s, t, s')
    ensures Quiet(s, s', t)
  {
  }

  lemma EnterShape(s: Sys, t: ActId, s': Sys)
    requires DoEnterEnqueue(s, t, s')
    ensures Quiet(s, s', t)
  {
  }

  lemma CountShape(s: Sys, t: ActId, s': Sys)
    requires DoCountJob(s, t, s')
    ensures Quiet(s, s', t)
  {
  }

  lemma OneMoves(s: Sys, s': Sys, t: ActId, a: Activity)
    requires s'.acts == s.acts[t := a]
    ensures Others(s, s', t)
  {
  }

  lemma PutShape(s: Sys, t: ActId, s': Sys)
    requires DoPutJob(s, t, s')
    ensures Quiet(s, s', t)
  {
    if s.channelClosed {
      assert s'.acts == s.acts;
    } else {
      OneMoves(s, s', t, s'.acts[t]);
    }
  }

  lemma SendFailShape(s: Sys, t: ActId, s': Sys)
    requires DoSendFail(s, t, s')
    ensures Quiet(s, s', t)
  {
  }

  lemma FinishShape(s: Sys, t: ActId, s': Sys)
    requires DoFinish(s, t, s')
    ensures Quiet(s, s', t)
  {
  }

  lemma LeaveShape(s: Sys, t: ActId, s': Sys)
    requires DoLeave(s, t, s')
    ensures Quiet(s, s', t)
  {
  }

  lemma TakeShape(s: Sys, s': Sys)
    requires DoTakeJob(s, s')
    ensures Quiet(s, s', s.queue[0])
  {
  }

  lemma SweepEndShape(s: Sys, t: ActId, s': Sys)
    requires DoSweepEnd(s, t, s')
    ensures Quiet(s, s', t)
  {
  }

  lemma SweepSkipShape(s: Sys, t: ActId, s': Sys)
    requires DoSweepSkip(s, t, s')
    ensures Quiet(s, s', t)
  {
  }

  lemma SweepReleaseShape(s: Sys, t: ActId, s': Sys)
    requires DoSweepRelease(s, t, s')
    ensures Quiet(s, s', t)
  {
  }

  lemma SweepClaimShape(s: Sys, t: ActId, s': Sys)
    requires DoSweepClaim(s, t, s')
    ensures Quiet(s, s', t)
  {
  }

  lemma ListShape(s: Sys, t: ActId, batch: seq<RowId>, s': Sys)
    requires DoSweepList(s, t, batch, s')
    ensures Lists(s, s', t)
  {
  }

  lemma CommitShape(s: Sys, t: ActId, row: RowId, now: int, notBefore: int, s': Sys)
    requires DoCommit(s, t, row, now, notBefore, s')
    ensures Commits(s, s', t, s.acts[t].sub, row, notBefore)
  {
  }

  lemma SendShapes(s: Sys, t: ActId, s': Sys)
    requires DoSendOk(s, t, s') || DoResendOk(s, t, s')
    ensures Sends(s, s', t)
  {
  }

  lemma MarkShapes(s: Sys, t: ActId, s': Sys)
    requires DoMark(s, t, s') || DoSweepMark(s, t, s')
    ensures Marks(s, s', t)
  {
  }

  lemma MarkFailShapes(s: Sys, t: ActId, s': Sys)
    requires DoMarkFail(s, t, s') || DoSweepMarkFail(s, t, s')
    ensures LosesMark(s, s', t)
  {
  }

  lemma RereadShape(s: Sys, t: ActId, ok: bool, s': Sys)
    requires DoReread(s, t, ok, s')
    ensures if ok && IsPending(s.rows, s.acts[t].row) then Reads(s, s', t, s.acts[t].row) else Quiet(s, s', t)
  {
  }

  lemma MissShape(s: Sys, t: ActId, s': Sys)
    requires DoResendFail(s, t, s')
    ensures Misses(s, s', t)
  {
  }

  lemma SettleShape(s: Sys, t: ActId, ok: bool, s': Sys)
    requires DoSettle(s, t, ok, s')
    ensures Settles(s, s', t, ok)
  {
  }

  lemma ExpiryShapes(s: Sys, step: Step, s': Sys)
    requires Next(s, step, s') && (step.ExpireOld? || step.DropReleased? || step.PruneOld?)
    ensures Retires(s, s')
  {
  }

  lemma ProcessShapes(s: Sys, step: Step, s': Sys)
    requires Next(s, step, s') && (step.SetBlocked? || step.Tick? || step.ShutdownFlag? || step.CloseChannel?)
    ensures Retires(s, s')
  {
  }
}
