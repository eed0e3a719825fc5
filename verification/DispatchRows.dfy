/** What a row of the outbox goes through in every run, in terms of its own columns. */
module DispatchRows {
  import opened OutboxTable
  import opened DispatchModel
  import opened DispatchShapes
  import opened DispatchProvenance
  import opened DispatchDelivery
  import opened DispatchInvariant
  import opened DispatchRuns

  // ---- failing sends ----

  /** The activity's failing send on this row is still to be written. */
  predicate Missed(s: Sys, t: ActId, id: RowId) {
    t in s.acts && s.acts[t].SweepFailing? && s.acts[t].job.row == id
  }

  lemma OnlyPendingRow(s: Sys, id: RowId)
    requires Provenance(s) && IsPending(s.rows, id)
    ensures forall status :: !UpdateConflicts(s.rows, id, status)
  {
    assert forall other :: IsPending(s.rows, other) && s.rows[other].sub == s.rows[id].sub ==> other == id;
  }

  lemma MissIsWritten(s: Sys, t: ActId, s': Sys, id: RowId)
    requires Inv(s) && DoSettle(s, t, true, s') && Missed(s, t, id) && IsPending(s.rows, id)
    ensures id in s'.rows
    ensures s'.rows[id] == s.rows[id].(status := s'.rows[id].status, attempts := s.rows[id].attempts + 1,
                                       updatedAt := s.clock)
    ensures s'.rows[id].status == if s.rows[id].attempts + 1 == 10 then Failed else Pending
  {
    OnlyPendingRow(s, id);
    assert HandSound(s, HandAt(s, t));
  }

  lemma SettleSpares(s: Sys, t: ActId, ok: bool, s': Sys, id: RowId)
    requires DoSettle(s, t, ok, s') && id in s.rows && !(ok && Missed(s, t, id))
    ensures id in s'.rows && s'.rows[id] == s.rows[id]
  {
  }

  /**
  In every run a sweeper's failing send on a pending row, once written, counts for one attempt and
  changes nothing else, except that the tenth fails the row.
  */
  lemma FailingSendCounts(states: seq<Sys>, steps: seq<Step>, i: nat, t: ActId, id: RowId)
    requires IsRun(states, steps) && i < |steps| && steps[i] == Settle(t, true)
    requires Missed(states[i], t, id) && IsPending(states[i].rows, id)
    ensures id in states[i + 1].rows
    ensures var row, row' := states[i].rows[id], states[i + 1].rows[id];
      && row' == row.(status := row'.status, attempts := row.attempts + 1, updatedAt := states[i].clock)
      && (row'.status.Failed? <==> row'.attempts == 10) && (row'.status.Pending? <==> row'.attempts < 10)
  {
    InvAt(states, steps, i);
    MissIsWritten(states[i], t, states[i + 1], id);
    FailingSendsBounded(states[..i + 1], steps[..i], id);
  }

  /** The activity has sent this text of the row and is to mark it, having read that version. */
  predicate Sent(s: Sys, t: ActId, id: RowId, reply: nat, version: int) {
    && t in s.acts && (s.acts[t].Marking? || s.acts[t].SweepMarking?)
    && s.acts[t].job.row == id && s.acts[t].job.reply == reply && s.acts[t].job.version == version
  }

  lemma SettleFails(s: Sys, t: ActId, ok: bool, s': Sys, id: RowId)
    requires Inv(s) && DoSettle(s, t, ok, s') && IsPending(s.rows, id)
    ensures id in s'.rows && !s'.rows[id].status.Sent?
    ensures s'.rows[id].status.Failed? ==> s'.rows[id].attempts == 10
  {
    if ok && Missed(s, t, id) {
      MissIsWritten(s, t, s', id);
    } else {
      SettleSpares(s, t, ok, s', id);
    }
  }

  lemma CommitKeepsStatus(s: Sys, t: ActId, row: RowId, now: int, notBefore: int, s': Sys, id: RowId)
    requires DoCommit(s, t, row, now, notBefore, s') && id in s.rows
    ensures id in s'.rows && s'.rows[id].status == s.rows[id].status
  {
  }

  lemma MarkDoes(s: Sys, s': Sys, t: ActId, id: RowId)
    requires Provenance(s) && Delivery(s) && Marks(s, s', t) && IsPending(s.rows, id)
    ensures id in s'.rows
    ensures s'.rows[id] ==
      if Sent(s, t, id, s.rows[id].reply, s.rows[id].updatedAt)
      then s.rows[id].(status := Status.Sent, updatedAt := s.clock) else s.rows[id]
  {
    var job := HandAt(s, t).job;
    assert JobSound(s, job);
    if job.row == id && job.version == s.rows[id].updatedAt {
      assert HandMeetsRow(s, HandAt(s, t), id);
    }
  }

  lemma FailStep(s: Sys, step: Step, s': Sys, id: RowId)
    requires Inv(s) && Next(s, step, s') && !IsSilent(step)
    requires IsPending(s.rows, id) && id in s'.rows && s'.rows[id].status.Failed?
    ensures step.ExpireOld? || step.DropReleased? || (step.Settle? && s'.rows[id].attempts == 10)
  {
    match step
    case Settle(t, ok) => SettleFails(s, t, ok, s', id);
    case Commit(t, row, now, notBefore) => CommitKeepsStatus(s, t, row, now, notBefore, s', id);
    case Mark(t) =>
      MarkShapes(s, t, s');
      MarkDoes(s, s', t, id);
    case SweepMark(t) =>
      MarkShapes(s, t, s');
      MarkDoes(s, s', t, id);
    case _ =>
  }

  /**
  In every run a pending row fails only when it expires, is dropped with a hold, or has been tried ten
  times.
  */
  lemma FailsOnlyWhenSpent(states: seq<Sys>, steps: seq<Step>, i: nat, id: RowId)
    requires IsRun(states, steps) && i < |steps| && IsPending(states[i].rows, id)
    requires id in states[i + 1].rows && states[i + 1].rows[id].status.Failed?
    ensures steps[i].ExpireOld? || steps[i].DropReleased? || (steps[i].Settle? && states[i + 1].rows[id].attempts == 10)
  {
    InvAt(states, steps, i);
    if IsSilent(steps[i]) {
      StepAccounted(states[i], steps[i], states[i + 1]);
    } else {
      FailStep(states[i], steps[i], states[i + 1], id);
    }
  }

  lemma ReviveStep(s: Sys, step: Step, s': Sys, id: RowId)
    requires Inv(s) && Next(s, step, s') && !IsSilent(step)
    requires id in s.rows && !s.rows[id].status.Pending? && IsPending(s'.rows, id)
    ensures step.Settle? && s.rows[id].status.Failed? && s'.rows[id].attempts < 10
  {
    match step
    case Settle(t, ok) =>
      SettleLands(s, t, ok, s', id);
      if !(ok && Missed(s, t, id)) {
        SettleSpares(s, t, ok, s', id);
      }
    case Commit(t, row, now, notBefore) =>
      assert RowSound(s, id);
      CommitLands(s, t, row, now, notBefore, s', id);
    case _ =>
  }

  /**
  And a settled row waits again only when it had failed and a send taken up before that fails for less
  than the tenth time.
  */
  lemma RevivedOnlyByRetry(states: seq<Sys>, steps: seq<Step>, i: nat, id: RowId)
    requires IsRun(states, steps) && i < |steps|
    requires id in states[i].rows && !states[i].rows[id].status.Pending? && IsPending(states[i + 1].rows, id)
    ensures steps[i].Settle? && states[i].rows[id].status.Failed? && states[i + 1].rows[id].attempts < 10
  {
    InvAt(states, steps, i);
    if IsSilent(steps[i]) {
      StepAccounted(states[i], steps[i], states[i + 1]);
    } else {
      ReviveStep(states[i], steps[i], states[i + 1], id);
    }
  }

  // ---- marks ----

  lemma OthersDoNotMark(s: Sys, step: Step, s': Sys, id: RowId)
    requires Inv(s) && Next(s, step, s') && !IsSilent(step) && !step.Mark? && !step.SweepMark?
    requires IsPending(s.rows, id) && id in s'.rows
    ensures !s'.rows[id].status.Sent?
  {
    match step
    case Settle(t, ok) => SettleFails(s, t, ok, s', id);
    case Commit(t, row, now, notBefore) => CommitKeepsStatus(s, t, row, now, notBefore, s', id);
    case _ =>
  }

  /** The step marks this row, having sent the text it holds at the version it has. */
  predicate MarksRow(s: Sys, step: Step, id: RowId)
    requires id in s.rows
  {
    (step.Mark? || step.SweepMark?) && Sent(s, step.t, id, s.rows[id].reply, s.rows[id].updatedAt)
  }

  /**
  In every run a pending row is marked sent exactly by the sender of the very text it holds, while
  nobody has rewritten it since; and then nothing else of it changes.
  */
  lemma MarkedExactlyAsSent(states: seq<Sys>, steps: seq<Step>, i: nat, id: RowId)
    requires IsRun(states, steps) && i < |steps| && IsPending(states[i].rows, id)
    ensures id in states[i + 1].rows
    ensures states[i + 1].rows[id].status.Sent? <==> MarksRow(states[i], steps[i], id)
    ensures MarksRow(states[i], steps[i], id) ==>
      states[i + 1].rows[id] == states[i].rows[id].(status := Status.Sent, updatedAt := states[i].clock)
  {
    InvAt(states, steps, i);
    GoesOnlyWhenPruned(states, steps, i, id);
    if IsSilent(steps[i]) {
      StepAccounted(states[i], steps[i], states[i + 1]);
    } else if steps[i].Mark? || steps[i].SweepMark? {
      MarkShapes(states[i], steps[i].t, states[i + 1]);
      MarkDoes(states[i], states[i + 1], steps[i].t, id);
    } else {
      OthersDoNotMark(states[i], steps[i], states[i + 1], id);
    }
  }

  // ---- commits ----

  /** The row a commit of this submission's reply finds or makes there. */
  ghost predicate Coalesces(s: Sys, s': Sys, sub: SubId, notBefore: int, id: RowId) {
    if id in s.rows then
      && id in s'.rows
      && s'.rows[id] ==
         if s.rows[id].status.Pending? && s.rows[id].sub == sub
         then s.rows[id].(reply := s.commits, notBefore := notBefore, updatedAt := s.clock)
         else s.rows[id]
    else
      && (id in s'.rows <==> !HasPending(s.rows, sub) && id == s.commits)
      && (id in s'.rows ==> s'.rows[id] == Row(sub, s.commits, Pending, 0, s.clock, s.clock, notBefore))
  }

  lemma CommitDoes(s: Sys, t: ActId, row: RowId, now: int, notBefore: int, s': Sys, id: RowId)
    requires Provenance(s) && DoCommit(s, t, row, now, notBefore, s')
    ensures Coalesces(s, s', s.acts[t].sub, notBefore, id)
  {
    var sub := s.acts[t].sub;
    assert s.commits !in s.rows;
    if id in s.rows && s.rows[id].status.Pending? && s.rows[id].sub == sub {
      assert IsPending(s.rows, id) && HasPending(s.rows, sub);
    }
  }

  /**
  In every run a commit overwrites text and schedule of the submission's pending row, whose attempts
  and creation time stay, or adds a row when there is none; no other row changes.
  */
  lemma CommitCoalesces(states: seq<Sys>, steps: seq<Step>, i: nat, id: RowId)
    requires IsRun(states, steps) && i < |steps| && steps[i].Commit?
    ensures steps[i].t in states[i].acts && states[i].acts[steps[i].t].Claimed?
    ensures Coalesces(states[i], states[i + 1], states[i].acts[steps[i].t].sub, steps[i].notBefore, id)
  {
    InvAt(states, steps, i);
    CommitDoes(states[i], steps[i].t, steps[i].row, steps[i].now, steps[i].notBefore, states[i + 1], id);
  }

  // ---- expiry and pruning ----

  /** Of the rows, those the test names are failed and nothing else changes. */
  ghost predicate FailsExactly(s: Sys, s': Sys, fails: RowId -> bool) {
    && s'.rows.Keys == s.rows.Keys
    && forall id :: id in s.rows ==>
         s'.rows[id] == if fails(id) then s.rows[id].(status := Failed, updatedAt := s.clock) else s.rows[id]
  }

  /** In every run the retention sweep fails the pending rows created before its cutoff and no others. */
  lemma ExpiryTakesTheOld(states: seq<Sys>, steps: seq<Step>, i: nat, cutoff: int)
    requires IsRun(states, steps) && i < |steps| && steps[i] == ExpireOld(cutoff)
    ensures var rows := states[i].rows;
      FailsExactly(states[i], states[i + 1],
                   id => id in rows && rows[id].status.Pending? && rows[id].createdAt < cutoff)
  {
    assert Next(states[i], steps[i], states[i + 1]);
  }

  /** And the end of a hold the pending rows of the submissions released. */
  lemma ReleaseDropsTheirs(states: seq<Sys>, steps: seq<Step>, i: nat, subs: set<SubId>)
    requires IsRun(states, steps) && i < |steps| && steps[i] == DropReleased(subs)
    ensures var rows := states[i].rows;
      FailsExactly(states[i], states[i + 1], id => id in rows && rows[id].status.Pending? && rows[id].sub in subs)
  {
    assert Next(states[i], steps[i], states[i + 1]);
  }

  lemma PruneStep(s: Sys, step: Step, s': Sys, id: RowId)
    requires Inv(s) && Next(s, step, s') && !IsSilent(step) && !step.PruneOld? && id in s.rows
    ensures id in s'.rows
  {
  }

  /**
  In every run a row goes only by a pruning, and a pruning takes exactly the settled rows created before
  its cutoff.
  */
  lemma GoesOnlyWhenPruned(states: seq<Sys>, steps: seq<Step>, i: nat, id: RowId)
    requires IsRun(states, steps) && i < |steps| && id in states[i].rows
    ensures id !in states[i + 1].rows <==>
      && steps[i].PruneOld? && !states[i].rows[id].status.Pending?
      && states[i].rows[id].createdAt < steps[i].cutoff
    ensures steps[i].PruneOld? && id in states[i + 1].rows ==> states[i + 1].rows[id] == states[i].rows[id]
  {
    InvAt(states, steps, i);
    if IsSilent(steps[i]) {
      StepAccounted(states[i], steps[i], states[i + 1]);
    } else if !steps[i].PruneOld? {
      PruneStep(states[i], steps[i], states[i + 1], id);
    }
  }
}
