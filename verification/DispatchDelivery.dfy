/**
What the broker receives. Over every interleaving, a submission's deliveries never go
back to an older reply, a reply goes out again at most once per mark a fault kept from running, and a row is
marked sent only when it holds a text that was delivered.
*/
module DispatchDelivery {
  import opened OutboxTable
  import opened DispatchModel
  import opened DispatchShapes
  import opened DispatchProvenance
  import opened DispatchOwnership

  ghost predicate NonDecreasing(log: seq<nat>) {
    forall i, j :: 0 <= i < j < |log| ==> log[i] <= log[j]
  }

  /** How often a delivery repeats the one before it. */
  function Repeats(log: seq<nat>): nat {
    if |log| < 2 then 0
    else Repeats(log[..|log| - 1]) + (if log[|log| - 1] == log[|log| - 2] then 1 else 0)
  }

  /** The newest reply delivered so far, or -1. */
  function Last(log: seq<nat>): int {
    if |log| == 0 then -1 else log[|log| - 1]
  }

  lemma AppendToLog(log: seq<nat>, reply: nat)
    requires NonDecreasing(log) && reply >= Last(log)
    ensures NonDecreasing(log + [reply]) && Last(log + [reply]) == reply
    ensures Repeats(log + [reply]) == Repeats(log) + (if reply == Last(log) then 1 else 0)
  {
  }

  /** The row holds a text committed after the one in hand. */
  predicate Newer(row: Row, job: Job) {
    row.reply > job.reply && row.updatedAt > job.version
  }

  /** The row is exactly the one the text in hand was taken from. */
  predicate Matches(id: RowId, row: Row, job: Job) {
    id == job.row && row.reply == job.reply && row.updatedAt == job.version
  }

  /** Sending this reply next keeps the order, and costs a repeat only where a fault pays for it. */
  ghost predicate Sendable(s: Sys, sub: SubId, reply: nat) {
    && reply >= Last(LogOf(s.log, sub))
    && (reply == Last(LogOf(s.log, sub)) ==> Repeats(LogOf(s.log, sub)) < Tally(s.unmarked, sub))
  }

  /** Some activity has sent the submission's newest delivery and is about to mark its row. */
  ghost predicate FiredFor(s: Sys, sub: SubId) {
    exists t :: HandAt(s, t).Fired? && HandAt(s, t).job.sub == sub
  }

  ghost predicate LogsInOrder(log: Logs, commits: nat, unmarked: map<SubId, nat>) {
    forall sub :: NonDecreasing(LogOf(log, sub)) && Last(LogOf(log, sub)) < commits &&
      Repeats(LogOf(log, sub)) <= Tally(unmarked, sub)
  }

  ghost predicate HandSound(s: Sys, h: Hand) {
    && (h.Online? || h.Offline? || h.Missed? ==> Sendable(s, h.job.sub, h.job.reply))
    && (h.Fired? ==> Last(LogOf(s.log, h.job.sub)) == h.job.reply)
    && (h.Offline? || h.Missed? ==>
          (h.job.row in s.rows ==>
             s.rows[h.job.row].reply >= h.job.reply && !s.rows[h.job.row].status.Sent? &&
               s.rows[h.job.row].attempts == h.attempts))
  }

  /** A pending row waits for a text that is still to be sent, or is being marked right now. */
  ghost predicate PendingSound(s: Sys, id: RowId)
    requires id in s.rows
  {
    var row := s.rows[id];
    && row.reply >= Last(LogOf(s.log, row.sub))
    && (row.reply == Last(LogOf(s.log, row.sub)) ==>
          Repeats(LogOf(s.log, row.sub)) < Tally(s.unmarked, row.sub) || FiredFor(s, row.sub))
  }

  /** A text in hand is that of its submission's pending row, unless a newer one superseded it. */
  ghost predicate HandMeetsRow(s: Sys, h: Hand, id: RowId)
    requires id in s.rows
  {
    (h.Online? || h.Offline? || h.Fired?) && s.rows[id].sub == h.job.sub ==>
      Newer(s.rows[id], h.job) || Matches(id, s.rows[id], h.job)
  }

  ghost predicate Delivery(s: Sys) {
    && LogsInOrder(s.log, s.commits, s.unmarked)
    && (forall t :: HandSound(s, HandAt(s, t)))
    && (forall id :: IsPending(s.rows, id) ==> PendingSound(s, id))
    && (forall t, id :: IsPending(s.rows, id) ==> HandMeetsRow(s, HandAt(s, t), id))
    && (forall id :: id in s.rows && s.rows[id].status.Sent? ==> s.rows[id].reply in LogOf(s.log, s.rows[id].sub))
  }

  /** Only one activity can hold a submission's text. */
  lemma OneHand(s: Sys, t: ActId, u: ActId)
    requires Ownership(s) && !HandAt(s, t).Empty? && !HandAt(s, u).Empty? &&
      HandAt(s, t).job.sub == HandAt(s, u).job.sub
    ensures t == u
  {
    HandIsOwned(s, t);
    HandIsOwned(s, u);
  }

  lemma FiredStays(s: Sys, s': Sys, t: ActId, sub: SubId)
    requires FiredFor(s, sub) && Others(s, s', t)
    requires HandAt(s, t).Fired? && HandAt(s, t).job.sub == sub ==> HandAt(s', t) == HandAt(s, t)
    ensures FiredFor(s', sub)
  {
  }

  lemma QuietDelivery(s: Sys, s': Sys, t: ActId)
    requires Delivery(s) && Quiet(s, s', t)
    ensures Delivery(s')
  {
  }

  lemma ListDelivery(s: Sys, s': Sys, t: ActId)
    requires Delivery(s) && Lists(s, s', t) && HandAt(s, t).Empty?
    ensures Delivery(s')
  {
  }

  lemma CommitHands(s: Sys, s': Sys, t: ActId, sub: SubId, row: RowId, notBefore: int, u: ActId)
    requires Delivery(s) && Provenance(s) && Commits(s, s', t, sub, row, notBefore)
    ensures HandSound(s', HandAt(s', u))
  {
  }

  lemma CommitMeetsRow(s: Sys, s': Sys, t: ActId, sub: SubId, row: RowId, notBefore: int, u: ActId, id: RowId)
    requires Delivery(s) && Provenance(s) && Commits(s, s', t, sub, row, notBefore)
    requires IsPending(s'.rows, id)
    ensures HandMeetsRow(s', HandAt(s', u), id)
  {
    assert !HandAt(s, u).Empty? ==> JobSound(s, HandAt(s, u).job);
    if id != row {
      assert IsPending(s.rows, id) && HandMeetsRow(s, HandAt(s, u), id);
      CommitProvenance(s, s', t, sub, row, notBefore);
      assert s'.rows[id].sub != sub;
    }
  }

  lemma CommitDelivery(s: Sys, s': Sys, t: ActId, sub: SubId, row: RowId, notBefore: int)
    requires Delivery(s) && Provenance(s) && Commits(s, s', t, sub, row, notBefore)
    ensures Delivery(s')
  {
    CommitProvenance(s, s', t, sub, row, notBefore);
    forall u ensures HandSound(s', HandAt(s', u)) {
      CommitHands(s, s', t, sub, row, notBefore, u);
    }
    forall id | IsPending(s'.rows, id) ensures PendingSound(s', id) {
      assert Last(LogOf(s.log, sub)) < s.commits;
      if id != row {
        assert IsPending(s.rows, id) && PendingSound(s, id);
        if FiredFor(s, s.rows[id].sub) {
          FiredStays(s, s', t, s.rows[id].sub);
        }
      }
    }
    forall u, id | IsPending(s'.rows, id) ensures HandMeetsRow(s', HandAt(s', u), id) {
      CommitMeetsRow(s, s', t, sub, row, notBefore, u, id);
    }
  }

  lemma SendHands(s: Sys, s': Sys, t: ActId, u: ActId)
    requires Delivery(s) && Ownership(s) && Sends(s, s', t)
    ensures HandSound(s', HandAt(s', u))
  {
    assert HandSound(s, HandAt(s, u)) && HandSound(s, HandAt(s, t));
    if u != t && !HandAt(s, u).Empty? && HandAt(s, u).job.sub == HandAt(s, t).job.sub {
      OneHand(s, t, u);
    }
  }

  lemma SendPending(s: Sys, s': Sys, t: ActId, id: RowId)
    requires Delivery(s) && Sends(s, s', t) && IsPending(s'.rows, id)
    ensures PendingSound(s', id)
  {
  }

  lemma SendLogs(s: Sys, s': Sys, t: ActId)
    requires Delivery(s) && Provenance(s) && Sends(s, s', t)
    ensures LogsInOrder(s'.log, s'.commits, s'.unmarked)
  {
    var job := HandAt(s, t).job;
    assert HandSound(s, HandAt(s, t)) && JobSound(s, job);
    AppendToLog(LogOf(s.log, job.sub), job.reply);
    forall sub ensures NonDecreasing(LogOf(s'.log, sub)) && Last(LogOf(s'.log, sub)) < s'.commits &&
      Repeats(LogOf(s'.log, sub)) <= Tally(s'.unmarked, sub) {
      assert sub != job.sub ==> LogOf(s'.log, sub) == LogOf(s.log, sub);
    }
  }

  lemma SendDelivery(s: Sys, s': Sys, t: ActId)
    requires Delivery(s) && Ownership(s) && Provenance(s) && Sends(s, s', t)
    ensures Delivery(s')
  {
    SendLogs(s, s', t);
    forall u ensures HandSound(s', HandAt(s', u)) {
      SendHands(s, s', t, u);
    }
    forall id | IsPending(s'.rows, id) ensures PendingSound(s', id) {
      SendPending(s, s', t, id);
    }
    forall u, id | IsPending(s'.rows, id) ensures HandMeetsRow(s', HandAt(s', u), id) {
      assert IsPending(s.rows, id) && HandMeetsRow(s, HandAt(s, u), id);
    }
  }

  lemma MarkDelivery(s: Sys, s': Sys, t: ActId)
    requires Delivery(s) && Ownership(s) && Provenance(s) && Marks(s, s', t)
    ensures Delivery(s')
  {
    var job := HandAt(s, t).job;
    assert HandSound(s, HandAt(s, t)) && JobSound(s, job);
    assert IsPending(s.rows, job.row) ==> HandMeetsRow(s, HandAt(s, t), job.row);
    forall u ensures HandSound(s', HandAt(s', u)) {
      assert HandSound(s, HandAt(s, u));
      if u != t && !HandAt(s, u).Empty? && HandAt(s, u).job.row == job.row && job.row in s.rows {
        assert JobSound(s, HandAt(s, u).job);
        OneHand(s, t, u);
      }
    }
    forall id | IsPending(s'.rows, id) ensures PendingSound(s', id) {
      assert PendingSound(s, id) && IsPending(s.rows, id);
      assert HandMeetsRow(s, HandAt(s, t), id);
      if FiredFor(s, s.rows[id].sub) && s.rows[id].sub != job.sub {
        FiredStays(s, s', t, s.rows[id].sub);
      }
    }
    forall u, id | IsPending(s'.rows, id) ensures HandMeetsRow(s', HandAt(s', u), id) {
      assert IsPending(s.rows, id) && HandMeetsRow(s, HandAt(s, u), id);
    }
  }

  lemma LoseMarkPending(s: Sys, s': Sys, t: ActId, id: RowId)
    requires Delivery(s) && LosesMark(s, s', t) && IsPending(s.rows, id)
    ensures PendingSound(s', id)
  {
    var sub := s.rows[id].sub;
    assert PendingSound(s, id);
    if sub != HandAt(s, t).job.sub && FiredFor(s, sub) {
      FiredStays(s, s', t, sub);
    }
  }

  lemma LoseMarkDelivery(s: Sys, s': Sys, t: ActId)
    requires Delivery(s) && LosesMark(s, s', t)
    ensures Delivery(s')
  {
    assert forall sub :: Tally(s.unmarked, sub) <= Tally(s'.unmarked, sub);
    forall u ensures HandSound(s', HandAt(s', u)) {
      assert HandSound(s, HandAt(s, u));
    }
    forall id | IsPending(s'.rows, id) ensures PendingSound(s', id) {
      LoseMarkPending(s, s', t, id);
    }
    forall u, id | IsPending(s'.rows, id) ensures HandMeetsRow(s', HandAt(s', u), id) {
      assert IsPending(s.rows, id) && HandMeetsRow(s, HandAt(s, u), id);
    }
  }

  lemma ReadDelivery(s: Sys, s': Sys, t: ActId, row: RowId)
    requires Delivery(s) && Ownership(s) && Provenance(s) && Reads(s, s', t, row)
    ensures Delivery(s')
  {
    var l :| l in RestAt(s, t) && l.row == row && t in s.acts && Owns(s.acts[t], l.sub);
    assert ListedSound(s, l) && OwnsAt(s, t, s.rows[row].sub);
    assert PendingSound(s, row);
    if FiredFor(s, s.rows[row].sub) {
      var u :| HandAt(s, u).Fired? && HandAt(s, u).job.sub == s.rows[row].sub;
      HandIsOwned(s, u);
      assert false;
    }
    forall u ensures HandSound(s', HandAt(s', u)) {
      assert HandSound(s, HandAt(s, u));
    }
    forall id | IsPending(s'.rows, id) ensures PendingSound(s', id) {
      assert PendingSound(s, id);
      if FiredFor(s, s.rows[id].sub) {
        FiredStays(s, s', t, s.rows[id].sub);
      }
    }
    forall u, id | IsPending(s'.rows, id) ensures HandMeetsRow(s', HandAt(s', u), id) {
      assert IsPending(s.rows, id) && HandMeetsRow(s, HandAt(s, u), id);
      assert OnePending(s.rows);
    }
  }

  lemma MissDelivery(s: Sys, s': Sys, t: ActId)
    requires Delivery(s) && Misses(s, s', t)
    ensures Delivery(s')
  {
  }

  lemma SettleDelivery(s: Sys, s': Sys, t: ActId, ok: bool)
    requires Delivery(s) && Ownership(s) && Provenance(s) && Settles(s, s', t, ok)
    ensures Delivery(s')
  {
    var h := HandAt(s, t);
    assert HandSound(s, h) && JobSound(s, h.job);
    forall u ensures HandSound(s', HandAt(s', u)) {
      assert HandSound(s, HandAt(s, u));
      if u != t && !HandAt(s, u).Empty? && HandAt(s, u).job.row == h.job.row && h.job.row in s.rows {
        assert JobSound(s, HandAt(s, u).job);
        OneHand(s, t, u);
      }
    }
    forall id | IsPending(s'.rows, id) ensures PendingSound(s', id) {
      if id != h.job.row {
        assert PendingSound(s, id);
        if FiredFor(s, s.rows[id].sub) {
          FiredStays(s, s', t, s.rows[id].sub);
        }
      } else if s'.rows[id] == s.rows[id] {
        assert PendingSound(s, id);
        if FiredFor(s, s.rows[id].sub) {
          FiredStays(s, s', t, s.rows[id].sub);
        }
      }
    }
    forall u, id | IsPending(s'.rows, id) ensures HandMeetsRow(s', HandAt(s', u), id) {
      if id != h.job.row || s'.rows[id] == s.rows[id] {
        assert IsPending(s.rows, id) && HandMeetsRow(s, HandAt(s, u), id);
      } else if u != t && !HandAt(s, u).Empty? && HandAt(s, u).job.sub == h.job.sub {
        OneHand(s, t, u);
      }
    }
  }

  lemma RetireDelivery(s: Sys, s': Sys)
    requires Delivery(s) && Retires(s, s')
    ensures Delivery(s')
  {
    forall u ensures HandSound(s', HandAt(s', u)) {
      assert HandAt(s', u) == HandAt(s, u);
      assert HandSound(s, HandAt(s, u));
    }
    forall id | IsPending(s'.rows, id) ensures PendingSound(s', id) {
      assert PendingSound(s, id);
      if FiredFor(s, s.rows[id].sub) {
        var u :| HandAt(s, u).Fired? && HandAt(s, u).job.sub == s.rows[id].sub;
        assert HandAt(s', u) == HandAt(s, u);
      }
    }
    forall u, id | IsPending(s'.rows, id) ensures HandMeetsRow(s', HandAt(s', u), id) {
      assert HandAt(s', u) == HandAt(s, u);
      assert IsPending(s.rows, id) && HandMeetsRow(s, HandAt(s, u), id);
    }
  }

  lemma CrashPending(s: Sys, s': Sys, id: RowId)
    requires Delivery(s) && DoCrash(s, s') && IsPending(s'.rows, id)
    ensures PendingSound(s', id)
  {
    var sub := s.rows[id].sub;
    assert PendingSound(s, id);
    if FiredFor(s, sub) {
      var t :| HandAt(s, t).Fired? && HandAt(s, t).job.sub == sub;
      assert s.acts[t].Marking? || s.acts[t].SweepMarking?;
      assert s.acts[t].job.sub in AwaitingMark(s.acts);
    }
  }

  lemma CrashDelivery(s: Sys, s': Sys)
    requires Delivery(s) && DoCrash(s, s')
    ensures Delivery(s')
  {
    forall id | IsPending(s'.rows, id) ensures PendingSound(s', id) {
      CrashPending(s, s', id);
    }
    assert forall sub :: Tally(s.unmarked, sub) <= Tally(s'.unmarked, sub);
  }
}
