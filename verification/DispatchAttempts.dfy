/**
How long a row is tried. A sweeper's attempt count is never lost to a coalescing
reply, so the failing sends on one row are bounded by the dead-letter limit.
*/
module DispatchAttempts {
  import opened OutboxTable
  import opened DispatchModel
  import opened DispatchShapes
  import opened DispatchProvenance
  import opened DispatchOwnership
  import opened DispatchDelivery

  /** A failing send on this row is still to be written into it. */
  ghost predicate MissedOn(s: Sys, id: RowId) {
    exists t :: HandAt(s, t).Missed? && HandAt(s, t).job.row == id
  }

  ghost predicate RowTried(s: Sys, id: RowId)
    requires id in s.rows
  {
    && s.rows[id].attempts <= MAX_ATTEMPTS
    && (s.rows[id].status.Pending? ==> s.rows[id].attempts < MAX_ATTEMPTS)
    && (!s.rows[id].status.Failed? ==>
          Tally(s.failures, id) <= s.rows[id].attempts + Tally(s.lost, id) || MissedOn(s, id))
  }

  ghost predicate HandTried(s: Sys, h: Hand) {
    && (h.Offline? ==>
          h.attempts < MAX_ATTEMPTS && Tally(s.failures, h.job.row) <= h.attempts + Tally(s.lost, h.job.row))
    && (h.Missed? ==>
          h.attempts < MAX_ATTEMPTS && Tally(s.failures, h.job.row) <= h.attempts + 1 + Tally(s.lost, h.job.row))
  }

  ghost predicate FailuresBounded(failures: map<RowId, nat>, commits: nat, lost: map<RowId, nat>) {
    forall id: RowId ::
      Tally(failures, id) <= MAX_ATTEMPTS + Tally(lost, id) && (id >= commits ==> Tally(failures, id) == 0)
  }

  ghost predicate Attempts(s: Sys) {
    && (forall id :: id in s.rows ==> RowTried(s, id))
    && (forall t :: HandTried(s, HandAt(s, t)))
    && FailuresBounded(s.failures, s.commits, s.lost)
  }

  lemma MissedStays(s: Sys, s': Sys, t: ActId, id: RowId)
    requires MissedOn(s, id) && Others(s, s', t)
    requires HandAt(s, t).Missed? ==> HandAt(s', t) == HandAt(s, t)
    ensures MissedOn(s', id)
  {
  }

  /** Steps that leave attempt counts and failing sends alone and only settle or add rows. */
  lemma CalmAttempts(s: Sys, s': Sys, t: ActId)
    requires Attempts(s) && Others(s, s', t)
    requires s'.failures == s.failures && s'.lost == s.lost && s.commits <= s'.commits
    requires HandAt(s', t) == HandAt(s, t) ||
      (!HandAt(s, t).Missed? && (HandAt(s', t).Empty? || HandAt(s', t).Online? || HandAt(s', t).Fired?))
    requires forall id :: id in s'.rows ==>
               (id in s.rows && s'.rows[id].attempts == s.rows[id].attempts &&
                (s'.rows[id].status == s.rows[id].status || s.rows[id].status.Pending?))
               || (id == s.commits && s'.rows[id].attempts == 0)
    ensures Attempts(s')
  {
  }

  lemma ReadAttempts(s: Sys, s': Sys, t: ActId, row: RowId)
    requires Attempts(s) && Ownership(s) && Provenance(s) && Reads(s, s', t, row)
    ensures Attempts(s')
  {
    var l :| l in RestAt(s, t) && l.row == row && t in s.acts && Owns(s.acts[t], l.sub);
    assert ListedSound(s, l) && OwnsAt(s, t, s.rows[row].sub);
    assert RowTried(s, row);
    if MissedOn(s, row) {
      var u :| HandAt(s, u).Missed? && HandAt(s, u).job.row == row;
      HandIsOwned(s, u);
      assert false;
    }
    forall id | id in s'.rows ensures RowTried(s', id) {
      assert RowTried(s, id);
      if MissedOn(s, id) {
        MissedStays(s, s', t, id);
      }
    }
    forall u ensures HandTried(s', HandAt(s', u)) {
      assert HandTried(s, HandAt(s, u));
    }
  }

  lemma MissAttempts(s: Sys, s': Sys, t: ActId)
    requires Attempts(s) && Ownership(s) && Provenance(s) && Misses(s, s', t)
    ensures Attempts(s')
  {
    var h := HandAt(s, t);
    assert HandTried(s, h) && JobSound(s, h.job);
    forall id | id in s'.rows ensures RowTried(s', id) {
      assert RowTried(s, id);
      if id == h.job.row {
        assert HandAt(s', t).Missed? && HandAt(s', t).job.row == id;
      } else if MissedOn(s, id) {
        MissedStays(s, s', t, id);
      }
    }
    forall u ensures HandTried(s', HandAt(s', u)) {
      assert HandTried(s, HandAt(s, u));
      if u != t && RowInHand(s, t, u) {
        OneHand(s, t, u);
      }
    }
    forall id: RowId ensures Tally(s'.failures, id) <= MAX_ATTEMPTS + Tally(s'.lost, id) &&
      (id >= s'.commits ==> Tally(s'.failures, id) == 0) {
      assert Tally(s.failures, id) <= MAX_ATTEMPTS + Tally(s.lost, id);
    }
  }

  lemma SettleRow(s: Sys, s': Sys, t: ActId, ok: bool, id: RowId)
    requires Attempts(s) && Ownership(s) && Provenance(s) && Delivery(s) && Settles(s, s', t, ok) && id in s'.rows
    ensures RowTried(s', id)
  {
    var h := HandAt(s, t);
    assert HandTried(s, h) && HandSound(s, h) && JobSound(s, h.job);
    assert RowTried(s, id);
    if id != h.job.row && MissedOn(s, id) {
      var u :| HandAt(s, u).Missed? && HandAt(s, u).job.row == id;
      assert HandAt(s', u) == HandAt(s, u);
    }
  }

  lemma SettleAttempts(s: Sys, s': Sys, t: ActId, ok: bool)
    requires Attempts(s) && Ownership(s) && Provenance(s) && Delivery(s) && Settles(s, s', t, ok)
    ensures Attempts(s')
  {
    forall id | id in s'.rows ensures RowTried(s', id) {
      SettleRow(s, s', t, ok, id);
    }
    assert forall id :: Tally(s.lost, id) <= Tally(s'.lost, id);
    forall u ensures HandTried(s', HandAt(s', u)) {
      assert HandTried(s, HandAt(s, u));
    }
  }

  lemma CrashRow(s: Sys, s': Sys, id: RowId)
    requires Attempts(s) && Delivery(s) && DoCrash(s, s') && id in s'.rows
    ensures RowTried(s', id)
  {
    assert RowTried(s, id);
    if MissedOn(s, id) {
      var u :| HandAt(s, u).Missed? && HandAt(s, u).job.row == id;
      assert HandTried(s, HandAt(s, u)) && HandSound(s, HandAt(s, u));
      assert s.acts[u].SweepFailing? && s.acts[u].job.row in AwaitingWrite(s.acts);
    }
  }

  lemma CrashAttempts(s: Sys, s': Sys)
    requires Attempts(s) && Delivery(s) && DoCrash(s, s')
    ensures Attempts(s')
  {
    forall id | id in s'.rows ensures RowTried(s', id) {
      CrashRow(s, s', id);
    }
    assert forall id :: Tally(s.lost, id) <= Tally(s'.lost, id);
  }
}
