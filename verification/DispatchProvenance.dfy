/**
Where things in hand come from: every text in hand and every listed row names a row
that was committed, under the submission it was committed for, at a stamp already taken.
*/
module DispatchProvenance {
  import opened OutboxTable
  import opened DispatchModel
  import opened DispatchShapes

  ghost predicate ListedSound(s: Sys, l: Listed) {
    l.row < s.commits && (l.row in s.rows ==> s.rows[l.row].sub == l.sub)
  }

  ghost predicate JobSound(s: Sys, job: Job) {
    && job.row < s.commits && job.reply < s.commits && job.version < s.clock
    && (job.row in s.rows ==> s.rows[job.row].sub == job.sub)
  }

  ghost predicate RowSound(s: Sys, id: RowId)
    requires id in s.rows
  {
    id < s.commits && s.rows[id].reply < s.commits && s.rows[id].updatedAt < s.clock
  }

  ghost predicate Provenance(s: Sys) {
    && OnePending(s.rows)
    && (forall id :: id in s.rows ==> RowSound(s, id))
    && (forall t :: !HandAt(s, t).Empty? ==> JobSound(s, HandAt(s, t).job))
    && (forall t, u :: RowInHand(s, t, u) ==> HandAt(s, t).job.sub == HandAt(s, u).job.sub)
    && (forall t, l :: l in RestAt(s, t) ==> ListedSound(s, l))
  }

  /** Two hands hold texts taken from the same row. */
  ghost predicate RowInHand(s: Sys, t: ActId, u: ActId) {
    !HandAt(s, t).Empty? && !HandAt(s, u).Empty? && HandAt(s, t).job.row == HandAt(s, u).job.row
  }

  /** What a statement may do to the table: keep or delete a row's submission, or add the row of this commit. */
  ghost predicate Evolves(s: Sys, s': Sys) {
    && s.commits <= s'.commits && s.clock <= s'.clock
    && forall id :: id in s'.rows ==> (id in s.rows && s'.rows[id].sub == s.rows[id].sub) || id == s.commits
  }

  lemma HandsStaySound(s: Sys, s': Sys, t: ActId)
    requires Provenance(s) && Evolves(s, s') && Others(s, s', t) && RestShrinks(s, s', t)
    requires !HandAt(s', t).Empty? ==>
               JobSound(s', HandAt(s', t).job) &&
               (HandAt(s', t).job.row in s'.rows || (!HandAt(s, t).Empty? && HandAt(s', t).job == HandAt(s, t).job))
    requires OnePending(s'.rows) && forall id :: id in s'.rows ==> RowSound(s', id)
    ensures Provenance(s')
  {
    forall u | !HandAt(s', u).Empty? ensures JobSound(s', HandAt(s', u).job) {
      if u != t {
        assert HandAt(s, u) == HandAt(s', u);
      }
    }
    forall u, v | RowInHand(s', u, v) ensures HandAt(s', u).job.sub == HandAt(s', v).job.sub {
      assert JobSound(s', HandAt(s', u).job) && JobSound(s', HandAt(s', v).job);
      if HandAt(s', u).job.row !in s'.rows {
        assert RowInHand(s, u, v);
      }
    }
    forall u, l | l in RestAt(s', u) ensures ListedSound(s', l) {
      assert l in RestAt(s, u);
      assert ListedSound(s, l);
    }
  }

  lemma CommitProvenance(s: Sys, s': Sys, t: ActId, sub: SubId, row: RowId, notBefore: int)
    requires Provenance(s) && Commits(s, s', t, sub, row, notBefore)
    ensures Provenance(s')
    ensures IsPending(s'.rows, row) && s'.rows[row].sub == sub
  {
    assert s.commits !in s.rows;
    UpsertKeepsRows(s.rows, row, sub, s.commits, s.commits, s.clock, notBefore);
    HandsStaySound(s, s', t);
  }

  lemma MarkProvenance(s: Sys, s': Sys, t: ActId)
    requires Provenance(s) && Marks(s, s', t)
    ensures Provenance(s')
  {
    SettlingKeepsOnePending(s.rows, s'.rows);
    HandsStaySound(s, s', t);
  }

  lemma SettleProvenance(s: Sys, s': Sys, t: ActId, ok: bool)
    requires Provenance(s) && Settles(s, s', t, ok)
    ensures Provenance(s')
  {
    var h := HandAt(s, t);
    UpdateKeepsOnePending(s.rows, h.job.row, FailStatus(h.attempts + 1), h.attempts + 1, s.clock);
    HandsStaySound(s, s', t);
  }

  lemma RetireProvenance(s: Sys, s': Sys)
    requires Provenance(s) && Retires(s, s')
    ensures Provenance(s')
  {
    SettlingKeepsOnePending(s.rows, s'.rows);
    assert HandAt(s', 0) == HandAt(s, 0);
    HandsStaySound(s, s', 0);
  }

  lemma ListProvenance(s: Sys, s': Sys, t: ActId)
    requires Provenance(s) && Lists(s, s', t)
    ensures Provenance(s')
  {
    forall u, l | l in RestAt(s', u) ensures ListedSound(s', l) {
      if u != t {
        assert l in RestAt(s, u);
        assert ListedSound(s, l);
      } else {
        assert RowSound(s, l.row);
      }
    }
    forall u | !HandAt(s', u).Empty? ensures JobSound(s', HandAt(s', u).job) {
      assert HandAt(s, u) == HandAt(s', u);
    }
    forall u, v | RowInHand(s', u, v) ensures HandAt(s', u).job.sub == HandAt(s', v).job.sub {
      assert RowInHand(s, u, v);
    }
    forall id | id in s'.rows ensures RowSound(s', id) {
      assert RowSound(s, id);
    }
  }

  lemma ReadProvenance(s: Sys, s': Sys, t: ActId, row: RowId)
    requires Provenance(s) && Reads(s, s', t, row)
    ensures Provenance(s')
  {
    assert RowSound(s, row);
    HandsStaySound(s, s', t);
  }

  lemma SameTableProvenance(s: Sys, s': Sys, t: ActId)
    requires Provenance(s) && SameTable(s, s') && Others(s, s', t) && RestShrinks(s, s', t)
    requires !HandAt(s', t).Empty? ==> !HandAt(s, t).Empty? && HandAt(s', t).job == HandAt(s, t).job
    ensures Provenance(s')
  {
    HandsStaySound(s, s', t);
  }
}
