/**
Who owns a submission's outbound reply: every claim has exactly one owner, and
ownership is handed over without a gap.
*/
module DispatchOwnership {
  import opened OutboxTable
  import opened DispatchModel
  import opened DispatchShapes
  import opened DispatchProvenance

  ghost predicate OwnsAt(s: Sys, t: ActId, sub: SubId) {
    t in s.acts && Owns(s.acts[t], sub)
  }

  ghost predicate OwnedBySome(s: Sys, sub: SubId) {
    exists t :: OwnsAt(s, t, sub)
  }

  /** The claims are exactly what the activities own, and no two activities own the same submission. */
  ghost predicate Ownership(s: Sys) {
    && (forall t, sub :: OwnsAt(s, t, sub) ==> sub in s.dispatching)
    && (forall t, u, sub :: OwnsAt(s, t, sub) && OwnsAt(s, u, sub) ==> t == u)
    && (forall sub :: sub in s.dispatching ==> OwnedBySome(s, sub))
  }

  /** A text in hand belongs to a submission its activity owns. */
  lemma HandIsOwned(s: Sys, t: ActId)
    ensures !HandAt(s, t).Empty? ==> OwnsAt(s, t, HandAt(s, t).job.sub)
  {
  }

  ghost predicate OthersOwnAlike(s: Sys, s': Sys, t: ActId) {
    forall u, sub :: u != t ==> (OwnsAt(s', u, sub) <==> OwnsAt(s, u, sub))
  }

  lemma SameOwners(s: Sys, s': Sys, t: ActId)
    requires Ownership(s) && s'.dispatching == s.dispatching && OthersOwnAlike(s, s', t)
    requires forall sub :: OwnsAt(s', t, sub) <==> OwnsAt(s, t, sub)
    ensures Ownership(s')
  {
  }

  lemma NewOwner(s: Sys, s': Sys, t: ActId, sub: SubId)
    requires Ownership(s) && sub !in s.dispatching && s'.dispatching == s.dispatching + {sub} &&
      OthersOwnAlike(s, s', t)
    requires forall x :: OwnsAt(s', t, x) <==> OwnsAt(s, t, x) || x == sub
    ensures Ownership(s')
  {
    forall x | x in s'.dispatching ensures OwnedBySome(s', x) {
      if x == sub {
        assert OwnsAt(s', t, x);
      } else {
        assert OwnedBySome(s, x);
        var u :| OwnsAt(s, u, x);
        assert OwnsAt(s', u, x);
      }
    }
  }

  lemma OwnerGone(s: Sys, s': Sys, t: ActId, sub: SubId)
    requires Ownership(s) && OwnsAt(s, t, sub) && s'.dispatching == s.dispatching - {sub} && OthersOwnAlike(s, s', t)
    requires forall x :: OwnsAt(s', t, x) <==> OwnsAt(s, t, x) && x != sub
    ensures Ownership(s')
  {
  }

  lemma IngestOwnership(s: Sys, t: ActId, s': Sys)
    requires Ownership(s)
    requires DoCommitFail(s, t, s') || DoSkipOnline(s, t, s')
    ensures Ownership(s')
  {
    SameOwners(s, s', t);
  }

  lemma EnqueueOwnership(s: Sys, t: ActId, s': Sys)
    requires Ownership(s)
    requires DoEnterEnqueue(s, t, s') || DoCountJob(s, t, s')
    ensures Ownership(s')
  {
    SameOwners(s, s', t);
  }

  lemma PutOwnership(s: Sys, t: ActId, s': Sys)
    requires Ownership(s) && DoPutJob(s, t, s')
    ensures Ownership(s')
  {
    SameOwners(s, s', t);
  }

  lemma CommitOwnership(s: Sys, t: ActId, row: RowId, now: int, notBefore: int, s': Sys)
    requires Ownership(s) && DoCommit(s, t, row, now, notBefore, s')
    ensures Ownership(s')
  {
    SameOwners(s, s', t);
  }

  lemma WorkerOwnership(s: Sys, t: ActId, s': Sys)
    requires Ownership(s)
    requires DoSendOk(s, t, s') || DoSendFail(s, t, s') || DoLeave(s, t, s')
    ensures Ownership(s')
  {
    SameOwners(s, s', t);
  }

  lemma MarkOwnership(s: Sys, t: ActId, s': Sys)
    requires Ownership(s) && (DoMark(s, t, s') || DoMarkFail(s, t, s'))
    ensures Ownership(s')
  {
    SameOwners(s, s', t);
  }

  lemma SweepOwnership(s: Sys, t: ActId, s': Sys)
    requires Ownership(s)
    requires DoSweepEnd(s, t, s') || DoSweepSkip(s, t, s') || (exists batch :: DoSweepList(s, t, batch, s'))
    ensures Ownership(s')
  {
    SameOwners(s, s', t);
  }

  lemma ResendOwnership(s: Sys, t: ActId, s': Sys)
    requires Ownership(s)
    requires DoResendOk(s, t, s') || DoResendFail(s, t, s')
    ensures Ownership(s')
  {
    SameOwners(s, s', t);
  }

  lemma SweepMarkOwnership(s: Sys, t: ActId, s': Sys)
    requires Ownership(s) && (DoSweepMark(s, t, s') || DoSweepMarkFail(s, t, s'))
    ensures Ownership(s')
  {
    SameOwners(s, s', t);
  }

  lemma SettleOwnership(s: Sys, t: ActId, ok: bool, s': Sys)
    requires Ownership(s) && DoSettle(s, t, ok, s')
    ensures Ownership(s')
  {
    SameOwners(s, s', t);
  }

  lemma RereadOwnership(s: Sys, t: ActId, ok: bool, s': Sys)
    requires Ownership(s) && Provenance(s) && DoReread(s, t, ok, s')
    ensures Ownership(s')
  {
    var a := s.acts[t];
    assert RestAt(s, t)[0] == Listed(a.row, a.sub);
    assert ListedSound(s, Listed(a.row, a.sub));
    SameOwners(s, s', t);
  }

  lemma ReleaseOwnership(s: Sys, t: ActId, s': Sys)
    requires Ownership(s)
    requires DoRelease(s, t, s') || DoFinish(s, t, s')
    ensures Ownership(s')
  {
    OwnerGone(s, s', t, s.acts[t].sub);
  }

  lemma SweepReleaseOwnership(s: Sys, t: ActId, s': Sys)
    requires Ownership(s) && DoSweepRelease(s, t, s')
    ensures Ownership(s')
  {
    OwnerGone(s, s', t, s.acts[t].sub);
  }

  lemma ClaimOwnership(s: Sys, t: ActId, sub: SubId, s': Sys)
    requires Ownership(s) && DoIngestClaim(s, t, sub, s')
    ensures Ownership(s')
  {
    if sub in s.dispatching {
      SameOwners(s, s', t);
    } else {
      NewOwner(s, s', t, sub);
    }
  }

  lemma SweepClaimOwnership(s: Sys, t: ActId, s': Sys)
    requires Ownership(s) && DoSweepClaim(s, t, s')
    ensures Ownership(s')
  {
    NewOwner(s, s', t, s.acts[t].rest[0].sub);
  }

  lemma TakeOwnership(s: Sys, s': Sys)
    requires Ownership(s) && DoTakeJob(s, s')
    ensures Ownership(s')
  {
    SameOwners(s, s', s.queue[0]);
  }

  lemma RetireOwnership(s: Sys, s': Sys)
    requires Ownership(s) && Retires(s, s')
    ensures Ownership(s')
  {
    SameOwners(s, s', 0);
  }
}
