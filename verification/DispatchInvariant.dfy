/** All invariants of the reply outbox together, kept by every step. */
module DispatchInvariant {
  import opened OutboxTable
  import opened DispatchModel
  import opened DispatchShapes
  import opened DispatchProvenance
  import opened DispatchOwnership
  import opened DispatchDelivery
  import opened DispatchAttempts
  import opened DispatchPool

  /** What holds of the texts: where they come from, in which order they go out, how often they are tried. */
  ghost predicate Texts(s: Sys) {
    Provenance(s) && Delivery(s) && Attempts(s)
  }

  ghost predicate Inv(s: Sys) {
    Texts(s) && Ownership(s) && Pool(s)
  }

  lemma InitInv(s: Sys)
    requires Init(s)
    ensures Inv(s)
  {
  }

  // ---- each shape keeps what holds of the texts ----

  lemma QuietTexts(s: Sys, s': Sys, t: ActId)
    requires Texts(s) && Quiet(s, s', t)
    ensures Texts(s')
  {
    SameTableProvenance(s, s', t);
    QuietDelivery(s, s', t);
    CalmAttempts(s, s', t);
  }

  lemma ListTexts(s: Sys, s': Sys, t: ActId)
    requires Texts(s) && Lists(s, s', t) && HandAt(s, t).Empty?
    ensures Texts(s')
  {
    ListProvenance(s, s', t);
    ListDelivery(s, s', t);
    CalmAttempts(s, s', t);
  }

  lemma CommitTexts(s: Sys, s': Sys, t: ActId, sub: SubId, row: RowId, notBefore: int)
    requires Texts(s) && Commits(s, s', t, sub, row, notBefore)
    ensures Texts(s')
  {
    CommitProvenance(s, s', t, sub, row, notBefore);
    CommitDelivery(s, s', t, sub, row, notBefore);
    CalmAttempts(s, s', t);
  }

  lemma SendTexts(s: Sys, s': Sys, t: ActId)
    requires Texts(s) && Ownership(s) && Sends(s, s', t)
    ensures Texts(s')
  {
    SameTableProvenance(s, s', t);
    SendDelivery(s, s', t);
    CalmAttempts(s, s', t);
  }

  lemma MarkTexts(s: Sys, s': Sys, t: ActId)
    requires Texts(s) && Ownership(s) && Marks(s, s', t)
    ensures Texts(s')
  {
    MarkProvenance(s, s', t);
    MarkDelivery(s, s', t);
    CalmAttempts(s, s', t);
  }

  lemma LoseMarkTexts(s: Sys, s': Sys, t: ActId)
    requires Texts(s) && LosesMark(s, s', t)
    ensures Texts(s')
  {
    SameTableProvenance(s, s', t);
    LoseMarkDelivery(s, s', t);
    CalmAttempts(s, s', t);
  }

  lemma ReadTexts(s: Sys, s': Sys, t: ActId, row: RowId)
    requires Texts(s) && Ownership(s) && Reads(s, s', t, row)
    ensures Texts(s')
  {
    ReadProvenance(s, s', t, row);
    ReadDelivery(s, s', t, row);
    ReadAttempts(s, s', t, row);
  }

  lemma MissTexts(s: Sys, s': Sys, t: ActId)
    requires Texts(s) && Ownership(s) && Misses(s, s', t)
    ensures Texts(s')
  {
    SameTableProvenance(s, s', t);
    MissDelivery(s, s', t);
    MissAttempts(s, s', t);
  }

  lemma SettleTexts(s: Sys, s': Sys, t: ActId, ok: bool)
    requires Texts(s) && Ownership(s) && Settles(s, s', t, ok)
    ensures Texts(s')
  {
    SettleProvenance(s, s', t, ok);
    SettleDelivery(s, s', t, ok);
    SettleAttempts(s, s', t, ok);
  }

  lemma RetireTexts(s: Sys, s': Sys)
    requires Texts(s) && Retires(s, s')
    ensures Texts(s')
  {
    RetireProvenance(s, s');
    RetireDelivery(s, s');
    CalmAttempts(s, s', 0);
  }

  lemma CrashTexts(s: Sys, s': Sys)
    requires Texts(s) && DoCrash(s, s')
    ensures Texts(s')
  {
    CrashDelivery(s, s');
    CrashAttempts(s, s');
  }

  // ---- each step keeps everything ----

  lemma IngestInv(s: Sys, step: Step, s': Sys)
    requires Inv(s) && Next(s, step, s')
    requires step.IngestClaim? || step.CommitFail? || step.Commit? || step.SkipOnline? || step.Release?
    ensures Inv(s')
  {
    match step
    case IngestClaim(t, sub) =>
      ClaimShape(s, t, sub, s');
      QuietTexts(s, s', t);
      ClaimOwnership(s, t, sub, s');
      IngestPool(s, t, s');
    case CommitFail(t) =>
      CommitFailShape(s, t, s');
      QuietTexts(s, s', t);
      IngestOwnership(s, t, s');
      IngestPool(s, t, s');
    case Commit(t, row, now, notBefore) =>
      CommitShape(s, t, row, now, notBefore, s');
      CommitTexts(s, s', t, s.acts[t].sub, row, notBefore);
      CommitOwnership(s, t, row, now, notBefore, s');
      CommitPool(s, t, row, now, notBefore, s');
    case SkipOnline(t) => SkipShape(s, t, s'); QuietTexts(s, s', t); IngestOwnership(s, t, s'); IngestPool(s, t, s');
    case Release(t) => ReleaseShape(s, t, s'); QuietTexts(s, s', t); ReleaseOwnership(s, t, s'); IngestPool(s, t, s');
  }

  lemma EnqueueInv(s: Sys, step: Step, s': Sys)
    requires Inv(s) && Next(s, step, s') && (step.EnterEnqueue? || step.CountJob? || step.PutJob? || step.TakeJob?)
    ensures Inv(s')
  {
    match step
    case EnterEnqueue(t) => EnterShape(s, t, s'); QuietTexts(s, s', t); EnqueueOwnership(s, t, s'); EnterPool(s, t, s');
    case CountJob(t) => CountShape(s, t, s'); QuietTexts(s, s', t); EnqueueOwnership(s, t, s'); CountPool(s, t, s');
    case PutJob(t) => PutShape(s, t, s'); QuietTexts(s, s', t); PutOwnership(s, t, s'); PutPool(s, t, s');
    case TakeJob => TakeShape(s, s'); QuietTexts(s, s', s.queue[0]); TakeOwnership(s, s'); TakePool(s, s');
  }

  lemma WorkerInv(s: Sys, step: Step, s': Sys)
    requires Inv(s) && Next(s, step, s')
    requires step.SendOk? || step.SendFail? || step.Mark? || step.MarkFail? || step.Finish? || step.Leave?
    ensures Inv(s')
  {
    match step
    case SendOk(t) => SendShapes(s, t, s'); SendTexts(s, s', t); WorkerOwnership(s, t, s'); WorkerPool(s, t, s');
    case SendFail(t) => SendFailShape(s, t, s'); QuietTexts(s, s', t); WorkerOwnership(s, t, s'); WorkerPool(s, t, s');
    case Mark(t) => MarkShapes(s, t, s'); MarkTexts(s, s', t); MarkOwnership(s, t, s'); WorkerPool(s, t, s');
    case MarkFail(t) =>
      MarkFailShapes(s, t, s');
      LoseMarkTexts(s, s', t);
      MarkOwnership(s, t, s');
      WorkerPool(s, t, s');
    case Finish(t) => FinishShape(s, t, s'); QuietTexts(s, s', t); ReleaseOwnership(s, t, s'); WorkerPool(s, t, s');
    case Leave(t) => LeaveShape(s, t, s'); QuietTexts(s, s', t); WorkerOwnership(s, t, s'); LeavePool(s, t, s');
  }

  lemma SweepInv(s: Sys, step: Step, s': Sys)
    requires Inv(s) && Next(s, step, s')
    requires step.SweepList? || step.SweepEnd? || step.SweepSkip? || step.SweepClaim? || step.SweepRelease?
    ensures Inv(s')
  {
    match step
    case SweepList(t, batch) =>
      ListShape(s, t, batch, s');
      ListTexts(s, s', t);
      SweepOwnership(s, t, s');
      SweepPool(s, t, s');
    case SweepEnd(t) => SweepEndShape(s, t, s'); QuietTexts(s, s', t); SweepOwnership(s, t, s'); SweepPool(s, t, s');
    case SweepSkip(t) => SweepSkipShape(s, t, s'); QuietTexts(s, s', t); SweepOwnership(s, t, s'); SweepPool(s, t, s');
    case SweepClaim(t) =>
      SweepClaimShape(s, t, s');
      QuietTexts(s, s', t);
      SweepClaimOwnership(s, t, s');
      SweepClaimPool(s, t, s');
    case SweepRelease(t) =>
      SweepReleaseShape(s, t, s');
      QuietTexts(s, s', t);
      SweepReleaseOwnership(s, t, s');
      SweepClaimPool(s, t, s');
  }

  lemma RereadInv(s: Sys, t: ActId, ok: bool, s': Sys)
    requires Inv(s) && DoReread(s, t, ok, s')
    ensures Inv(s')
  {
    RereadShape(s, t, ok, s');
    if ok && IsPending(s.rows, s.acts[t].row) {
      ReadTexts(s, s', t, s.acts[t].row);
    } else {
      QuietTexts(s, s', t);
    }
    RereadOwnership(s, t, ok, s');
    SettlePool(s, t, ok, s');
  }

  lemma ResendInv(s: Sys, step: Step, s': Sys)
    requires Inv(s) && Next(s, step, s')
    requires step.Reread? || step.ResendOk? || step.ResendFail? || step.SweepMark? || step.SweepMarkFail? ||
      step.Settle?
    ensures Inv(s')
  {
    match step
    case Reread(t, ok) => RereadInv(s, t, ok, s');
    case ResendOk(t) => SendShapes(s, t, s'); SendTexts(s, s', t); ResendOwnership(s, t, s'); ResendPool(s, t, s');
    case ResendFail(t) => MissShape(s, t, s'); MissTexts(s, s', t); ResendOwnership(s, t, s'); ResendPool(s, t, s');
    case SweepMark(t) => MarkShapes(s, t, s'); MarkTexts(s, s', t); SweepMarkOwnership(s, t, s'); ResendPool(s, t, s');
    case SweepMarkFail(t) =>
      MarkFailShapes(s, t, s');
      LoseMarkTexts(s, s', t);
      SweepMarkOwnership(s, t, s');
      ResendPool(s, t, s');
    case Settle(t, ok) =>
      SettleShape(s, t, ok, s');
      SettleTexts(s, s', t, ok);
      SettleOwnership(s, t, ok, s');
      SettlePool(s, t, ok, s');
  }

  lemma ProcessInv(s: Sys, step: Step, s': Sys)
    requires Inv(s) && Next(s, step, s')
    requires step.ExpireOld? || step.DropReleased? || step.PruneOld? || step.SetBlocked? || step.Tick? ||
             step.ShutdownFlag? || step.CloseChannel? || step.Crash?
    ensures Inv(s')
  {
    ProcessPool(s, step, s');
    if step.Crash? {
      CrashTexts(s, s');
    } else {
      if step.ExpireOld? || step.DropReleased? || step.PruneOld? {
        ExpiryShapes(s, step, s');
      } else {
        ProcessShapes(s, step, s');
      }
      RetireTexts(s, s');
      RetireOwnership(s, s');
    }
  }

  /** Every step of every sender keeps every invariant. */
  lemma StepInv(s: Sys, step: Step, s': Sys)
    requires Inv(s) && Next(s, step, s')
    ensures Inv(s')
  {
    if step.IngestClaim? || step.CommitFail? || step.Commit? || step.SkipOnline? || step.Release? {
      IngestInv(s, step, s');
    } else if step.EnterEnqueue? || step.CountJob? || step.PutJob? || step.TakeJob? {
      EnqueueInv(s, step, s');
    } else if step.SendOk? || step.SendFail? || step.Mark? || step.MarkFail? || step.Finish? || step.Leave? {
      WorkerInv(s, step, s');
    } else if step.SweepList? || step.SweepEnd? || step.SweepSkip? || step.SweepClaim? || step.SweepRelease? {
      SweepInv(s, step, s');
    } else if step.Reread? || step.ResendOk? || step.ResendFail? || step.SweepMark? || step.SweepMarkFail? ||
      step.Settle? {
      ResendInv(s, step, s');
    } else {
      ProcessInv(s, step, s');
    }
  }
}
