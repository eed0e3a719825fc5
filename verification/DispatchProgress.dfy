/**
Claims do not leak: an owner keeps its claim until it releases it, every one of its
steps brings the release nearer, and from every reachable state a run without faults
releases any given claim.
*/
module DispatchProgress {
  import opened OutboxTable
  import opened DispatchModel
  import opened DispatchShapes
  import opened DispatchProvenance
  import opened DispatchOwnership
  import opened DispatchPool
  import opened DispatchInvariant
  import opened DispatchRuns

  /** How many stages an owner has before its release. */
  function Stage(a: Activity): nat {
    match a
    case Claimed(_, _) => 9
    case Committed(_, _) => 8
    case Enqueueing(_) => 7
    case Counted(_) => 6
    case Queued(_) => 5
    case Sending(_) => 4
    case Rereading(_, _, _, _) => 4
    case Redelivering(_, _, _, _) => 3
    case Marking(_) => 2
    case SweepMarking(_, _, _) => 2
    case SweepFailing(_, _, _, _) => 2
    case _ => 1
  }

  /** The claim stays with its owner, at the same stage or a later one, or is given up altogether. */
  ghost predicate MovesOn(s: Sys, s': Sys, t: ActId, sub: SubId)
    requires t in s.acts
  {
    || (OwnsAt(s', t, sub) && (s'.acts[t] == s.acts[t] || Stage(s'.acts[t]) < Stage(s.acts[t])))
    || (sub !in s'.dispatching && !OwnsAt(s', t, sub))
  }

  lemma ClaimMoves(s: Sys, u: ActId, s': Sys, t: ActId, sub: SubId)
    requires Ownership(s) && OwnsAt(s, t, sub)
    requires (exists x :: DoIngestClaim(s, u, x, s')) || DoCommitFail(s, u, s')
    ensures MovesOn(s, s', t, sub)
  {
  }

  lemma ReleaseMoves(s: Sys, u: ActId, s': Sys, t: ActId, sub: SubId)
    requires Ownership(s) && OwnsAt(s, t, sub)
    requires DoSkipOnline(s, u, s') || DoRelease(s, u, s')
    ensures MovesOn(s, s', t, sub)
  {
  }

  lemma EnqueueMoves(s: Sys, u: ActId, s': Sys, t: ActId, sub: SubId)
    requires Ownership(s) && OwnsAt(s, t, sub)
    requires DoEnterEnqueue(s, u, s') || DoCountJob(s, u, s')
    ensures MovesOn(s, s', t, sub)
  {
  }

  lemma PutMoves(s: Sys, u: ActId, s': Sys, t: ActId, sub: SubId)
    requires Ownership(s) && OwnsAt(s, t, sub)
    requires DoPutJob(s, u, s')
    ensures MovesOn(s, s', t, sub)
  {
  }

  lemma CommitMoves(s: Sys, u: ActId, row: RowId, now: int, notBefore: int, s': Sys, t: ActId, sub: SubId)
    requires Ownership(s) && OwnsAt(s, t, sub) && DoCommit(s, u, row, now, notBefore, s')
    ensures MovesOn(s, s', t, sub)
  {
  }

  lemma SendMoves(s: Sys, u: ActId, s': Sys, t: ActId, sub: SubId)
    requires Ownership(s) && OwnsAt(s, t, sub)
    requires DoSendOk(s, u, s') || DoSendFail(s, u, s')
    ensures MovesOn(s, s', t, sub)
  {
  }

  lemma FinishMoves(s: Sys, u: ActId, s': Sys, t: ActId, sub: SubId)
    requires Ownership(s) && OwnsAt(s, t, sub)
    requires DoFinish(s, u, s') || DoLeave(s, u, s')
    ensures MovesOn(s, s', t, sub)
  {
  }

  lemma MarkMoves(s: Sys, u: ActId, s': Sys, t: ActId, sub: SubId)
    requires Ownership(s) && OwnsAt(s, t, sub)
    requires DoMark(s, u, s') || DoMarkFail(s, u, s')
    ensures MovesOn(s, s', t, sub)
  {
  }

  lemma SweepMarkMoves(s: Sys, u: ActId, s': Sys, t: ActId, sub: SubId)
    requires Ownership(s) && OwnsAt(s, t, sub)
    requires DoSweepMark(s, u, s') || DoSweepMarkFail(s, u, s')
    ensures MovesOn(s, s', t, sub)
  {
  }

  lemma ListMoves(s: Sys, u: ActId, batch: seq<RowId>, s': Sys, t: ActId, sub: SubId)
    requires Ownership(s) && OwnsAt(s, t, sub) && DoSweepList(s, u, batch, s')
    ensures MovesOn(s, s', t, sub)
  {
    assert s'.acts[t] == s.acts[t];
  }

  lemma SweepMoves(s: Sys, u: ActId, s': Sys, t: ActId, sub: SubId)
    requires Ownership(s) && OwnsAt(s, t, sub) && (DoSweepEnd(s, u, s') || DoSweepSkip(s, u, s'))
    ensures MovesOn(s, s', t, sub)
  {
    if u != t {
      assert s'.acts[t] == s.acts[t];
    }
  }

  lemma SweepClaimMoves(s: Sys, u: ActId, s': Sys, t: ActId, sub: SubId)
    requires Ownership(s) && OwnsAt(s, t, sub)
    requires DoSweepClaim(s, u, s') || DoSweepRelease(s, u, s')
    ensures MovesOn(s, s', t, sub)
  {
  }

  lemma ResendMoves(s: Sys, u: ActId, s': Sys, t: ActId, sub: SubId)
    requires Ownership(s) && OwnsAt(s, t, sub)
    requires DoResendOk(s, u, s') || DoResendFail(s, u, s')
    ensures MovesOn(s, s', t, sub)
  {
  }

  lemma SettleMoves(s: Sys, u: ActId, ok: bool, s': Sys, t: ActId, sub: SubId)
    requires Ownership(s) && Provenance(s) && OwnsAt(s, t, sub)
    requires DoReread(s, u, ok, s') || DoSettle(s, u, ok, s')
    ensures MovesOn(s, s', t, sub)
  {
    var a := s.acts[u];
    if a.Rereading? {
      assert RestAt(s, u)[0] == Listed(a.row, a.sub);
      assert ListedSound(s, Listed(a.row, a.sub));
    }
  }

  predicate IsOnline(step: Step) {
    IsIngest(step) || step.Commit? || step.SendOk? || step.SendFail? || step.Mark? || step.MarkFail? ||
      step.Finish? || step.Leave?
  }

  predicate IsResending(step: Step) {
    step.ResendOk? || step.ResendFail? || step.SweepMark? || step.SweepMarkFail?
  }

  predicate IsSettling(step: Step) {
    step.Reread? || step.Settle?
  }

  lemma OnlineMoves(s: Sys, step: Step, s': Sys, t: ActId, sub: SubId)
    requires Ownership(s) && Next(s, step, s') && OwnsAt(s, t, sub) && IsOnline(step)
    ensures MovesOn(s, s', t, sub)
  {
    match step
    case IngestClaim(u, _) => ClaimMoves(s, u, s', t, sub);
    case CommitFail(u) => ClaimMoves(s, u, s', t, sub);
    case Commit(u, row, now, notBefore) => CommitMoves(s, u, row, now, notBefore, s', t, sub);
    case SkipOnline(u) => ReleaseMoves(s, u, s', t, sub);
    case EnterEnqueue(u) => EnqueueMoves(s, u, s', t, sub);
    case CountJob(u) => EnqueueMoves(s, u, s', t, sub);
    case PutJob(u) => PutMoves(s, u, s', t, sub);
    case Release(u) => ReleaseMoves(s, u, s', t, sub);
    case SendOk(u) => SendMoves(s, u, s', t, sub);
    case SendFail(u) => SendMoves(s, u, s', t, sub);
    case Mark(u) => MarkMoves(s, u, s', t, sub);
    case MarkFail(u) => MarkMoves(s, u, s', t, sub);
    case Finish(u) => FinishMoves(s, u, s', t, sub);
    case Leave(u) => FinishMoves(s, u, s', t, sub);
  }

  lemma ListingMoves(s: Sys, step: Step, s': Sys, t: ActId, sub: SubId)
    requires Ownership(s) && Next(s, step, s') && OwnsAt(s, t, sub) && IsSweep(step)
    ensures MovesOn(s, s', t, sub)
  {
    match step
    case SweepList(u, batch) => ListMoves(s, u, batch, s', t, sub);
    case SweepEnd(u) => SweepMoves(s, u, s', t, sub);
    case SweepSkip(u) => SweepMoves(s, u, s', t, sub);
    case SweepClaim(u) => SweepClaimMoves(s, u, s', t, sub);
    case SweepRelease(u) => SweepClaimMoves(s, u, s', t, sub);
  }

  lemma ResendingMoves(s: Sys, step: Step, s': Sys, t: ActId, sub: SubId)
    requires Ownership(s) && Next(s, step, s') && OwnsAt(s, t, sub)
    requires IsResending(step)
    ensures MovesOn(s, s', t, sub)
  {
    match step
    case ResendOk(u) => ResendMoves(s, u, s', t, sub);
    case ResendFail(u) => ResendMoves(s, u, s', t, sub);
    case SweepMark(u) => SweepMarkMoves(s, u, s', t, sub);
    case SweepMarkFail(u) => SweepMarkMoves(s, u, s', t, sub);
  }

  lemma SettlingMoves(s: Sys, step: Step, s': Sys, t: ActId, sub: SubId)
    requires Ownership(s) && Provenance(s) && Next(s, step, s') && OwnsAt(s, t, sub) && IsSettling(step)
    ensures MovesOn(s, s', t, sub)
  {
    SettleMoves(s, step.t, step.ok, s', t, sub);
  }

  lemma OtherMoves(s: Sys, step: Step, s': Sys, t: ActId, sub: SubId)
    requires Ownership(s) && Next(s, step, s') && OwnsAt(s, t, sub)
    requires !IsOnline(step) && !IsSweep(step) && !IsResending(step) && !IsSettling(step)
    ensures MovesOn(s, s', t, sub)
  {
  }

  /** Every step leaves every claim with its owner, no further from release, or releases it. */
  lemma OwnerMovesOn(s: Sys, step: Step, s': Sys, t: ActId, sub: SubId)
    requires Ownership(s) && Provenance(s) && Next(s, step, s') && OwnsAt(s, t, sub)
    ensures MovesOn(s, s', t, sub)
  {
    if IsOnline(step) {
      OnlineMoves(s, step, s', t, sub);
    } else if IsSweep(step) {
      ListingMoves(s, step, s', t, sub);
    } else if IsResending(step) {
      ResendingMoves(s, step, s', t, sub);
    } else if IsSettling(step) {
      SettlingMoves(s, step, s', t, sub);
    } else {
      OtherMoves(s, step, s', t, sub);
    }
  }

  /** A commit can always land somewhere: on the pending row, or on its own new uuid. */
  lemma CommitTarget(rows: Table, sub: SubId, uuid: RowId) returns (row: RowId)
    ensures IsUpsertTarget(rows, sub, uuid, row)
  {
    if HasPending(rows, sub) {
      row :| row in rows && rows[row].status.Pending? && rows[row].sub == sub;
    } else {
      row := uuid;
    }
  }

  /** An owner in the ingest is never stuck. */
  lemma IngestCanStep(s: Sys, t: ActId) returns (step: Step, s': Sys)
    requires Pool(s) && t in s.acts
    requires s.acts[t].Claimed? || s.acts[t].Committed? || s.acts[t].Enqueueing? || s.acts[t].Counted? ||
      s.acts[t].Releasing?
    ensures Next(s, step, s') && !IsFault(step)
    ensures t in s'.acts ==> s'.acts[t] != s.acts[t]
  {
    var a := s.acts[t];
    match a
    case Claimed(sub, held) =>
      var row := CommitTarget(s.rows, sub, s.commits);
      step := Commit(t, row, s.clock, s.clock);
      s' := s.(rows := Upsert(s.rows, row, sub, s.commits, s.clock, s.clock),
               clock := s.clock + 1, commits := s.commits + 1,
               acts := if held then s.acts[t := Committed(Job(sub, row, s.commits, s.clock), true)] else s.acts - {t});
    case Committed(job, due) =>
      if due {
        step := EnterEnqueue(t);
        s' := s.(acts := s.acts[t := if s.closed then Releasing(job.sub) else Enqueueing(job)]);
      } else {
        step := SkipOnline(t);
        s' := s.(acts := s.acts[t := Releasing(job.sub)]);
      }
    case Enqueueing(job) =>
      step, s' := CountJob(t), s.(acts := s.acts[t := Counted(job)], inFlight := s.inFlight + 1);
    case Counted(job) =>
      step := PutJob(t);
      FlyingIsPositive(s.acts, t);
      s' := if |s.queue| < QUEUE_SIZE then s.(acts := s.acts[t := Queued(job)], queue := s.queue + [t])
            else s.(acts := s.acts[t := Releasing(job.sub)], inFlight := s.inFlight - 1);
    case Releasing(sub) =>
      step, s' := Release(t), s.(acts := s.acts - {t}, dispatching := s.dispatching - {sub});
  }

  /** An owner in a worker is never stuck. */
  lemma WorkerCanStep(s: Sys, t: ActId) returns (step: Step, s': Sys)
    requires t in s.acts && (s.acts[t].Sending? || s.acts[t].Marking? || s.acts[t].Finishing?)
    ensures Next(s, step, s') && !IsFault(step)
    ensures t in s'.acts ==> s'.acts[t] != s.acts[t]
  {
    var a := s.acts[t];
    match a
    case Sending(job) =>
      step, s' := SendOk(t), s.(acts := s.acts[t := Marking(job)], log := Delivered(s, job));
    case Marking(job) =>
      step := Mark(t);
      s' := s.(acts := s.acts[t := Finishing(job.sub)],
               rows := MarkSent(s.rows, job.row, job.version, s.clock), clock := s.clock + 1);
    case Finishing(sub) =>
      step, s' := Finish(t), s.(acts := s.acts[t := Leaving], dispatching := s.dispatching - {sub});
  }

  function TakenUp(r: Row, row: RowId, rest: seq<Listed>, blocked: set<SubId>): Activity {
    Redelivering(Job(r.sub, row, r.reply, r.updatedAt), r.attempts, rest, blocked)
  }

  /** An owner in a sweeper is never stuck. */
  lemma SweepCanStep(s: Sys, t: ActId) returns (step: Step, s': Sys)
    requires t in s.acts
    requires s.acts[t].Rereading? || s.acts[t].Redelivering? || s.acts[t].SweepMarking? || s.acts[t].SweepFailing? ||
      s.acts[t].Settling?
    ensures Next(s, step, s') && !IsFault(step)
    ensures t in s'.acts ==> s'.acts[t] != s.acts[t]
  {
    var a := s.acts[t];
    match a
    case Rereading(row, sub, rest, blocked) =>
      step := Reread(t, true);
      s' := s.(acts := s.acts[t := if IsPending(s.rows, row) then TakenUp(s.rows[row], row, rest, blocked)
                                   else Settling(sub, rest, blocked)]);
    case Redelivering(job, attempts, rest, blocked) =>
      step, s' := ResendOk(t), s.(acts := s.acts[t := SweepMarking(job, rest, blocked)], log := Delivered(s, job));
    case SweepMarking(job, rest, blocked) =>
      step := SweepMark(t);
      s' := s.(acts := s.acts[t := Settling(job.sub, rest, blocked)],
               rows := MarkSent(s.rows, job.row, job.version, s.clock), clock := s.clock + 1);
    case SweepFailing(job, attempts, rest, blocked) =>
      step := Settle(t, true);
      s' := s.(acts := s.acts[t := Settling(job.sub, rest, blocked)],
               rows := Update(s.rows, job.row, FailStatus(attempts + 1), attempts + 1, s.clock), clock := s.clock + 1);
    case Settling(sub, rest, blocked) =>
      step, s' := SweepRelease(t), s.(acts := s.acts[t := Sweeping(rest, blocked)],
        dispatching := s.dispatching - {sub});
  }

  /** Where a queued job stands in the channel. */
  function Position(queue: seq<ActId>, t: ActId): nat {
    if |queue| == 0 || queue[0] == t then 0 else 1 + Position(queue[1..], t)
  }

  /** Taking the head of the channel moves a queued owner forward. */
  lemma TakeCanStep(s: Sys, t: ActId) returns (s': Sys)
    requires Pool(s) && t in s.acts && s.acts[t].Queued?
    ensures Next(s, TakeJob, s') && t in s'.acts
    ensures if s.queue[0] == t then s'.acts[t].Sending?
            else s'.acts[t] == s.acts[t] && Position(s'.queue, t) < Position(s.queue, t)
  {
    assert t in s.queue;
    assert s.queue[0] in s.queue;
    s' := s.(queue := s.queue[1..], acts := s.acts[s.queue[0] := Sending(s.acts[s.queue[0]].job)]);
  }

  /** Some step that is not a fault brings the owner's release nearer. */
  lemma OwnerCanStep(s: Sys, t: ActId, sub: SubId) returns (step: Step, s': Sys)
    requires Inv(s) && OwnsAt(s, t, sub)
    ensures Next(s, step, s') && !IsFault(step) && Inv(s')
    ensures || (sub !in s'.dispatching)
            || (OwnsAt(s', t, sub) && Stage(s'.acts[t]) < Stage(s.acts[t]))
            || (OwnsAt(s', t, sub) && Stage(s'.acts[t]) == Stage(s.acts[t]) &&
              Position(s'.queue, t) < Position(s.queue, t))
  {
    if s.acts[t].Queued? {
      step := TakeJob;
      s' := TakeCanStep(s, t);
    } else if s.acts[t].Sending? || s.acts[t].Marking? || s.acts[t].Finishing? {
      step, s' := WorkerCanStep(s, t);
    } else if s.acts[t].Rereading? || s.acts[t].Redelivering? || s.acts[t].SweepMarking? ||
      s.acts[t].SweepFailing? || s.acts[t].Settling? {
      step, s' := SweepCanStep(s, t);
    } else {
      step, s' := IngestCanStep(s, t);
    }
    OwnerMovesOn(s, step, s', t, sub);
    StepInv(s, step, s');
  }

  lemma Prepend(s: Sys, step: Step, states: seq<Sys>, steps: seq<Step>)
    requires IsPath(states, steps) && Next(s, step, states[0])
    ensures IsPath([s] + states, [step] + steps)
  {
    var longer, all := [s] + states, [step] + steps;
    forall i | 0 <= i < |all| ensures Next(longer[i], all[i], longer[i + 1]) {
      if i > 0 {
        assert longer[i] == states[i - 1] && all[i] == steps[i - 1] && longer[i + 1] == states[i];
      }
    }
  }

  /** From every state the invariants allow, a run without faults releases any given claim. */
  lemma ClaimsAreReleased(s: Sys, t: ActId, sub: SubId) returns (states: seq<Sys>, steps: seq<Step>)
    requires Inv(s) && OwnsAt(s, t, sub)
    ensures IsPath(states, steps) && states[0] == s && sub !in states[|steps|].dispatching
    ensures forall i :: 0 <= i < |steps| ==> !IsFault(steps[i])
    decreases Stage(s.acts[t]), Position(s.queue, t)
  {
    var step, s' := OwnerCanStep(s, t, sub);
    if sub !in s'.dispatching {
      states, steps := [s, s'], [step];
    } else {
      var more, rest := ClaimsAreReleased(s', t, sub);
      Prepend(s, step, more, rest);
      states, steps := [s] + more, [step] + rest;
      assert states[|steps|] == more[|rest|];
    }
  }

  // ---- over runs ----

  predicate Moved(s: Sys, s': Sys, t: ActId) {
    t in s.acts && t in s'.acts && s'.acts[t] != s.acts[t]
  }

  /** How often the activity moves between two states of a run. */
  function Moves(states: seq<Sys>, t: ActId, i: nat, j: nat): nat
    requires i <= j < |states|
  {
    if i == j then 0 else Moves(states, t, i, j - 1) + (if Moved(states[j - 1], states[j], t) then 1 else 0)
  }

  function StageAt(s: Sys, t: ActId): nat {
    if t in s.acts then Stage(s.acts[t]) else 0
  }

  /** The owner stays as it is or comes nearer to its release. */
  ghost predicate Nearer(s: Sys, s': Sys, t: ActId) {
    t in s.acts && t in s'.acts && (s'.acts[t] == s.acts[t] || Stage(s'.acts[t]) < Stage(s.acts[t]))
  }

  lemma OwnerNearer(states: seq<Sys>, steps: seq<Step>, k: nat, t: ActId, sub: SubId)
    requires IsRun(states, steps) && k < |steps| && OwnsAt(states[k], t, sub) && OwnsAt(states[k + 1], t, sub)
    ensures Nearer(states[k], states[k + 1], t)
  {
    InvAt(states, steps, k);
    OwnerMovesOn(states[k], steps[k], states[k + 1], t, sub);
  }

  lemma {:induction false} MovesAreStages(states: seq<Sys>, t: ActId, i: nat, j: nat)
    requires i <= j < |states| && forall k :: i <= k < j ==> Nearer(states[k], states[k + 1], t)
    ensures Moves(states, t, i, j) + StageAt(states[j], t) <= StageAt(states[i], t)
    decreases j
  {
    if i < j {
      MovesAreStages(states, t, i, j - 1);
      assert Nearer(states[j - 1], states[j], t);
    }
  }

  /**
  In every run, faults and failures included, an owner uses up one of its at most nine stages with
  every move it makes while it owns the submission: no owner can move on without coming to its
  release, whatever the others do.
  */
  lemma OwnersRunOut(states: seq<Sys>, steps: seq<Step>, i: nat, j: nat, t: ActId, sub: SubId)
    requires IsRun(states, steps) && i <= j < |states| && forall k :: i <= k <= j ==> OwnsAt(states[k], t, sub)
    ensures Moves(states, t, i, j) + StageAt(states[j], t) <= StageAt(states[i], t) <= 9
  {
    forall k | i <= k < j ensures Nearer(states[k], states[k + 1], t) {
      OwnerNearer(states, steps, k, t, sub);
    }
    MovesAreStages(states, t, i, j);
  }

  /** And in every run an owner stops owning only by giving the claim back: it is never left behind. */
  lemma OwnershipEndsInRelease(states: seq<Sys>, steps: seq<Step>, k: nat, t: ActId, sub: SubId)
    requires IsRun(states, steps) && k < |steps| && OwnsAt(states[k], t, sub) && !OwnsAt(states[k + 1], t, sub)
    ensures sub !in states[k + 1].dispatching
  {
    InvAt(states, steps, k);
    OwnerMovesOn(states[k], steps[k], states[k + 1], t, sub);
  }
}
