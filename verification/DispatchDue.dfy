/**
What is sent was due. The worker sends a text only if it was due at its commit; a sweeper sends a row
only if it was due, and its submission neither held nor bounced, when the sweep listed it.
*/
module DispatchDue {
  import opened OutboxTable
  import opened DispatchModel
  import opened DispatchShapes
  import opened DispatchProvenance
  import opened DispatchInvariant
  import opened DispatchRuns

  // ---- whose step it is ----

  /** The activity a step moves, if it moves one. */
  predicate Moves(s: Sys, step: Step, t: ActId) {
    if step.TakeJob? then s.queue != [] && s.queue[0] == t
    else !IsTableOrProcess(step) && step.t == t
  }

  predicate IsTableOrProcess(step: Step) {
    step.ExpireOld? || step.DropReleased? || step.PruneOld? || step.SetBlocked? || step.Tick? || step.ShutdownFlag? ||
      step.CloseChannel? || step.Crash?
  }

  /** An activity that is there after a step that does not move it was there before, the same. */
  ghost predicate Stays(s: Sys, s': Sys, t: ActId) {
    t in s'.acts ==> t in s.acts && s'.acts[t] == s.acts[t]
  }

  predicate IsClaim(step: Step) {
    step.IngestClaim? || step.CommitFail? || step.Commit? || step.Release?
  }

  predicate IsEnqueue(step: Step) {
    step.SkipOnline? || step.EnterEnqueue? || step.CountJob?
  }

  lemma ClaimMovesOne(s: Sys, step: Step, s': Sys, t: ActId)
    requires Next(s, step, s') && IsClaim(step) && step.t != t
    ensures Stays(s, s', t)
  {
  }

  lemma EnqueueMovesOne(s: Sys, step: Step, s': Sys, t: ActId)
    requires Next(s, step, s') && IsEnqueue(step) && step.t != t
    ensures Stays(s, s', t)
  {
  }

  lemma PutMovesOne(s: Sys, u: ActId, s': Sys, t: ActId)
    requires DoPutJob(s, u, s') && u != t
    ensures Stays(s, s', t)
  {
  }

  lemma WorkMovesOne(s: Sys, step: Step, s': Sys, t: ActId)
    requires Next(s, step, s') && (IsWork(step) || step.Mark?) && !Moves(s, step, t)
    ensures Stays(s, s', t)
  {
  }

  lemma SweepMovesOne(s: Sys, step: Step, s': Sys, t: ActId)
    requires Next(s, step, s') && IsSweep(step) && !Moves(s, step, t)
    ensures Stays(s, s', t)
  {
  }

  lemma ResendMovesOne(s: Sys, step: Step, s': Sys, t: ActId)
    requires Next(s, step, s') && IsResend(step) && !Moves(s, step, t)
    ensures Stays(s, s', t)
  {
  }

  lemma SettleMovesOne(s: Sys, step: Step, s': Sys, t: ActId)
    requires Next(s, step, s') && (step.SweepMark? || step.Settle?) && !Moves(s, step, t)
    ensures Stays(s, s', t)
  {
  }

  lemma OneMoves(s: Sys, step: Step, s': Sys, t: ActId)
    requires Next(s, step, s') && !Moves(s, step, t)
    ensures Stays(s, s', t)
  {
    if IsClaim(step) {
      ClaimMovesOne(s, step, s', t);
    } else if IsEnqueue(step) {
      EnqueueMovesOne(s, step, s', t);
    } else if step.PutJob? {
      PutMovesOne(s, step.t, s', t);
    } else if IsWork(step) || step.Mark? {
      WorkMovesOne(s, step, s', t);
    } else if IsSweep(step) {
      SweepMovesOne(s, step, s', t);
    } else if IsResend(step) {
      ResendMovesOne(s, step, s', t);
    } else if step.SweepMark? || step.Settle? {
      SettleMovesOne(s, step, s', t);
    }
  }

  // ---- who is blocked ----

  /** What was last said of who is held or bounced, in the first n steps. */
  function LastBlocked(steps: seq<Step>, n: nat): set<SubId>
    requires n <= |steps|
  {
    if n == 0 then {} else if steps[n - 1].SetBlocked? then steps[n - 1].subs else LastBlocked(steps, n - 1)
  }

  /** In every run the blocked submissions are those last named so. */
  lemma {:induction false} BlockedAsNamed(states: seq<Sys>, steps: seq<Step>, n: nat)
    requires IsRun(states, steps) && n <= |steps|
    ensures states[n].blocked == LastBlocked(steps, n)
    decreases n
  {
    if n > 0 {
      BlockedAsNamed(states, steps, n - 1);
      StepAccounted(states[n - 1], steps[n - 1], states[n]);
    }
  }

  // ---- sweepers ----

  predicate IsSweeper(a: Activity) {
    a.Sweeping? || a.Rereading? || a.Redelivering? || a.SweepMarking? || a.SweepFailing? || a.Settling?
  }

  /** ListPending may return this row: pending, its time come, and untried or last written two minutes ago. */
  predicate MayList(s: Sys, id: RowId) {
    && id in s.rows && s.rows[id].status.Pending? && s.rows[id].notBefore <= s.clock
    && (s.rows[id].attempts == 0 || s.rows[id].updatedAt <= s.clock - 120_000_000_000)
  }

  /** The listing gave this row, for this submission. */
  predicate Gives(s: Sys, batch: seq<RowId>, id: RowId, sub: SubId) {
    id in batch && MayList(s, id) && s.rows[id].sub == sub
  }

  predicate GivesAll(s: Sys, batch: seq<RowId>, rest: seq<Listed>) {
    forall l :: l in rest ==> Gives(s, batch, l.row, l.sub)
  }

  /** What a sweeper works on comes from its listing, and it passes over what was blocked then. */
  predicate Comes(s: Sys, batch: seq<RowId>, a: Activity) {
    match a
    case Sweeping(rest, blocked) => blocked == s.blocked && GivesAll(s, batch, rest)
    case Rereading(row, sub, rest, blocked) =>
      blocked == s.blocked && GivesAll(s, batch, rest) && Gives(s, batch, row, sub) && sub !in s.blocked
    case Redelivering(job, _, rest, blocked) =>
      blocked == s.blocked && GivesAll(s, batch, rest) && Gives(s, batch, job.row, job.sub) && job.sub !in s.blocked
    case SweepMarking(job, rest, blocked) =>
      blocked == s.blocked && GivesAll(s, batch, rest) && Gives(s, batch, job.row, job.sub) && job.sub !in s.blocked
    case SweepFailing(job, _, rest, blocked) =>
      blocked == s.blocked && GivesAll(s, batch, rest) && Gives(s, batch, job.row, job.sub) && job.sub !in s.blocked
    case Settling(_, rest, blocked) => blocked == s.blocked && GivesAll(s, batch, rest)
    case _ => true
  }

  /** Step j is the activity's latest listing before n. */
  predicate IsListing(steps: seq<Step>, t: ActId, j: int, n: nat)
    requires n <= |steps|
  {
    && 0 <= j < n && steps[j].SweepList? && steps[j].t == t
    && forall k :: j < k < n ==> !(steps[k].SweepList? && steps[k].t == t)
  }

  ghost predicate Sourced(states: seq<Sys>, steps: seq<Step>, n: nat, t: ActId, a: Activity)
    requires IsPath(states, steps) && n <= |steps|
  {
    exists j :: IsListing(steps, t, j, n) && Comes(states[j], steps[j].batch, a)
  }

  lemma ListComes(s: Sys, t: ActId, batch: seq<RowId>, s': Sys)
    requires DoSweepList(s, t, batch, s')
    ensures t in s'.acts && Comes(s, batch, s'.acts[t])
    ensures |batch| <= 100 && forall i, j :: 0 <= i < j < |batch| ==>
              batch[i] != batch[j] && s.rows[batch[i]].notBefore <= s.rows[batch[j]].notBefore
  {
  }

  lemma RereadComes(s0: Sys, batch: seq<RowId>, s: Sys, t: ActId, ok: bool, s': Sys)
    requires Provenance(s) && DoReread(s, t, ok, s') && Comes(s0, batch, s.acts[t])
    ensures t in s'.acts && Comes(s0, batch, s'.acts[t])
  {
    var a := s.acts[t];
    assert Listed(a.row, a.sub) in RestAt(s, t);
    assert ListedSound(s, Listed(a.row, a.sub));
  }

  lemma SweepComes(s0: Sys, batch: seq<RowId>, s: Sys, step: Step, s': Sys, t: ActId)
    requires Next(s, step, s') && t in s.acts && Comes(s0, batch, s.acts[t])
    requires (step.SweepSkip? || step.SweepClaim? || step.SweepRelease?) && step.t == t
    ensures t in s'.acts && Comes(s0, batch, s'.acts[t])
  {
  }

  lemma ResendComes(s0: Sys, batch: seq<RowId>, s: Sys, step: Step, s': Sys, t: ActId)
    requires Next(s, step, s') && t in s.acts && Comes(s0, batch, s.acts[t])
    requires step.ResendOk? || step.ResendFail? || step.SweepMark? || step.SweepMarkFail? || step.Settle?
    requires step.t == t
    ensures t in s'.acts && Comes(s0, batch, s'.acts[t])
  {
  }

  predicate MovesSweeper(step: Step) {
    step.SweepSkip? || step.SweepClaim? || step.SweepRelease? || step.Reread? || step.ResendOk? || step.ResendFail? ||
      step.SweepMark? || step.SweepMarkFail? || step.Settle?
  }

  lemma ClaimIsNoSweeper(s: Sys, step: Step, s': Sys, t: ActId)
    requires Next(s, step, s') && IsClaim(step) && step.t == t && t in s'.acts
    ensures !IsSweeper(s'.acts[t])
  {
  }

  lemma EnqueueIsNoSweeper(s: Sys, step: Step, s': Sys, t: ActId)
    requires Next(s, step, s') && IsEnqueue(step) && step.t == t && t in s'.acts
    ensures !IsSweeper(s'.acts[t])
  {
  }

  lemma PutIsNoSweeper(s: Sys, t: ActId, s': Sys)
    requires DoPutJob(s, t, s') && t in s'.acts
    ensures !IsSweeper(s'.acts[t])
  {
  }

  lemma WorkIsNoSweeper(s: Sys, step: Step, s': Sys, t: ActId)
    requires Next(s, step, s') && (IsWork(step) || step.Mark?) && Moves(s, step, t) && t in s'.acts
    ensures !IsSweeper(s'.acts[t])
  {
  }

  lemma MovedSweeper(s: Sys, step: Step, s': Sys, t: ActId)
    requires Next(s, step, s') && Moves(s, step, t) && t in s'.acts && IsSweeper(s'.acts[t]) && !step.SweepList?
    ensures MovesSweeper(step) && t in s.acts && IsSweeper(s.acts[t])
  {
    if IsClaim(step) {
      ClaimIsNoSweeper(s, step, s', t);
    } else if IsEnqueue(step) {
      EnqueueIsNoSweeper(s, step, s', t);
    } else if step.PutJob? {
      PutIsNoSweeper(s, t, s');
    } else if IsWork(step) || step.Mark? {
      WorkIsNoSweeper(s, step, s', t);
    }
  }

  lemma KeepsComing(s0: Sys, batch: seq<RowId>, s: Sys, step: Step, s': Sys, t: ActId)
    requires Provenance(s) && Next(s, step, s') && MovesSweeper(step) && step.t == t
    requires t in s.acts && Comes(s0, batch, s.acts[t])
    ensures t in s'.acts && Comes(s0, batch, s'.acts[t])
  {
    if step.Reread? {
      RereadComes(s0, batch, s, t, step.ok, s');
    } else if step.SweepSkip? || step.SweepClaim? || step.SweepRelease? {
      SweepComes(s0, batch, s, step, s', t);
    } else {
      ResendComes(s0, batch, s, step, s', t);
    }
  }

  lemma NextSourced(states: seq<Sys>, steps: seq<Step>, n: nat, t: ActId)
    requires IsRun(states, steps) && n < |steps| && t in states[n + 1].acts && IsSweeper(states[n + 1].acts[t])
    requires t in states[n].acts && IsSweeper(states[n].acts[t]) ==> Sourced(states, steps, n, t, states[n].acts[t])
    ensures Sourced(states, steps, n + 1, t, states[n + 1].acts[t])
  {
    var s, step, s' := states[n], steps[n], states[n + 1];
    if step.SweepList? && step.t == t {
      ListComes(s, t, step.batch, s');
      assert IsListing(steps, t, n, n + 1);
    } else {
      InvAt(states, steps, n);
      if Moves(s, step, t) {
        MovedSweeper(s, step, s', t);
      } else {
        OneMoves(s, step, s', t);
      }
      var j :| IsListing(steps, t, j, n) && Comes(states[j], steps[j].batch, s.acts[t]);
      assert IsListing(steps, t, j, n + 1);
      if Moves(s, step, t) {
        KeepsComing(states[j], steps[j].batch, s, step, s', t);
      }
    }
  }

  lemma {:induction false} SourcedAt(states: seq<Sys>, steps: seq<Step>, n: nat, t: ActId)
    requires IsRun(states, steps) && n <= |steps| && t in states[n].acts && IsSweeper(states[n].acts[t])
    ensures Sourced(states, steps, n, t, states[n].acts[t])
    decreases n
  {
    if n > 0 {
      if t in states[n - 1].acts && IsSweeper(states[n - 1].acts[t]) {
        SourcedAt(states, steps, n - 1, t);
      }
      NextSourced(states, steps, n - 1, t);
    }
  }

  /**
  In every run what a sweeper sends, or tries to, is a row that its latest listing gave: pending then,
  its time come, untried or left alone for two minutes, and its submission neither held nor bounced.
  */
  lemma SweeperSendsWhatIsDue(states: seq<Sys>, steps: seq<Step>, i: nat) returns (j: int)
    requires IsRun(states, steps) && i < |steps| && (steps[i].ResendOk? || steps[i].ResendFail?)
    ensures steps[i].t in states[i].acts && states[i].acts[steps[i].t].Redelivering?
    ensures IsListing(steps, steps[i].t, j, i)
    ensures var job := states[i].acts[steps[i].t].job;
      job.row in steps[j].batch && MayList(states[j], job.row) && job.sub !in LastBlocked(steps, j)
  {
    var t := steps[i].t;
    assert Next(states[i], steps[i], states[i + 1]);
    SourcedAt(states, steps, i, t);
    j :| IsListing(steps, t, j, i) && Comes(states[j], steps[j].batch, states[i].acts[t]);
    BlockedAsNamed(states, steps, j);
  }

  /** And it passes over a listed row only if that was blocked then, or somebody owns the submission now. */
  lemma SkippedOnlyWhenBlocked(states: seq<Sys>, steps: seq<Step>, i: nat) returns (j: int, l: Listed)
    requires IsRun(states, steps) && i < |steps| && steps[i].SweepSkip?
    ensures IsListing(steps, steps[i].t, j, i) && l.row in steps[j].batch
    ensures RestAt(states[i], steps[i].t) == [l] + RestAt(states[i + 1], steps[i].t)
    ensures l.sub in states[j].blocked || l.sub in states[i].dispatching
  {
    var t := steps[i].t;
    assert Next(states[i], steps[i], states[i + 1]);
    SourcedAt(states, steps, i, t);
    j :| IsListing(steps, t, j, i) && Comes(states[j], steps[j].batch, states[i].acts[t]);
    l := states[i].acts[t].rest[0];
    assert l in states[i].acts[t].rest;
  }

  // ---- the worker ----

  /** The text has been handed over for sending, or is about to be. */
  predicate IsHandedOver(a: Activity) {
    a.Enqueueing? || a.Counted? || a.Queued? || a.Sending? || a.Marking?
  }

  /** Step j is the activity's commit of this text. */
  predicate IsCommitOf(states: seq<Sys>, steps: seq<Step>, t: ActId, job: Job, j: int, n: nat)
    requires |states| == |steps| + 1 && n <= |steps|
  {
    && 0 <= j < n && steps[j].Commit? && steps[j].t == t && states[j].commits == job.reply
    && t in states[j].acts && states[j].acts[t].Claimed? && states[j].acts[t].sub == job.sub
  }

  predicate WasDue(step: Step)
    requires step.Commit?
  {
    step.notBefore <= step.now
  }

  /** A committed text is known to be due or not; one handed over was. */
  ghost predicate Vouched(states: seq<Sys>, steps: seq<Step>, n: nat, t: ActId, a: Activity)
    requires |states| == |steps| + 1 && n <= |steps|
  {
    && (a.Committed? ==> exists j :: IsCommitOf(states, steps, t, a.job, j, n) && (a.due <==> WasDue(steps[j])))
    && (IsHandedOver(a) ==> exists j :: IsCommitOf(states, steps, t, a.job, j, n) && WasDue(steps[j]))
  }

  predicate IsOnline(a: Activity) {
    a.Committed? || IsHandedOver(a)
  }

  /** What a text handed over was before the step. */
  ghost predicate Advances(a: Activity, a': Activity) {
    && (IsHandedOver(a') ==> IsOnline(a) && a'.job == a.job && (a.Committed? ==> a.due))
    && !a'.Committed?
  }

  lemma EnqueueAdvances(s: Sys, step: Step, s': Sys, t: ActId)
    requires Next(s, step, s') && IsEnqueue(step) && step.t == t
    ensures t in s.acts && t in s'.acts && Advances(s.acts[t], s'.acts[t])
  {
  }

  lemma PutAdvances(s: Sys, t: ActId, s': Sys)
    requires Inv(s) && DoPutJob(s, t, s')
    ensures t in s.acts && t in s'.acts && Advances(s.acts[t], s'.acts[t])
  {
  }

  lemma WorkAdvances(s: Sys, step: Step, s': Sys, t: ActId)
    requires Next(s, step, s') && (IsWork(step) || step.Mark?) && Moves(s, step, t) && t in s'.acts
    ensures t in s.acts && Advances(s.acts[t], s'.acts[t])
  {
  }

  lemma SweepIsNotOnline(s: Sys, step: Step, s': Sys, t: ActId)
    requires Next(s, step, s') && IsSweep(step) && step.t == t && t in s'.acts
    ensures !IsOnline(s'.acts[t])
  {
  }

  lemma ResendIsNotOnline(s: Sys, step: Step, s': Sys, t: ActId)
    requires Next(s, step, s') && IsResend(step) && step.t == t && t in s'.acts
    ensures !IsOnline(s'.acts[t])
  {
  }

  lemma SettleIsNotOnline(s: Sys, step: Step, s': Sys, t: ActId)
    requires Next(s, step, s') && (step.SweepMark? || step.Settle?) && step.t == t && t in s'.acts
    ensures !IsOnline(s'.acts[t])
  {
  }

  lemma ClaimIsNotOnline(s: Sys, step: Step, s': Sys, t: ActId)
    requires Next(s, step, s') && IsClaim(step) && !step.Commit? && step.t == t && t in s'.acts
    ensures !IsOnline(s'.acts[t])
  {
  }

  lemma CommitVouches(states: seq<Sys>, steps: seq<Step>, n: nat, t: ActId)
    requires IsPath(states, steps) && n < |steps| && steps[n].Commit? && steps[n].t == t && t in states[n + 1].acts
    ensures Vouched(states, steps, n + 1, t, states[n + 1].acts[t])
  {
    var a := states[n + 1].acts[t];
    if a.Committed? {
      assert IsCommitOf(states, steps, t, a.job, n, n + 1);
    }
  }

  lemma AdvanceVouches(states: seq<Sys>, steps: seq<Step>, n: nat, t: ActId, a: Activity, a': Activity)
    requires |states| == |steps| + 1 && n < |steps|
    requires Vouched(states, steps, n, t, a) && (a' == a || Advances(a, a'))
    ensures Vouched(states, steps, n + 1, t, a')
  {
    if IsOnline(a) {
      var j :| IsCommitOf(states, steps, t, a.job, j, n) &&
        if a.Committed? then a.due <==> WasDue(steps[j]) else WasDue(steps[j]);
      assert IsCommitOf(states, steps, t, a.job, j, n + 1);
    }
  }

  lemma NextVouched(states: seq<Sys>, steps: seq<Step>, n: nat, t: ActId)
    requires IsRun(states, steps) && n < |steps| && t in states[n + 1].acts && IsOnline(states[n + 1].acts[t])
    requires t in states[n].acts ==> Vouched(states, steps, n, t, states[n].acts[t])
    ensures Vouched(states, steps, n + 1, t, states[n + 1].acts[t])
  {
    var s, step, s' := states[n], steps[n], states[n + 1];
    InvAt(states, steps, n);
    if !Moves(s, step, t) {
      OneMoves(s, step, s', t);
    } else if step.Commit? {
    } else if IsEnqueue(step) {
      EnqueueAdvances(s, step, s', t);
    } else if step.PutJob? {
      PutAdvances(s, t, s');
    } else if IsWork(step) || step.Mark? {
      WorkAdvances(s, step, s', t);
    } else if IsClaim(step) {
      ClaimIsNotOnline(s, step, s', t);
    } else if IsSweep(step) {
      SweepIsNotOnline(s, step, s', t);
    } else if IsResend(step) {
      ResendIsNotOnline(s, step, s', t);
    } else {
      SettleIsNotOnline(s, step, s', t);
    }
    if step.Commit? && step.t == t {
      CommitVouches(states, steps, n, t);
    } else {
      AdvanceVouches(states, steps, n, t, s.acts[t], s'.acts[t]);
    }
  }

  lemma {:induction false} VouchedAt(states: seq<Sys>, steps: seq<Step>, n: nat, t: ActId)
    requires IsRun(states, steps) && n <= |steps| && t in states[n].acts
    ensures Vouched(states, steps, n, t, states[n].acts[t])
    decreases n
  {
    if n > 0 && IsOnline(states[n].acts[t]) {
      if t in states[n - 1].acts {
        VouchedAt(states, steps, n - 1, t);
      }
      NextVouched(states, steps, n - 1, t);
    }
  }

  /**
  In every run what a worker sends was due when it was committed: a reply scheduled for later is left to
  the sweeper.
  */
  lemma WorkerSendsWhatIsDue(states: seq<Sys>, steps: seq<Step>, i: nat) returns (j: int)
    requires IsRun(states, steps) && i < |steps| && (steps[i].SendOk? || steps[i].SendFail?)
    ensures steps[i].t in states[i].acts && states[i].acts[steps[i].t].Sending?
    ensures IsCommitOf(states, steps, steps[i].t, states[i].acts[steps[i].t].job, j, i)
    ensures steps[j].notBefore == steps[j].now <= states[j].clock
  {
    var t := steps[i].t;
    assert Next(states[i], steps[i], states[i + 1]);
    VouchedAt(states, steps, i, t);
    j :| IsCommitOf(states, steps, t, states[i].acts[t].job, j, i) && WasDue(steps[j]);
    assert Next(states[j], steps[j], states[j + 1]);
  }

  /** And an ingest that keeps its claim leaves its reply to the sweeper only when it was scheduled for later. */
  lemma SkippedOnlyForLater(states: seq<Sys>, steps: seq<Step>, i: nat) returns (j: int)
    requires IsRun(states, steps) && i < |steps| && steps[i].SkipOnline?
    ensures steps[i].t in states[i].acts && states[i].acts[steps[i].t].Committed?
    ensures IsCommitOf(states, steps, steps[i].t, states[i].acts[steps[i].t].job, j, i)
    ensures steps[j].notBefore > steps[j].now
  {
    var t := steps[i].t;
    assert Next(states[i], steps[i], states[i + 1]);
    VouchedAt(states, steps, i, t);
    j :| IsCommitOf(states, steps, t, states[i].acts[t].job, j, i) && (states[i].acts[t].due <==> WasDue(steps[j]));
  }

  // ---- retries ----

  lemma StampStep(s: Sys, step: Step, s': Sys, id: RowId)
    requires Provenance(s) && Next(s, step, s') && !IsSilent(step) && id in s.rows && id in s'.rows
    ensures s.rows[id].updatedAt <= s'.rows[id].updatedAt
  {
    assert RowSound(s, id);
  }

  ghost predicate NoEarlierStamp(s: Sys, s': Sys, id: RowId) {
    id in s'.rows ==> id in s.rows && s.rows[id].updatedAt <= s'.rows[id].updatedAt
  }

  lemma StampAfterStep(states: seq<Sys>, steps: seq<Step>, k: nat, id: RowId)
    requires IsRun(states, steps) && k < |steps| && id < states[k].commits
    ensures NoEarlierStamp(states[k], states[k + 1], id)
  {
    InvAt(states, steps, k);
    AttemptsAfterStep(states, steps, k, id);
    if IsSilent(steps[k]) {
      StepAccounted(states[k], steps[k], states[k + 1]);
    } else if id in states[k + 1].rows {
      StampStep(states[k], steps[k], states[k + 1], id);
    }
  }

  lemma {:induction false} StampChain(states: seq<Sys>, i: nat, j: nat, id: RowId)
    requires i <= j < |states| && forall k :: i <= k < j ==> NoEarlierStamp(states[k], states[k + 1], id)
    ensures NoEarlierStamp(states[i], states[j], id)
    decreases j
  {
    if i < j {
      StampChain(states, i, j - 1, id);
    }
  }

  /** In every run the stamp of a row never goes back. */
  lemma StampsNeverFall(states: seq<Sys>, steps: seq<Step>, i: nat, j: nat, id: RowId)
    requires IsRun(states, steps) && i <= j < |states| && id < states[i].commits
    ensures NoEarlierStamp(states[i], states[j], id)
  {
    forall k | i <= k < j ensures NoEarlierStamp(states[k], states[k + 1], id) {
      NumberedStays(states, steps, i, k, id);
      StampAfterStep(states, steps, k, id);
    }
    StampChain(states, i, j, id);
  }

  /**
  In every run, once a failing send has been written into a row, no sweep lists the row within two
  minutes, whatever is coalesced into it meanwhile.
  */
  lemma RetriesAreSpaced(states: seq<Sys>, steps: seq<Step>, i: nat, j: nat, id: RowId)
    requires IsRun(states, steps) && i < j < |steps| && steps[i].Settle? && steps[j].SweepList?
    requires id in states[i + 1].rows && states[i + 1].rows[id].updatedAt == states[i].clock
    requires states[i + 1].rows[id].attempts > 0 && id in steps[j].batch
    ensures states[j].clock >= states[i].clock + 120_000_000_000
  {
    RowIsCommitted(states, steps, i + 1, id);
    StampsNeverFall(states, steps, i + 1, j, id);
    assert Next(states[j], steps[j], states[j + 1]);
    ListComes(states[j], steps[j].t, steps[j].batch, states[j + 1]);
    AttemptsNeverFall(states, steps, i + 1, j, id);
  }

  /** A sweep may be cut short between any two rows; what it has not visited stays as it is. */
  lemma SweepMayStop(s: Sys, t: ActId) returns (s': Sys)
    requires t in s.acts && s.acts[t].Sweeping?
    ensures Next(s, SweepEnd(t), s')
    ensures t !in s'.acts && s'.rows == s.rows && s'.dispatching == s.dispatching && s'.log == s.log
  {
    s' := s.(acts := s.acts - {t});
  }

  // ---- and what is due can be sent ----

  lemma {:induction false} Beyond(ids: set<ActId>) returns (t: ActId)
    ensures forall u :: u in ids ==> u < t
  {
    t := 0;
    if ids != {} {
      var u :| u in ids;
      var rest := Beyond(ids - {u});
      t := if u < rest then rest else u + 1;
      assert forall v :: v in ids ==> v == u || v in ids - {u};
    }
  }

  lemma ListAndClaim(s: Sys, t: ActId, id: RowId) returns (s1: Sys, s2: Sys)
    requires MayList(s, id) && s.rows[id].sub !in s.blocked && s.rows[id].sub !in s.dispatching && t !in s.acts
    ensures Next(s, SweepList(t, [id]), s1) && Next(s1, SweepClaim(t), s2)
    ensures s2 == s.(acts := s.acts[t := Rereading(id, s.rows[id].sub, [], s.blocked)],
                     dispatching := s.dispatching + {s.rows[id].sub})
  {
    var listed := [Listed(id, s.rows[id].sub)];
    assert Listing(s.rows, [id]) == listed;
    assert listed[1..] == [];
    s1 := s.(acts := s.acts[t := Sweeping(listed, s.blocked)]);
    s2 := s1.(acts := s1.acts[t := Rereading(id, s.rows[id].sub, [], s.blocked)],
              dispatching := s.dispatching + {s.rows[id].sub});
    assert s2.acts == s.acts[t := Rereading(id, s.rows[id].sub, [], s.blocked)];
  }

  lemma RereadAndSend(s2: Sys, t: ActId, id: RowId, sub: SubId, blocked: set<SubId>) returns (s3: Sys, s4: Sys)
    requires t in s2.acts && s2.acts[t] == Rereading(id, sub, [], blocked)
    requires IsPending(s2.rows, id) && s2.rows[id].sub == sub
    ensures Next(s2, Reread(t, true), s3) && Next(s3, ResendOk(t), s4)
    ensures LogOf(s4.log, sub) == LogOf(s2.log, sub) + [s2.rows[id].reply]
  {
    var job := Job(sub, id, s2.rows[id].reply, s2.rows[id].updatedAt);
    s3 := s2.(acts := s2.acts[t := Redelivering(job, s2.rows[id].attempts, [], blocked)]);
    s4 := s3.(acts := s3.acts[t := SweepMarking(job, [], blocked)], log := Delivered(s3, job));
  }

  /**
  From any state, a row that a listing may return can be sent at once, if its submission is neither
  held nor bounced and nobody else owns it: a sweep that lists it delivers its text.
  */
  lemma DueCanBeSent(s: Sys, id: RowId) returns (states: seq<Sys>, steps: seq<Step>)
    requires MayList(s, id) && s.rows[id].sub !in s.blocked && s.rows[id].sub !in s.dispatching
    ensures IsPath(states, steps) && states[0] == s && |steps| == 4
    ensures var sub := s.rows[id].sub; LogOf(states[4].log, sub) == LogOf(s.log, sub) + [s.rows[id].reply]
  {
    var t := Beyond(s.acts.Keys);
    var s1, s2 := ListAndClaim(s, t, id);
    var s3, s4 := RereadAndSend(s2, t, id, s.rows[id].sub, s.blocked);
    states, steps := [s, s1, s2, s3, s4], [SweepList(t, [id]), SweepClaim(t), Reread(t, true), ResendOk(t)];
  }
}
