/** What holds over whole runs of the reply outbox. */
module DispatchRuns {
  import opened OutboxTable
  import opened DispatchModel
  import opened DispatchShapes
  import opened DispatchProvenance
  import opened DispatchOwnership
  import opened DispatchDelivery
  import opened DispatchAttempts
  import opened DispatchPool
  import opened DispatchInvariant

  ghost predicate IsPath(states: seq<Sys>, steps: seq<Step>) {
    |states| == |steps| + 1 && forall i :: 0 <= i < |steps| ==> Next(states[i], steps[i], states[i + 1])
  }

  ghost predicate IsRun(states: seq<Sys>, steps: seq<Step>) {
    IsPath(states, steps) && Init(states[0])
  }

  /** A crash, or a mark-sent that does not run. */
  predicate IsFault(step: Step) {
    step.MarkFail? || step.SweepMarkFail? || step.Crash?
  }

  function SubOf(a: Activity): set<SubId> {
    if a.Marking? || a.SweepMarking? then {a.job.sub} else {}
  }

  /** The submissions with a send awaiting its mark that this fault keeps from running. */
  function Struck(s: Sys, step: Step): set<SubId> {
    match step
    case MarkFail(t) => if t in s.acts then SubOf(s.acts[t]) else {}
    case SweepMarkFail(t) => if t in s.acts then SubOf(s.acts[t]) else {}
    case Crash => AwaitingMark(s.acts)
    case _ => {}
  }

  /** The rows with a failing send whose attempt count this step keeps out of the table. */
  function Uncounted(s: Sys, step: Step): set<RowId> {
    match step
    case Settle(t, ok) => if !ok && t in s.acts && s.acts[t].SweepFailing? then {s.acts[t].job.row} else {}
    case Crash => AwaitingWrite(s.acts)
    case _ => {}
  }

  /** How many of the first n steps strike a send of the submission between its delivery and its mark. */
  function Strikes(states: seq<Sys>, steps: seq<Step>, sub: SubId, n: nat): nat
    requires n <= |steps| && |states| == |steps| + 1
  {
    if n == 0 then 0
    else Strikes(states, steps, sub, n - 1) + (if sub in Struck(states[n - 1], steps[n - 1]) then 1 else 0)
  }

  /** How many of the first n steps lose an attempt of the row. */
  function Losses(states: seq<Sys>, steps: seq<Step>, row: RowId, n: nat): nat
    requires n <= |steps| && |states| == |steps| + 1
  {
    if n == 0 then 0
    else Losses(states, steps, row, n - 1) + (if row in Uncounted(states[n - 1], steps[n - 1]) then 1 else 0)
  }

  predicate IsIngest(step: Step) {
    step.IngestClaim? || step.CommitFail? || step.SkipOnline? || step.EnterEnqueue? || step.CountJob? ||
      step.PutJob? || step.Release?
  }

  predicate IsWork(step: Step) {
    step.TakeJob? || step.SendOk? || step.SendFail? || step.MarkFail? || step.Finish? || step.Leave?
  }

  predicate IsSweep(step: Step) {
    step.SweepList? || step.SweepEnd? || step.SweepSkip? || step.SweepClaim? || step.SweepRelease?
  }

  predicate IsResend(step: Step) {
    step.Reread? || step.ResendOk? || step.ResendFail? || step.SweepMarkFail?
  }

  predicate IsProcess(step: Step) {
    step.SetBlocked? || step.Tick? || step.ShutdownFlag? || step.CloseChannel? || step.Crash?
  }

  /** The steps that do not write to the outbox. */
  predicate IsSilent(step: Step) {
    IsIngest(step) || IsWork(step) || IsSweep(step) || IsResend(step) || IsProcess(step)
  }

  /** What the counters count, that silent steps leave the table alone, and that one step alone sets who is blocked. */
  ghost predicate Accounted(s: Sys, step: Step, s': Sys) {
    && s'.unmarked == (if IsFault(step) then Raised(s.unmarked, Struck(s, step)) else s.unmarked)
    && s'.lost == (if Uncounted(s, step) != {} || step.Crash? then Raised(s.lost, Uncounted(s, step)) else s.lost)
    && (IsSilent(step) ==> s'.rows == s.rows && s'.commits == s.commits)
    && s'.blocked == (if step.SetBlocked? then step.subs else s.blocked)
  }

  lemma IngestAccounted(s: Sys, step: Step, s': Sys)
    requires Next(s, step, s') && IsIngest(step) && !step.PutJob?
    ensures Accounted(s, step, s')
  {
  }

  lemma PutAccounted(s: Sys, t: ActId, s': Sys)
    requires DoPutJob(s, t, s')
    ensures Accounted(s, PutJob(t), s')
  {
  }

  lemma WorkAccounted(s: Sys, step: Step, s': Sys)
    requires Next(s, step, s') && IsWork(step)
    ensures Accounted(s, step, s')
  {
  }

  lemma SweepAccounted(s: Sys, step: Step, s': Sys)
    requires Next(s, step, s') && IsSweep(step)
    ensures Accounted(s, step, s')
  {
  }

  lemma ResendAccounted(s: Sys, step: Step, s': Sys)
    requires Next(s, step, s') && IsResend(step)
    ensures Accounted(s, step, s')
  {
  }

  lemma ProcessAccounted(s: Sys, step: Step, s': Sys)
    requires Next(s, step, s') && IsProcess(step)
    ensures Accounted(s, step, s')
  {
  }

  lemma WriteAccounted(s: Sys, step: Step, s': Sys)
    requires Next(s, step, s') && !IsSilent(step)
    ensures Accounted(s, step, s')
  {
  }

  lemma StepAccounted(s: Sys, step: Step, s': Sys)
    requires Next(s, step, s')
    ensures Accounted(s, step, s')
  {
    if step.PutJob? {
      PutAccounted(s, step.t, s');
    } else if IsIngest(step) {
      IngestAccounted(s, step, s');
    } else if IsWork(step) {
      WorkAccounted(s, step, s');
    } else if IsSweep(step) {
      SweepAccounted(s, step, s');
    } else if IsResend(step) {
      ResendAccounted(s, step, s');
    } else if IsProcess(step) {
      ProcessAccounted(s, step, s');
    } else {
      WriteAccounted(s, step, s');
    }
  }

  lemma {:induction false} InvAt(states: seq<Sys>, steps: seq<Step>, i: nat)
    requires IsRun(states, steps) && i < |states|
    ensures Inv(states[i])
  {
    if i == 0 {
      InitInv(states[0]);
    } else {
      InvAt(states, steps, i - 1);
      StepInv(states[i - 1], steps[i - 1], states[i]);
    }
  }

  lemma TallyStep(s: Sys, step: Step, s': Sys, key: nat)
    requires Next(s, step, s')
    ensures Tally(s'.unmarked, key) == Tally(s.unmarked, key) + (if key in Struck(s, step) then 1 else 0)
    ensures Tally(s'.lost, key) == Tally(s.lost, key) + (if key in Uncounted(s, step) then 1 else 0)
  {
    StepAccounted(s, step, s');
  }

  predicate CountsStep(states: seq<Sys>, steps: seq<Step>, key: nat, k: nat)
    requires |states| == |steps| + 1 && k < |steps|
  {
    && Tally(states[k + 1].unmarked, key) ==
       Tally(states[k].unmarked, key) + (if key in Struck(states[k], steps[k]) then 1 else 0)
    && Tally(states[k + 1].lost, key) ==
       Tally(states[k].lost, key) + (if key in Uncounted(states[k], steps[k]) then 1 else 0)
  }

  lemma {:induction false} CountsChain(states: seq<Sys>, steps: seq<Step>, key: nat, n: nat)
    requires |states| == |steps| + 1 && n <= |steps| && forall k :: 0 <= k < n ==> CountsStep(states, steps, key, k)
    requires Tally(states[0].unmarked, key) == Tally(states[0].lost, key) == 0
    ensures Tally(states[n].unmarked, key) == Strikes(states, steps, key, n)
    ensures Tally(states[n].lost, key) == Losses(states, steps, key, n)
    decreases n
  {
    if n > 0 {
      CountsChain(states, steps, key, n - 1);
      assert CountsStep(states, steps, key, n - 1);
    }
  }

  lemma CountsAt(states: seq<Sys>, steps: seq<Step>, key: nat, n: nat)
    requires IsRun(states, steps) && n <= |steps|
    ensures Tally(states[n].unmarked, key) == Strikes(states, steps, key, n)
    ensures Tally(states[n].lost, key) == Losses(states, steps, key, n)
  {
    forall k | 0 <= k < n ensures CountsStep(states, steps, key, k) {
      TallyStep(states[k], steps[k], states[k + 1], key);
    }
    CountsChain(states, steps, key, n);
  }

  ghost predicate StrictlyIncreasing(log: seq<nat>) {
    forall i, j :: 0 <= i < j < |log| ==> log[i] < log[j]
  }

  lemma {:induction false} NoRepeatsIsStrict(log: seq<nat>)
    requires NonDecreasing(log) && Repeats(log) == 0
    ensures StrictlyIncreasing(log)
  {
    if |log| >= 2 {
      var n := |log| - 1;
      NoRepeatsIsStrict(log[..n]);
      forall i | 0 <= i < n ensures log[i] < log[n] {
        assert log[..n][i] == log[i] && log[..n][n - 1] == log[n - 1];
        assert i < n - 1 ==> log[..n][i] < log[..n][n - 1];
      }
      forall i, j | 0 <= i < j < |log| ensures log[i] < log[j] {
        if j < n {
          assert log[..n][i] < log[..n][j];
        }
      }
    }
  }

  /**
  The broker's view of every run, crashes included: an older reply never goes out after a newer
  one, and a submission's replies repeat at most once per fault that struck one of its own sends
  between the delivery and the mark.
  */
  lemma DeliveriesInOrder(states: seq<Sys>, steps: seq<Step>, sub: SubId)
    requires IsRun(states, steps)
    ensures NonDecreasing(LogOf(states[|steps|].log, sub))
    ensures Repeats(LogOf(states[|steps|].log, sub)) <= Strikes(states, steps, sub, |steps|)
  {
    InvAt(states, steps, |steps|);
    CountsAt(states, steps, sub, |steps|);
  }

  lemma {:induction false} NoStrikes(states: seq<Sys>, steps: seq<Step>, sub: SubId, n: nat)
    requires n <= |steps| && |states| == |steps| + 1
    requires forall i :: 0 <= i < n ==> sub !in Struck(states[i], steps[i])
    ensures Strikes(states, steps, sub, n) == 0
  {
    if n > 0 {
      NoStrikes(states, steps, sub, n - 1);
    }
  }

  /** When no fault strikes a send of the submission before its mark, none of its replies goes out twice. */
  lemma DeliveriesExactlyOnce(states: seq<Sys>, steps: seq<Step>, sub: SubId)
    requires IsRun(states, steps)
    requires forall i :: 0 <= i < |steps| ==> sub !in Struck(states[i], steps[i])
    ensures StrictlyIncreasing(LogOf(states[|steps|].log, sub))
  {
    NoStrikes(states, steps, sub, |steps|);
    DeliveriesInOrder(states, steps, sub);
    NoRepeatsIsStrict(LogOf(states[|steps|].log, sub));
  }

  /** A sent row holds a text that was delivered to its submission. */
  lemma SentWasDelivered(states: seq<Sys>, steps: seq<Step>, i: nat, id: RowId)
    requires IsRun(states, steps) && i < |states|
    requires id in states[i].rows && states[i].rows[id].status.Sent?
    ensures states[i].rows[id].reply in LogOf(states[i].log, states[i].rows[id].sub)
  {
    InvAt(states, steps, i);
  }

  /** Only a commit numbers a new row, and only on a uuid never used before. */
  lemma CommitLands(s: Sys, t: ActId, row: RowId, now: int, notBefore: int, s': Sys, id: RowId)
    requires Inv(s) && DoCommit(s, t, row, now, notBefore, s') && id < s.commits && !IsPending(s.rows, id)
    ensures id in s'.rows <==> id in s.rows
    ensures id in s.rows ==> s'.rows[id] == s.rows[id]
  {
  }

  lemma SettleLands(s: Sys, t: ActId, ok: bool, s': Sys, id: RowId)
    requires Delivery(s) && DoSettle(s, t, ok, s') && id in s.rows
    ensures s.rows[id].status.Sent? ==> s'.rows[id] == s.rows[id]
    ensures s.rows[id].attempts <= s'.rows[id].attempts
  {
    assert HandAt(s, t).Missed?;
    assert HandSound(s, HandAt(s, t));
  }

  lemma SentStep(s: Sys, step: Step, s': Sys, id: RowId)
    requires Inv(s) && Next(s, step, s')
    requires id in s.rows && s.rows[id].status.Sent?
    ensures s.commits <= s'.commits && (id in s'.rows ==> s'.rows[id] == s.rows[id])
  {
    if IsSilent(step) {
      StepAccounted(s, step, s');
    } else {
      SentWrite(s, step, s', id);
    }
  }

  lemma SentExpiry(s: Sys, step: Step, s': Sys, id: RowId)
    requires Next(s, step, s')
    requires step.Mark? || step.SweepMark? || step.ExpireOld? || step.DropReleased? || step.PruneOld?
    requires id in s.rows && s.rows[id].status.Sent?
    ensures s.commits == s'.commits && (id in s'.rows ==> s'.rows[id] == s.rows[id])
  {
  }

  lemma SentWrite(s: Sys, step: Step, s': Sys, id: RowId)
    requires Inv(s) && Next(s, step, s') && !IsSilent(step)
    requires id in s.rows && s.rows[id].status.Sent?
    ensures s.commits <= s'.commits && (id in s'.rows ==> s'.rows[id] == s.rows[id])
  {
    match step
    case Commit(t, row, now, notBefore) =>
      assert RowSound(s, id);
      CommitLands(s, t, row, now, notBefore, s', id);
    case Settle(t, ok) => SettleLands(s, t, ok, s', id);
    case _ => SentExpiry(s, step, s', id);
  }

  lemma GoneStep(s: Sys, step: Step, s': Sys, id: RowId)
    requires Inv(s) && Next(s, step, s') && id < s.commits && id !in s.rows
    ensures id !in s'.rows && id < s'.commits
  {
    if IsSilent(step) {
      StepAccounted(s, step, s');
    } else {
      GoneWrite(s, step, s', id);
    }
  }

  lemma GoneWrite(s: Sys, step: Step, s': Sys, id: RowId)
    requires Inv(s) && Next(s, step, s') && !IsSilent(step) && id < s.commits && id !in s.rows
    ensures id !in s'.rows && id < s'.commits
  {
  }

  /** The row is as it was, or gone; its number is taken either way. */
  predicate SameOrGone(s: Sys, id: RowId, row: Row) {
    id < s.commits && (id in s.rows ==> s.rows[id] == row)
  }

  lemma SentOrGone(states: seq<Sys>, steps: seq<Step>, i: nat, id: RowId, row: Row)
    requires IsRun(states, steps) && i < |steps| && row.status.Sent? && SameOrGone(states[i], id, row)
    ensures SameOrGone(states[i + 1], id, row)
  {
    InvAt(states, steps, i);
    if id in states[i].rows {
      SentStep(states[i], steps[i], states[i + 1], id);
    } else {
      GoneStep(states[i], steps[i], states[i + 1], id);
    }
  }

  lemma RowIsCommitted(states: seq<Sys>, steps: seq<Step>, i: nat, id: RowId)
    requires IsRun(states, steps) && i < |states| && id in states[i].rows
    ensures id < states[i].commits
  {
    InvAt(states, steps, i);
    assert RowSound(states[i], id);
  }

  lemma {:induction false} SentChain(states: seq<Sys>, i: nat, j: nat, id: RowId, row: Row)
    requires i <= j < |states| && SameOrGone(states[i], id, row)
    requires forall k :: i <= k < j && SameOrGone(states[k], id, row) ==> SameOrGone(states[k + 1], id, row)
    ensures SameOrGone(states[j], id, row)
    decreases j
  {
    if i < j {
      SentChain(states, i, j - 1, id, row);
    }
  }

  /** A sent row stays as it is until it is pruned: neither a late Update nor a follow-up reopens it. */
  lemma SentNeverLeaves(states: seq<Sys>, steps: seq<Step>, i: nat, j: nat, id: RowId)
    requires IsRun(states, steps) && i <= j < |states|
    requires id in states[i].rows && states[i].rows[id].status.Sent?
    ensures id < states[j].commits
    ensures id in states[j].rows ==> states[j].rows[id] == states[i].rows[id]
  {
    var row := states[i].rows[id];
    RowIsCommitted(states, steps, i, id);
    forall k | i <= k < j && SameOrGone(states[k], id, row) ensures SameOrGone(states[k + 1], id, row) {
      SentOrGone(states, steps, k, id, row);
    }
    SentChain(states, i, j, id, row);
  }

  /** In every reachable state: one owner per claim, one pending row per submission, the counter exact, no panic. */
  lemma SendersAreCoordinated(states: seq<Sys>, steps: seq<Step>, i: nat)
    requires IsRun(states, steps) && i < |states|
    ensures forall sub :: sub in states[i].dispatching <==> OwnedBySome(states[i], sub)
    ensures forall t, u, sub :: OwnsAt(states[i], t, sub) && OwnsAt(states[i], u, sub) ==> t == u
    ensures OnePending(states[i].rows)
    ensures states[i].inFlight == |InFlightSet(states[i].acts)|
    ensures forall t :: t in states[i].queue <==> t in states[i].acts && states[i].acts[t].Queued?
    ensures !states[i].panicked
    ensures states[i].channelClosed ==> forall t :: t in states[i].acts ==> !states[i].acts[t].Counted?
  {
    InvAt(states, steps, i);
  }

  lemma CommitKeepsAttempts(s: Sys, t: ActId, row: RowId, now: int, notBefore: int, s': Sys, id: RowId)
    requires DoCommit(s, t, row, now, notBefore, s') && id in s.rows
    ensures id in s'.rows && s'.rows[id].attempts == s.rows[id].attempts
  {
  }

  lemma WriteKeepsAttempts(s: Sys, step: Step, s': Sys, id: RowId)
    requires Delivery(s) && Next(s, step, s') && !IsSilent(step) && id in s.rows && id in s'.rows
    ensures s.rows[id].attempts <= s'.rows[id].attempts
  {
    match step
    case Settle(t, ok) => SettleLands(s, t, ok, s', id);
    case Commit(t, row, now, notBefore) => CommitKeepsAttempts(s, t, row, now, notBefore, s', id);
    case _ =>
  }

  lemma StepKeepsAttempts(s: Sys, step: Step, s': Sys, id: RowId)
    requires Inv(s) && Next(s, step, s') && id in s.rows && id in s'.rows
    ensures s.rows[id].attempts <= s'.rows[id].attempts
  {
    if IsSilent(step) {
      StepAccounted(s, step, s');
    } else {
      WriteKeepsAttempts(s, step, s', id);
    }
  }

  /** The row was there before, with no more attempts. */
  ghost predicate NoFewerAttempts(s: Sys, s': Sys, id: RowId) {
    id in s'.rows ==> id in s.rows && s.rows[id].attempts <= s'.rows[id].attempts
  }

  lemma AttemptsAfterStep(states: seq<Sys>, steps: seq<Step>, k: nat, id: RowId)
    requires IsRun(states, steps) && k < |steps| && id < states[k].commits
    ensures NoFewerAttempts(states[k], states[k + 1], id)
  {
    InvAt(states, steps, k);
    if id !in states[k].rows {
      GoneStep(states[k], steps[k], states[k + 1], id);
    } else if id in states[k + 1].rows {
      StepKeepsAttempts(states[k], steps[k], states[k + 1], id);
    }
  }

  lemma {:induction false} CommitsChain(states: seq<Sys>, i: nat, j: nat)
    requires i <= j < |states| && forall k :: i <= k < j ==> states[k].commits <= states[k + 1].commits
    ensures states[i].commits <= states[j].commits
    decreases j
  {
    if i < j {
      CommitsChain(states, i, j - 1);
    }
  }

  lemma NumberedStays(states: seq<Sys>, steps: seq<Step>, i: nat, j: nat, id: RowId)
    requires IsRun(states, steps) && i <= j < |states| && id < states[i].commits
    ensures id < states[j].commits
  {
    forall k | i <= k < j ensures states[k].commits <= states[k + 1].commits {
      CommitsGrow(states[k], steps[k], states[k + 1]);
    }
    CommitsChain(states, i, j);
  }

  lemma CommitsGrow(s: Sys, step: Step, s': Sys)
    requires Next(s, step, s')
    ensures s.commits <= s'.commits
  {
    if IsSilent(step) {
      StepAccounted(s, step, s');
    }
  }

  lemma AttemptsBefore(states: seq<Sys>, steps: seq<Step>, i: nat, k: nat, id: RowId)
    requires IsRun(states, steps) && i <= k < |steps| && id in states[i].rows
    ensures NoFewerAttempts(states[k], states[k + 1], id)
  {
    RowIsCommitted(states, steps, i, id);
    NumberedStays(states, steps, i, k, id);
    AttemptsAfterStep(states, steps, k, id);
  }

  lemma {:induction false} AttemptsChain(states: seq<Sys>, i: nat, j: nat, id: RowId)
    requires i <= j < |states| && forall k :: i <= k < j ==> NoFewerAttempts(states[k], states[k + 1], id)
    ensures NoFewerAttempts(states[i], states[j], id)
    decreases j
  {
    if i < j {
      AttemptsChain(states, i, j - 1, id);
    }
  }

  /** In every run the attempts of a row never fall, however many replies coalesce into it. */
  lemma AttemptsNeverFall(states: seq<Sys>, steps: seq<Step>, i: nat, j: nat, id: RowId)
    requires IsRun(states, steps) && i <= j < |states| && id in states[i].rows && id in states[j].rows
    ensures states[i].rows[id].attempts <= states[j].rows[id].attempts
  {
    forall k | i <= k < j ensures NoFewerAttempts(states[k], states[k + 1], id) {
      AttemptsBefore(states, steps, i, k, id);
    }
    AttemptsChain(states, i, j, id);
  }

  /** The sweeper makes at most MAX_ATTEMPTS failing sends on a row, plus one per attempt of that row that was lost. */
  lemma FailingSendsBounded(states: seq<Sys>, steps: seq<Step>, id: RowId)
    requires IsRun(states, steps)
    ensures Tally(states[|steps|].failures, id) <= MAX_ATTEMPTS + Losses(states, steps, id, |steps|)
    ensures IsPending(states[|steps|].rows, id) ==> states[|steps|].rows[id].attempts < MAX_ATTEMPTS
  {
    InvAt(states, steps, |steps|);
    CountsAt(states, steps, id, |steps|);
    assert id in states[|steps|].rows ==> RowTried(states[|steps|], id);
  }
}
