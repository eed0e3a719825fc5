/**
Every run of the interleaved model is, for each submission, a run of the gate: `GateAt` reads the
gate's steps off the run. So the laws of ReplyGate hold of the outbox itself.
*/
module OutboxRuns {
  import opened Checklist
  import opened DispatchDelivery
  import opened DispatchModel
  import opened DispatchOwnership
  import opened DispatchProvenance
  import opened DispatchRuns
  import opened DispatchShapes
  import opened Fingerprint
  import opened OutboxGate
  import opened OutboxTable
  import G = ReplyGate

  // ---- what a submission sees of a step ----

  /** This step commits a reply of the submission. */
  predicate CommitsFor(s: Sys, step: Step, sub: SubId) {
    step.Commit? && step.t in s.acts && s.acts[step.t].Claimed? && s.acts[step.t].sub == sub
  }

  /** This step gives up a reply of the submission for dead, whether or not the row is written. */
  predicate BuriesFor(s: Sys, step: Step, sub: SubId) {
    step.Settle? && step.t in s.acts && s.acts[step.t].SweepFailing? && s.acts[step.t].job.sub == sub &&
    FailStatus(s.acts[step.t].attempts + 1).Failed?
  }

  /** The activity has nothing left to do for the submission but to release its claim. */
  predicate SettlesFor(s: Sys, t: ActId, sub: SubId) {
    t in s.acts && s.acts[t].Settling? && s.acts[t].sub == sub
  }

  predicate ReleasesFor(s: Sys, step: Step, sub: SubId) {
    step.SweepRelease? && SettlesFor(s, step.t, sub)
  }

  predicate IsQuietIngest(step: Step) {
    step.IngestClaim? || step.CommitFail? || step.SkipOnline? || step.Release? || step.EnterEnqueue? ||
      step.CountJob? || step.PutJob?
  }

  predicate IsQuietWork(step: Step) {
    step.SendFail? || step.Finish? || step.Leave? || step.SweepEnd? || step.SweepSkip? || step.SweepClaim? ||
      step.SweepRelease?
  }

  predicate IsTextStep(step: Step) {
    step.SendOk? || step.ResendOk? || step.Mark? || step.SweepMark? || step.MarkFail? || step.SweepMarkFail?
  }

  predicate IsTableStep(step: Step) {
    step.ExpireOld? || step.DropReleased? || step.PruneOld? || step.SetBlocked? || step.Tick? || step.ShutdownFlag? ||
      step.CloseChannel?
  }

  function TextStep(step: Step): G.Step
    requires IsTextStep(step)
  {
    if step.SendOk? || step.ResendOk? then G.Send
    else if step.Mark? || step.SweepMark? then G.Mark
    else G.LoseMark
  }

  ghost function SeesCommit(v: View, s: Sys, step: Step, s': Sys): Option<G.Step>
    requires step.Commit?
  {
    When(CommitsFor(s, step, v.sub), G.Ingest(v.asks(s.commits), HeldFor(s', step.t, v.sub)))
  }

  ghost function SeesSettle(v: View, s: Sys, step: Step, s': Sys): Option<G.Step>
    requires step.Settle?
  {
    if HeldFor(s, step.t, v.sub) && HandAt(s, step.t).Missed?
    then Some(AfterMiss(s, s', HandAt(s, step.t), step.ok))
    else None
  }

  /** What the submission sees of a step, the clearing of its fingerprint apart. */
  ghost function Sees(v: View, s: Sys, step: Step, s': Sys): Option<G.Step> {
    if step.Commit? then SeesCommit(v, s, step, s')
    else if step.Settle? then SeesSettle(v, s, step, s')
    else if step.Crash? then Some(G.Crash)
    else if step.Reread? then When(HeldFor(s', step.t, v.sub), G.TakeUp)
    else if IsTextStep(step) then When(HeldFor(s, step.t, v.sub), TextStep(step))
    else if IsTableStep(step) then When(Expires(s, s', v.sub), G.Expire)
    else if IsQuietIngest(step) || IsQuietWork(step) then When(LetsGo(s, s', step.t, v.sub), G.GiveUp)
    else None
  }

  /** A sender that releases its claim has cleared the fingerprint, or never will. */
  ghost function Seen(v: View, s: Sys, step: Step, s': Sys): Option<G.Step> {
    if v.grave && ReleasesFor(s, step, v.sub) then Some(G.Clear(false)) else Sees(v, s, step, s')
  }

  /** The check of the ingest: a reply is committed only when its fingerprint is not the stored one. */
  predicate Passes(v: View, s: Sys, step: Step) {
    CommitsFor(s, step, v.sub) ==> v.fp(v.asks(s.commits)) != Stored(v)
  }

  function Later(v: View, s: Sys, step: Step): View {
    if CommitsFor(s, step, v.sub) then v.(prev := Some(s.commits))
    else if BuriesFor(s, step, v.sub) then v.(grave := true)
    else if step.Crash? || ReleasesFor(s, step, v.sub) then v.(grave := false)
    else v
  }

  // ---- steps while nothing is buried ----

  lemma QuietIngest(s: Sys, step: Step, s': Sys)
    requires Next(s, step, s') && IsQuietIngest(step)
    ensures Quiet(s, s', step.t)
  {
    match step
    case IngestClaim(t, sub) => ClaimShape(s, t, sub, s');
    case CommitFail(t) => CommitFailShape(s, t, s');
    case SkipOnline(t) => SkipShape(s, t, s');
    case Release(t) => ReleaseShape(s, t, s');
    case EnterEnqueue(t) => EnterShape(s, t, s');
    case CountJob(t) => CountShape(s, t, s');
    case PutJob(t) => PutShape(s, t, s');
  }

  lemma QuietWork(s: Sys, step: Step, s': Sys)
    requires Next(s, step, s') && IsQuietWork(step)
    ensures Quiet(s, s', step.t)
  {
    match step
    case SendFail(t) => SendFailShape(s, t, s');
    case Finish(t) => FinishShape(s, t, s');
    case Leave(t) => LeaveShape(s, t, s');
    case SweepEnd(t) => SweepEndShape(s, t, s');
    case SweepSkip(t) => SweepSkipShape(s, t, s');
    case SweepClaim(t) => SweepClaimShape(s, t, s');
    case SweepRelease(t) => SweepReleaseShape(s, t, s');
  }

  lemma QuietStepSim(v: View, s: Sys, step: Step, s': Sys, g: G.Gate)
    requires Sim(v, s, g) && Provenance(s) && Ownership(s) && Next(s, step, s')
    requires IsQuietIngest(step) || IsQuietWork(step)
    ensures Follows(v, g, When(LetsGo(s, s', step.t, v.sub), G.GiveUp), s')
  {
    if IsQuietIngest(step) {
      QuietIngest(s, step, s');
    } else {
      QuietWork(s, step, s');
    }
    QuietSim(v, s, s', step.t, g);
  }

  lemma RereadSim(v: View, s: Sys, s': Sys, t: ActId, ok: bool, g: G.Gate)
    requires Sim(v, s, g) && Provenance(s) && Ownership(s) && DoReread(s, t, ok, s')
    ensures Follows(v, g, When(HeldFor(s', t, v.sub), G.TakeUp), s')
  {
    RereadShape(s, t, ok, s');
    if ok && IsPending(s.rows, s.acts[t].row) {
      ReadSim(v, s, s', t, s.acts[t].row, g);
    } else {
      QuietSim(v, s, s', t, g);
    }
  }

  lemma TextSim(v: View, s: Sys, step: Step, s': Sys, g: G.Gate)
    requires Sim(v, s, g) && Provenance(s) && Ownership(s) && Next(s, step, s') && IsTextStep(step)
    ensures Follows(v, g, When(HeldFor(s, step.t, v.sub), TextStep(step)), s')
  {
    if step.SendOk? || step.ResendOk? {
      SendShapes(s, step.t, s');
      SendSim(v, s, s', step.t, g);
    } else if step.Mark? || step.SweepMark? {
      MarkShapes(s, step.t, s');
      MarkSim(v, s, s', step.t, g);
    } else {
      MarkFailShapes(s, step.t, s');
      LoseMarkSim(v, s, s', step.t, g);
    }
  }

  lemma TableSim(v: View, s: Sys, step: Step, s': Sys, g: G.Gate)
    requires Sim(v, s, g) && Provenance(s) && Next(s, step, s') && IsTableStep(step)
    ensures Follows(v, g, When(Expires(s, s', v.sub), G.Expire), s')
  {
    if step.ExpireOld? || step.DropReleased? || step.PruneOld? {
      ExpiryShapes(s, step, s');
    } else {
      ProcessShapes(s, step, s');
    }
    RetireSim(v, s, s', g);
  }

  lemma CommitSim(v: View, s: Sys, step: Step, s': Sys, g: G.Gate)
    requires Sim(v, s, g) && Provenance(s) && Ownership(s) && Next(s, step, s') && step.Commit? && Passes(v, s, step)
    ensures Follows(if CommitsFor(s, step, v.sub) then v.(prev := Some(s.commits)) else v, g,
                    SeesCommit(v, s, step, s'), s')
  {
    var t, sub := step.t, s.acts[step.t].sub;
    CommitShape(s, t, step.row, step.now, step.notBefore, s');
    if sub == v.sub {
      CommitFor(v, s, s', t, step.row, step.notBefore, g);
    } else {
      CommitOther(v, s, s', t, sub, step.row, step.notBefore, g);
    }
  }

  lemma WorkSim(v: View, s: Sys, step: Step, s': Sys, g: G.Gate)
    requires Sim(v, s, g) && Provenance(s) && Ownership(s) && Next(s, step, s')
    requires step.TakeJob? || step.SweepList? || step.ResendFail?
    ensures Sim(v, s', g)
  {
    if step.TakeJob? {
      TakeShape(s, s');
      QuietSim(v, s, s', s.queue[0], g);
    } else if step.SweepList? {
      ListShape(s, step.t, step.batch, s');
      ListSim(v, s, s', step.t, g);
    } else {
      MissShape(s, step.t, s');
      MissSim(v, s, s', step.t, g);
    }
  }

  lemma MissedSim(v: View, s: Sys, step: Step, s': Sys, g: G.Gate)
    requires Sim(v, s, g) && Provenance(s) && Ownership(s) && Delivery(s) && Next(s, step, s')
    requires step.Settle? && !BuriesFor(s, step, v.sub)
    ensures Follows(v, g, SeesSettle(v, s, step, s'), s')
  {
    SettleShape(s, step.t, step.ok, s');
    SettleSim(v, s, s', step.t, step.ok, g);
  }

  /** The steps that neither commit nor settle. */
  lemma PlainSim(v: View, s: Sys, step: Step, s': Sys, g: G.Gate)
    requires Sim(v, s, g) && Provenance(s) && Ownership(s) && Next(s, step, s')
    requires !step.Commit? && !step.Settle?
    ensures Follows(v, g, Sees(v, s, step, s'), s')
  {
    if step.Crash? {
      CrashSim(v, s, s', g);
    } else if step.Reread? {
      RereadSim(v, s, s', step.t, step.ok, g);
    } else if IsTextStep(step) {
      TextSim(v, s, step, s', g);
    } else if IsTableStep(step) {
      TableSim(v, s, step, s', g);
    } else if IsQuietIngest(step) || IsQuietWork(step) {
      QuietStepSim(v, s, step, s', g);
    } else {
      WorkSim(v, s, step, s', g);
    }
  }

  /** The view after a step that buries nothing, as far as the stored fingerprint goes. */
  function Recorded(v: View, s: Sys, step: Step): View {
    if CommitsFor(s, step, v.sub) then v.(prev := Some(s.commits)) else v
  }

  lemma StepSim(v: View, s: Sys, step: Step, s': Sys, g: G.Gate)
    requires Passes(v, s, step) && !BuriesFor(s, step, v.sub)
    requires Sim(v, s, g) && Provenance(s) && Ownership(s) && Delivery(s) && Next(s, step, s')
    ensures Follows(Recorded(v, s, step), g, Sees(v, s, step, s'), s')
  {
    if step.Commit? {
      CommitSim(v, s, step, s', g);
    } else if step.Settle? {
      MissedSim(v, s, step, s', g);
    } else {
      PlainSim(v, s, step, s', g);
    }
  }

  // ---- a buried reply whose fingerprint is still to be cleared ----

  ghost predicate Undertaken(s: Sys, sub: SubId) {
    exists t :: SettlesFor(s, t, sub)
  }

  /**
  The gate is what the submission sees of s. Between a burial and its clearing the gate's hand is that
  of the activity on its way to the release, which has nothing else in hand.
  */
  ghost predicate Matches(v: View, s: Sys, g: G.Gate) {
    if v.grave
    then G.Holds(g, G.Buried) && Undertaken(s, v.sub) && Sim(v, s, g.(hand := None))
    else Sim(v, s, g)
  }

  lemma SettlerOfCommit(s: Sys, step: Step, s': Sys, t: ActId, sub: SubId)
    requires Next(s, step, s') && SettlesFor(s, t, sub) && step.Commit?
    ensures SettlesFor(s', t, sub)
  {
  }

  lemma SettlerOfClaim(s: Sys, step: Step, s': Sys, t: ActId, sub: SubId)
    requires Next(s, step, s') && SettlesFor(s, t, sub)
    requires step.IngestClaim? || step.CommitFail? || step.SkipOnline? || step.Release?
    ensures SettlesFor(s', t, sub)
  {
  }

  lemma SettlerOfPut(s: Sys, u: ActId, s': Sys, t: ActId, sub: SubId)
    requires DoPutJob(s, u, s') && SettlesFor(s, t, sub)
    ensures SettlesFor(s', t, sub)
  {
  }

  lemma SettlerOfEnqueue(s: Sys, u: ActId, s': Sys, t: ActId, sub: SubId)
    requires (DoEnterEnqueue(s, u, s') || DoCountJob(s, u, s')) && SettlesFor(s, t, sub)
    ensures SettlesFor(s', t, sub)
  {
  }

  lemma SettlerOfWork(s: Sys, step: Step, s': Sys, t: ActId, sub: SubId)
    requires Next(s, step, s') && SettlesFor(s, t, sub) && IsQuietWork(step) && !ReleasesFor(s, step, sub)
    ensures SettlesFor(s', t, sub)
  {
  }

  lemma SettlerOfSends(s: Sys, step: Step, s': Sys, t: ActId, sub: SubId)
    requires Next(s, step, s') && SettlesFor(s, t, sub)
    requires step.TakeJob? || step.SweepList? || step.Reread? || step.ResendFail? || step.Settle? || IsTextStep(step)
    ensures SettlesFor(s', t, sub)
  {
  }

  /** Only its own release or a crash moves such an activity. */
  lemma SettlerStays(s: Sys, step: Step, s': Sys, t: ActId, sub: SubId)
    requires Next(s, step, s') && SettlesFor(s, t, sub) && !step.Crash? && !ReleasesFor(s, step, sub)
    ensures SettlesFor(s', t, sub)
  {
    if step.Commit? {
      SettlerOfCommit(s, step, s', t, sub);
    } else if step.PutJob? {
      SettlerOfPut(s, step.t, s', t, sub);
    } else if step.EnterEnqueue? || step.CountJob? {
      SettlerOfEnqueue(s, step.t, s', t, sub);
    } else if IsQuietIngest(step) {
      SettlerOfClaim(s, step, s', t, sub);
    } else if IsQuietWork(step) {
      SettlerOfWork(s, step, s', t, sub);
    } else if !IsTableStep(step) {
      SettlerOfSends(s, step, s', t, sub);
    }
  }

  /** Meanwhile the submission sees commits that are left to the sweeper, and expiries. */
  predicate IsCalm(move: Option<G.Step>) {
    move.Some? ==> move.value.Expire? || (move.value.Ingest? && !move.value.take)
  }

  lemma NoneHeld(s: Sys, t: ActId, sub: SubId)
    requires Ownership(s) && SettlesFor(s, t, sub)
    ensures forall u :: !HeldFor(s, u, sub)
  {
    forall u ensures !HeldFor(s, u, sub) {
      HandIsOwned(s, u);
      assert OwnsAt(s, t, sub);
      assert HeldFor(s, u, sub) ==> u == t;
    }
  }

  /** No other activity owns the submission. */
  lemma NoneOwns(s: Sys, t: ActId, u: ActId, sub: SubId)
    requires Ownership(s) && SettlesFor(s, t, sub) && u != t
    ensures !OwnsAt(s, u, sub)
  {
    assert OwnsAt(s, t, sub);
  }

  lemma CommitIsLeft(s: Sys, step: Step, s': Sys, t: ActId, sub: SubId)
    requires Ownership(s) && Next(s, step, s') && SettlesFor(s, t, sub) && step.Commit?
    ensures !HeldFor(s', step.t, sub)
  {
    NoneOwns(s, t, step.t, sub);
  }

  lemma RereadIsOther(s: Sys, step: Step, s': Sys, t: ActId, sub: SubId)
    requires Provenance(s) && Ownership(s) && Next(s, step, s') && SettlesFor(s, t, sub) && step.Reread?
    ensures !HeldFor(s', step.t, sub)
  {
    var l := Listed(s.acts[step.t].row, s.acts[step.t].sub);
    NoneOwns(s, t, step.t, sub);
    assert l in RestAt(s, step.t);
    assert ListedSound(s, l);
  }

  lemma NoBurial(s: Sys, step: Step, t: ActId, sub: SubId)
    requires Ownership(s) && SettlesFor(s, t, sub)
    ensures !BuriesFor(s, step, sub)
  {
    NoneHeld(s, t, sub);
    assert BuriesFor(s, step, sub) ==> HeldFor(s, step.t, sub);
  }

  lemma SeesCalm(v: View, s: Sys, step: Step, s': Sys, t: ActId)
    requires Provenance(s) && Ownership(s) && Next(s, step, s') && SettlesFor(s, t, v.sub) && !step.Crash?
    ensures IsCalm(Sees(v, s, step, s'))
  {
    if step.Commit? {
      CommitIsLeft(s, step, s', t, v.sub);
    } else if step.Reread? {
      RereadIsOther(s, step, s', t, v.sub);
    } else {
      NoneHeld(s, t, v.sub);
    }
  }

  /** Such a step does to the gate with the buried hand what it does to the one without. */
  lemma AroundTheGrave(fp: G.Hash, g: G.Gate, move: Option<G.Step>)
    requires G.Holds(g, G.Buried) && IsCalm(move) && Can(g.(hand := None), move)
    ensures Can(g, move) && G.Holds(Do(fp, g, move), G.Buried)
    ensures Do(fp, g, move).(hand := None) == Do(fp, g.(hand := None), move)
  {
  }

  // ---- every step ----

  lemma Burial(s: Sys, t: ActId, ok: bool, s': Sys)
    requires DoSettle(s, t, ok, s')
    ensures Settles(s, s', t, ok) && SettlesFor(s', t, HandAt(s, t).job.sub)
  {
    SettleShape(s, t, ok, s');
  }

  lemma BurialIsSeen(v: View, s: Sys, step: Step, s': Sys)
    requires BuriesFor(s, step, v.sub)
    ensures HeldFor(s, step.t, v.sub) && HandAt(s, step.t).Missed? &&
            FailStatus(HandAt(s, step.t).attempts + 1).Failed?
    ensures Seen(v, s, step, s') == Some(G.Bury(step.ok))
  {
  }

  lemma BuryMatches(v: View, s: Sys, s': Sys, t: ActId, ok: bool, g: G.Gate)
    requires !v.grave && Sim(v, s, g) && Provenance(s) && Ownership(s) && Delivery(s) && Settles(s, s', t, ok)
    requires HeldFor(s, t, v.sub) && FailStatus(HandAt(s, t).attempts + 1).Failed? && SettlesFor(s', t, v.sub)
    ensures G.Enabled(g, G.Bury(ok)) && Matches(v.(grave := true), s', G.Apply(v.fp, g, G.Bury(ok)))
  {
    BuryFor(v, s, s', t, ok, g);
    var g' := G.Apply(v.fp, g, G.Bury(ok)).(hand := None);
    StoredAnew(v, v.(grave := true), s', g', g');
  }

  lemma OpenMatches(v: View, s: Sys, step: Step, s': Sys, g: G.Gate)
    requires !v.grave && Passes(v, s, step) && !BuriesFor(s, step, v.sub)
    requires Sim(v, s, g) && Provenance(s) && Ownership(s) && Delivery(s) && Next(s, step, s')
    ensures Can(g, Seen(v, s, step, s')) && Matches(Later(v, s, step), s', Do(v.fp, g, Seen(v, s, step, s')))
  {
    StepSim(v, s, step, s', g);
    assert Later(v, s, step) == Recorded(v, s, step);
  }

  /** The claim is released, or the process dies, and the fingerprint was not cleared. */
  lemma GraveEnds(v: View, s: Sys, step: Step, s': Sys, g: G.Gate)
    requires v.grave && Matches(v, s, g) && Provenance(s) && Ownership(s) && Next(s, step, s')
    requires step.Crash? || ReleasesFor(s, step, v.sub)
    ensures Can(g, Seen(v, s, step, s')) && Matches(Later(v, s, step), s', Do(v.fp, g, Seen(v, s, step, s')))
  {
    var g0 := g.(hand := None);
    if step.Crash? {
      CrashSim(v, s, s', g0);
    } else {
      NoneHeld(s, step.t, v.sub);
      QuietStepSim(v, s, step, s', g0);
    }
    StoredAnew(v, v.(grave := false), s', g0, g0);
  }

  lemma GraveStays(v: View, s: Sys, step: Step, s': Sys, g: G.Gate)
    requires v.grave && Matches(v, s, g) && Passes(v, s, step)
    requires Provenance(s) && Ownership(s) && Delivery(s) && Next(s, step, s')
    requires !step.Crash? && !ReleasesFor(s, step, v.sub)
    ensures Can(g, Seen(v, s, step, s')) && Matches(Later(v, s, step), s', Do(v.fp, g, Seen(v, s, step, s')))
  {
    var t :| SettlesFor(s, t, v.sub);
    SeesCalm(v, s, step, s', t);
    NoBurial(s, step, t, v.sub);
    SettlerStays(s, step, s', t, v.sub);
    StepSim(v, s, step, s', g.(hand := None));
    AroundTheGrave(v.fp, g, Sees(v, s, step, s'));
    assert Later(v, s, step) == Recorded(v, s, step);
  }

  /** Of every step of the interleaved model a submission sees at most one step of the gate. */
  lemma StepMatches(v: View, s: Sys, step: Step, s': Sys, g: G.Gate)
    requires Matches(v, s, g) && Passes(v, s, step)
    requires Provenance(s) && Ownership(s) && Delivery(s) && Next(s, step, s')
    ensures Can(g, Seen(v, s, step, s')) && Matches(Later(v, s, step), s', Do(v.fp, g, Seen(v, s, step, s')))
  {
    if !v.grave {
      if BuriesFor(s, step, v.sub) {
        BurialIsSeen(v, s, step, s');
        Burial(s, step.t, step.ok, s');
        BuryMatches(v, s, s', step.t, step.ok, g);
      } else {
        OpenMatches(v, s, step, s', g);
      }
    } else if step.Crash? || ReleasesFor(s, step, v.sub) {
      GraveEnds(v, s, step, s', g);
    } else {
      GraveStays(v, s, step, s', g);
    }
  }

  /** The fingerprint of a buried reply is cleared. */
  lemma ClearMatches(v: View, s: Sys, g: G.Gate)
    requires v.grave && Matches(v, s, g)
    ensures G.Enabled(g, G.Clear(true))
    ensures Matches(v.(prev := None, grave := false), s, G.Apply(v.fp, g, G.Clear(true)))
  {
    StoredAnew(v, v.(prev := None, grave := false), s, g.(hand := None), G.Apply(v.fp, g, G.Clear(true)));
  }

  // ---- every run ----

  predicate ClearsBefore(v: View, n: nat) {
    v.grave && v.clears(n)
  }

  function Cleared(v: View, n: nat): View {
    if ClearsBefore(v, n) then v.(prev := None, grave := false) else v
  }

  /** The view after the first n steps. */
  function ViewAt(v: View, states: seq<Sys>, steps: seq<Step>, n: nat): View
    requires n <= |steps| && |states| == |steps| + 1
  {
    if n == 0 then v
    else Later(Cleared(ViewAt(v, states, steps, n - 1), n - 1), states[n - 1], steps[n - 1])
  }

  /** And as step n finds it. */
  function ViewBefore(v: View, states: seq<Sys>, steps: seq<Step>, n: nat): View
    requires n < |steps| && |states| == |steps| + 1
  {
    Cleared(ViewAt(v, states, steps, n), n)
  }

  /** A view of a new submission whose every commit passes the check of the ingest. */
  predicate AllPass(v: View, states: seq<Sys>, steps: seq<Step>)
    requires |states| == |steps| + 1
  {
    v.prev.None? && !v.grave &&
    forall n :: 0 <= n < |steps| ==> Passes(ViewBefore(v, states, steps, n), states[n], steps[n])
  }

  predicate AsksAreClean(v: View, states: seq<Sys>, steps: seq<Step>)
    requires |states| == |steps| + 1
  {
    forall n :: 0 <= n < |steps| ==> CommitsFor(states[n], steps[n], v.sub) ==> Clean(v.asks(states[n].commits))
  }

  function AsSteps(move: Option<G.Step>): seq<G.Step> {
    if move.Some? then [move.value] else []
  }

  /** What the submission sees of step n, and of a clearing just before it. */
  ghost function Glimpse(w: View, s: Sys, step: Step, s': Sys, n: nat): seq<G.Step> {
    AsSteps(When(ClearsBefore(w, n), G.Clear(true))) + AsSteps(Seen(Cleared(w, n), s, step, s'))
  }

  ghost function GlimpseAt(v: View, states: seq<Sys>, steps: seq<Step>, n: nat): seq<G.Step>
    requires n < |steps| && |states| == |steps| + 1
  {
    Glimpse(ViewAt(v, states, steps, n), states[n], steps[n], states[n + 1], n)
  }

  ghost function Glimpses(v: View, states: seq<Sys>, steps: seq<Step>): nat -> seq<G.Step>
    requires |states| == |steps| + 1
  {
    (i: nat) => if i < |steps| then GlimpseAt(v, states, steps, i) else []
  }

  function Joined(pieces: nat -> seq<G.Step>, n: nat): seq<G.Step> {
    if n == 0 then [] else Joined(pieces, n - 1) + pieces(n - 1)
  }

  /** What the submission sees of the first n steps. */
  ghost function GateAt(v: View, states: seq<Sys>, steps: seq<Step>, n: nat): seq<G.Step>
    requires n <= |steps| && |states| == |steps| + 1
  {
    Joined(Glimpses(v, states, steps), n)
  }

  lemma Extend(fp: G.Hash, gate: seq<G.Step>, move: Option<G.Step>)
    requires G.CanRun(fp, gate) && Can(G.RunTo(fp, gate), move)
    ensures G.CanRun(fp, gate + AsSteps(move)) && G.RunTo(fp, gate + AsSteps(move)) == Do(fp, G.RunTo(fp, gate), move)
  {
    if move.Some? {
      G.OneMore(fp, gate, move.value);
    } else {
      assert gate + [] == gate;
    }
  }

  lemma StartSim(v: View, s: Sys)
    requires Init(s) && v.prev.None?
    ensures Sim(v, s, G.NEW_GATE)
  {
  }

  lemma TextsAt(states: seq<Sys>, steps: seq<Step>, i: nat)
    requires IsRun(states, steps) && i < |states|
    ensures Provenance(states[i]) && Ownership(states[i]) && Delivery(states[i])
  {
    InvAt(states, steps, i);
  }

  lemma {:induction false} SameView(v: View, states: seq<Sys>, steps: seq<Step>, n: nat)
    requires n <= |steps| && |states| == |steps| + 1
    ensures Elsewhen(v, ViewAt(v, states, steps, n))
  {
    if n > 0 {
      SameView(v, states, steps, n - 1);
    }
  }

  lemma ExtendCleared(fp: G.Hash, gate: seq<G.Step>, g: G.Gate, move: Option<G.Step>)
    requires G.CanRun(fp, gate) && G.Enabled(G.RunTo(fp, gate), G.Clear(true))
    requires g == G.Apply(fp, G.RunTo(fp, gate), G.Clear(true)) && Can(g, move)
    ensures G.CanRun(fp, gate + ([G.Clear(true)] + AsSteps(move)))
    ensures G.RunTo(fp, gate + ([G.Clear(true)] + AsSteps(move))) == Do(fp, g, move)
  {
    G.OneMore(fp, gate, G.Clear(true));
    Extend(fp, gate + [G.Clear(true)], move);
    assert gate + [G.Clear(true)] + AsSteps(move) == gate + ([G.Clear(true)] + AsSteps(move));
  }

  lemma OneStepMore(w: View, s: Sys, step: Step, s': Sys, gate: seq<G.Step>, n: nat)
    requires G.CanRun(w.fp, gate) && Matches(w, s, G.RunTo(w.fp, gate)) && Passes(Cleared(w, n), s, step)
    requires Provenance(s) && Ownership(s) && Delivery(s) && Next(s, step, s')
    ensures var gate' := gate + Glimpse(w, s, step, s', n);
      G.CanRun(w.fp, gate') && Matches(Later(Cleared(w, n), s, step), s', G.RunTo(w.fp, gate'))
  {
    var g, move := G.RunTo(w.fp, gate), Seen(Cleared(w, n), s, step, s');
    if ClearsBefore(w, n) {
      ClearMatches(w, s, g);
      var g' := G.Apply(w.fp, g, G.Clear(true));
      StepMatches(Cleared(w, n), s, step, s', g');
      ExtendCleared(w.fp, gate, g', move);
    } else {
      StepMatches(w, s, step, s', g);
      Extend(w.fp, gate, move);
      assert [] + AsSteps(move) == AsSteps(move);
    }
  }

  lemma NextMatches(v: View, states: seq<Sys>, steps: seq<Step>, n: nat)
    requires IsRun(states, steps) && AllPass(v, states, steps) && n < |steps|
    requires G.CanRun(v.fp, GateAt(v, states, steps, n))
    requires Matches(ViewAt(v, states, steps, n), states[n], G.RunTo(v.fp, GateAt(v, states, steps, n)))
    ensures G.CanRun(v.fp, GateAt(v, states, steps, n + 1))
    ensures Matches(ViewAt(v, states, steps, n + 1), states[n + 1], G.RunTo(v.fp, GateAt(v, states, steps, n + 1)))
  {
    SameView(v, states, steps, n);
    TextsAt(states, steps, n);
    assert Passes(ViewBefore(v, states, steps, n), states[n], steps[n]);
    OneStepMore(ViewAt(v, states, steps, n), states[n], steps[n], states[n + 1], GateAt(v, states, steps, n), n);
  }

  lemma {:induction false} RunMatches(v: View, states: seq<Sys>, steps: seq<Step>, n: nat)
    requires IsRun(states, steps) && AllPass(v, states, steps) && n <= |steps|
    ensures G.CanRun(v.fp, GateAt(v, states, steps, n))
    ensures Matches(ViewAt(v, states, steps, n), states[n], G.RunTo(v.fp, GateAt(v, states, steps, n)))
  {
    if n == 0 {
      StartSim(v, states[0]);
    } else {
      RunMatches(v, states, steps, n - 1);
      NextMatches(v, states, steps, n - 1);
    }
  }

  /** What the gate's fields are of the outbox. */
  lemma MatchedFields(v: View, w: View, s: Sys, g: G.Gate)
    requires Elsewhen(v, w) && Matches(w, s, g)
    ensures g.delivered == Asked(v, LogOf(s.log, v.sub)) && g.last == Stored(w)
    ensures g.slot.Some? <==> HasPending(s.rows, v.sub)
    ensures forall id :: PendingFor(s.rows, v.sub, id) ==> g.slot == Some(v.asks(s.rows[id].reply))
  {
    assert Asked(w, LogOf(s.log, v.sub)) == Asked(v, LogOf(s.log, v.sub));
    assert SlotSim(w, s.rows, g.slot);
    if HasPending(s.rows, v.sub) {
      var id :| id in s.rows && s.rows[id].status.Pending? && s.rows[id].sub == v.sub;
      assert PendingFor(s.rows, w.sub, id);
    }
  }

  /**
  In every run, what a submission sees of the first n steps is a run of the gate, and after it the
  gate has delivered the texts that the submission's log has, holds the waiting text and stores the
  fingerprint of the outbox.
  */
  lemma OutboxIsGate(v: View, states: seq<Sys>, steps: seq<Step>, n: nat)
    requires IsRun(states, steps) && AllPass(v, states, steps) && n <= |steps|
    ensures G.CanRun(v.fp, GateAt(v, states, steps, n))
    ensures var s, g := states[n], G.RunTo(v.fp, GateAt(v, states, steps, n));
      && g.delivered == Asked(v, LogOf(s.log, v.sub))
      && g.last == Stored(ViewAt(v, states, steps, n))
      && (g.slot.Some? <==> HasPending(s.rows, v.sub))
      && forall id :: PendingFor(s.rows, v.sub, id) ==> g.slot == Some(v.asks(s.rows[id].reply))
  {
    RunMatches(v, states, steps, n);
    SameView(v, states, steps, n);
    MatchedFields(v, ViewAt(v, states, steps, n), states[n], G.RunTo(v.fp, GateAt(v, states, steps, n)));
  }

  // ---- the laws of the gate, of the outbox ----

  /** The gate is asked what the outbox commits, and nothing else. */
  lemma SeenAsk(v: View, s: Sys, step: Step, s': Sys)
    requires Seen(v, s, step, s').Some? && Seen(v, s, step, s').value.Ingest?
    ensures CommitsFor(s, step, v.sub) && Seen(v, s, step, s').value.ask == v.asks(s.commits)
  {
  }

  lemma GlimpseIsClean(w: View, s: Sys, step: Step, s': Sys, n: nat)
    requires CommitsFor(s, step, w.sub) ==> Clean(w.asks(s.commits))
    ensures G.AllClean(Glimpse(w, s, step, s', n))
  {
    var move := Seen(Cleared(w, n), s, step, s');
    if move.Some? && move.value.Ingest? {
      SeenAsk(Cleared(w, n), s, step, s');
    }
  }

  lemma AskAtIsClean(v: View, states: seq<Sys>, steps: seq<Step>, n: nat)
    requires |states| == |steps| + 1 && n < |steps| && AsksAreClean(v, states, steps)
    ensures var w := ViewAt(v, states, steps, n);
      CommitsFor(states[n], steps[n], w.sub) ==> Clean(w.asks(states[n].commits))
  {
    SameView(v, states, steps, n);
  }

  lemma GlimpseAtIsClean(v: View, states: seq<Sys>, steps: seq<Step>, n: nat)
    requires |states| == |steps| + 1 && n < |steps| && AsksAreClean(v, states, steps)
    ensures G.AllClean(GlimpseAt(v, states, steps, n))
  {
    AskAtIsClean(v, states, steps, n);
    GlimpseIsClean(ViewAt(v, states, steps, n), states[n], steps[n], states[n + 1], n);
  }

  lemma {:induction false} JoinedIsClean(pieces: nat -> seq<G.Step>, n: nat)
    requires forall i: nat :: i < n ==> G.AllClean(pieces(i))
    ensures G.AllClean(Joined(pieces, n))
    decreases n
  {
    if n > 0 {
      JoinedIsClean(pieces, n - 1);
      assert G.AllClean(pieces(n - 1));
    }
  }

  lemma GateIsClean(v: View, states: seq<Sys>, steps: seq<Step>, n: nat)
    requires |states| == |steps| + 1 && n <= |steps| && AsksAreClean(v, states, steps)
    ensures G.AllClean(GateAt(v, states, steps, n))
  {
    forall i: nat | i < n ensures G.AllClean(GlimpseAt(v, states, steps, i)) {
      GlimpseAtIsClean(v, states, steps, i);
    }
    JoinedIsClean(Glimpses(v, states, steps), n);
  }

  /**
  In every run each delivery to the submission asks what was latest when its text was taken up: at
  its own commit on the online path, at the re-read by the sweeper.
  */
  lemma DeliveriesAreTakenUp(v: View, states: seq<Sys>, steps: seq<Step>)
    requires IsRun(states, steps) && AllPass(v, states, steps)
    requires G.TellsApart(v.fp) && AsksAreClean(v, states, steps)
    ensures var log, taken := LogOf(states[|steps|].log, v.sub), G.TakenUp(GateAt(v, states, steps, |steps|));
      |log| == |taken| && forall k :: 0 <= k < |log| ==> SameAsk(v.asks(log[k]), taken[k])
  {
    var n, log := |steps|, LogOf(states[|steps|].log, v.sub);
    OutboxIsGate(v, states, steps, n);
    GateIsClean(v, states, steps, n);
    G.DeliveredIsTakenUp(v.fp, GateAt(v, states, steps, n));
    assert forall k :: 0 <= k < |log| ==> Asked(v, log)[k] == v.asks(log[k]);
  }

  /** So the broker gets the same request twice in a row exactly when the same ask was latest at the two take-ups. */
  lemma BrokerAskedTwiceIff(v: View, states: seq<Sys>, steps: seq<Step>, k: nat)
    requires IsRun(states, steps) && AllPass(v, states, steps)
    requires G.TellsApart(v.fp) && AsksAreClean(v, states, steps)
    requires k + 1 < |LogOf(states[|steps|].log, v.sub)|
    ensures k + 1 < |G.TakenUp(GateAt(v, states, steps, |steps|))|
    ensures var log, taken := LogOf(states[|steps|].log, v.sub), G.TakenUp(GateAt(v, states, steps, |steps|));
      SameAsk(v.asks(log[k]), v.asks(log[k + 1])) <==> SameAsk(taken[k], taken[k + 1])
  {
    DeliveriesAreTakenUp(v, states, steps);
  }

  /**
  In every run the submission has a pending row exactly when, of what it sees, something new was
  committed or an expired row written back, and since then it has not expired, no text taken up after
  it was marked and its row was not buried. The row's text is the latest new ask.
  */
  lemma RowWaitsIff(v: View, states: seq<Sys>, steps: seq<Step>)
    requires IsRun(states, steps) && AllPass(v, states, steps)
    requires G.TellsApart(v.fp) && AsksAreClean(v, states, steps)
    ensures var rows, gate := states[|steps|].rows, GateAt(v, states, steps, |steps|);
      && (HasPending(rows, v.sub) <==> G.Waits(gate))
      && forall id :: PendingFor(rows, v.sub, id) ==> G.Alike(Some(v.asks(rows[id].reply)), G.Latest(gate))
  {
    var n := |steps|;
    OutboxIsGate(v, states, steps, n);
    GateIsClean(v, states, steps, n);
    G.WaitingIff(v.fp, GateAt(v, states, steps, n));
  }
}
