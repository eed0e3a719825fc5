/**
The worker pool: the in-flight counter counts exactly the jobs that are counted,
queued or running, the channel holds exactly the queued ones, and after Shutdown has
raised its flag nobody is inside enqueueReply, so nothing is sent on a closed channel.
*/
module DispatchPool {
  import opened OutboxTable
  import opened DispatchModel

  predicate IsInFlight(a: Activity) {
    a.Counted? || a.Queued? || a.Sending? || a.Marking? || a.Finishing? || a.Leaving?
  }

  function InFlightSet(acts: map<ActId, Activity>): set<ActId> {
    set t | t in acts && IsInFlight(acts[t])
  }

  predicate InEnqueue(a: Activity) {
    a.Enqueueing? || a.Counted?
  }

  ghost predicate QueueSound(acts: map<ActId, Activity>, queue: seq<ActId>) {
    && (forall i, j :: 0 <= i < j < |queue| ==> queue[i] != queue[j])
    && (forall t :: t in queue <==> t in acts && acts[t].Queued?)
  }

  ghost predicate ShutdownSound(acts: map<ActId, Activity>, closed: bool, channelClosed: bool) {
    && (channelClosed ==> closed)
    && (closed ==> forall t :: t in acts ==> !InEnqueue(acts[t]))
  }

  ghost predicate Pool(s: Sys) {
    && s.inFlight == |InFlightSet(s.acts)|
    && QueueSound(s.acts, s.queue)
    && ShutdownSound(s.acts, s.closed, s.channelClosed)
    && !s.panicked
  }

  /** The two maps agree except at `t`. */
  ghost predicate SameBut(acts: map<ActId, Activity>, acts': map<ActId, Activity>, t: ActId) {
    forall u :: u != t ==> (u in acts' <==> u in acts) && (u in acts ==> acts'[u] == acts[u])
  }

  predicate FlyingAt(acts: map<ActId, Activity>, t: ActId) {
    t in acts && IsInFlight(acts[t])
  }

  lemma CountAt(acts: map<ActId, Activity>, t: ActId)
    ensures |InFlightSet(acts)| == |InFlightSet(acts) - {t}| + (if FlyingAt(acts, t) then 1 else 0)
  {
  }

  lemma SameFlyers(acts: map<ActId, Activity>, acts': map<ActId, Activity>, t: ActId)
    requires SameBut(acts, acts', t)
    ensures InFlightSet(acts') - {t} == InFlightSet(acts) - {t}
  {
  }

  lemma CountChange(acts: map<ActId, Activity>, acts': map<ActId, Activity>, t: ActId)
    requires SameBut(acts, acts', t)
    ensures |InFlightSet(acts')| - (if FlyingAt(acts', t) then 1 else 0) ==
            |InFlightSet(acts)| - (if FlyingAt(acts, t) then 1 else 0)
  {
    CountAt(acts, t);
    CountAt(acts', t);
    SameFlyers(acts, acts', t);
  }

  /** An activity that is counted keeps the counter positive. */
  lemma FlyingIsPositive(acts: map<ActId, Activity>, t: ActId)
    requires FlyingAt(acts, t)
    ensures |InFlightSet(acts)| >= 1
  {
    assert t in InFlightSet(acts);
  }

  /** A step that moves one activity outside the pool, or from one running stage to the next. */
  ghost predicate PoolKeeps(s: Sys, s': Sys, t: ActId) {
    && SameBut(s.acts, s'.acts, t)
    && s'.inFlight == s.inFlight && s'.queue == s.queue && s'.closed == s.closed && s'.channelClosed == s.channelClosed
    && s'.panicked == s.panicked
    && (FlyingAt(s'.acts, t) <==> FlyingAt(s.acts, t))
    && !(t in s.acts && s.acts[t].Queued?) && !(t in s'.acts && (s'.acts[t].Queued? || InEnqueue(s'.acts[t])))
  }

  lemma KeepsPool(s: Sys, s': Sys, t: ActId)
    requires Pool(s) && PoolKeeps(s, s', t)
    ensures Pool(s')
  {
    CountChange(s.acts, s'.acts, t);
  }

  lemma EnterPool(s: Sys, t: ActId, s': Sys)
    requires Pool(s) && DoEnterEnqueue(s, t, s')
    ensures Pool(s')
  {
    CountChange(s.acts, s'.acts, t);
  }

  lemma CountPool(s: Sys, t: ActId, s': Sys)
    requires Pool(s) && DoCountJob(s, t, s')
    ensures Pool(s')
  {
    CountChange(s.acts, s'.acts, t);
  }

  lemma QueueOneMore(acts: map<ActId, Activity>, queue: seq<ActId>, t: ActId, job: Job)
    requires QueueSound(acts, queue) && t in acts && !acts[t].Queued?
    ensures QueueSound(acts[t := Queued(job)], queue + [t])
  {
    assert t !in queue;
    assert forall u :: u in queue + [t] <==> u in queue || u == t;
  }

  lemma QueueUnchanged(acts: map<ActId, Activity>, queue: seq<ActId>, t: ActId, a: Activity)
    requires QueueSound(acts, queue) && t in acts && !acts[t].Queued? && !a.Queued?
    ensures QueueSound(acts[t := a], queue)
  {
  }

  lemma PutPool(s: Sys, t: ActId, s': Sys)
    requires Pool(s) && DoPutJob(s, t, s')
    ensures Pool(s')
  {
    var job := s.acts[t].job;
    FlyingIsPositive(s.acts, t);
    assert !s.channelClosed;
    CountChange(s.acts, s'.acts, t);
    if |s.queue| < QUEUE_SIZE {
      QueueOneMore(s.acts, s.queue, t, job);
    } else {
      QueueUnchanged(s.acts, s.queue, t, Releasing(job.sub));
    }
  }

  lemma TakePool(s: Sys, s': Sys)
    requires Pool(s) && DoTakeJob(s, s')
    ensures Pool(s')
  {
    CountChange(s.acts, s'.acts, s.queue[0]);
    assert s.queue == [s.queue[0]] + s'.queue;
  }

  lemma LeavePool(s: Sys, t: ActId, s': Sys)
    requires Pool(s) && DoLeave(s, t, s')
    ensures Pool(s')
  {
    FlyingIsPositive(s.acts, t);
    CountChange(s.acts, s'.acts, t);
  }

  lemma IngestPool(s: Sys, t: ActId, s': Sys)
    requires Pool(s)
    requires (exists sub :: DoIngestClaim(s, t, sub, s')) || DoCommitFail(s, t, s') || DoSkipOnline(s, t, s') ||
      DoRelease(s, t, s')
    ensures Pool(s')
  {
    KeepsPool(s, s', t);
  }

  lemma CommitPool(s: Sys, t: ActId, row: RowId, now: int, notBefore: int, s': Sys)
    requires Pool(s) && DoCommit(s, t, row, now, notBefore, s')
    ensures Pool(s')
  {
    KeepsPool(s, s', t);
  }

  lemma WorkerPool(s: Sys, t: ActId, s': Sys)
    requires Pool(s)
    requires DoSendOk(s, t, s') || DoSendFail(s, t, s') || DoMark(s, t, s') || DoMarkFail(s, t, s') ||
      DoFinish(s, t, s')
    ensures Pool(s')
  {
    KeepsPool(s, s', t);
  }

  lemma SweepPool(s: Sys, t: ActId, s': Sys)
    requires Pool(s)
    requires (exists batch :: DoSweepList(s, t, batch, s')) || DoSweepEnd(s, t, s') || DoSweepSkip(s, t, s')
    ensures Pool(s')
  {
    KeepsPool(s, s', t);
  }

  lemma SweepClaimPool(s: Sys, t: ActId, s': Sys)
    requires Pool(s) && (DoSweepClaim(s, t, s') || DoSweepRelease(s, t, s'))
    ensures Pool(s')
  {
    KeepsPool(s, s', t);
  }

  lemma ResendPool(s: Sys, t: ActId, s': Sys)
    requires Pool(s)
    requires DoResendOk(s, t, s') || DoResendFail(s, t, s') || DoSweepMark(s, t, s') || DoSweepMarkFail(s, t, s')
    ensures Pool(s')
  {
    KeepsPool(s, s', t);
  }

  lemma SettlePool(s: Sys, t: ActId, ok: bool, s': Sys)
    requires Pool(s) && (DoReread(s, t, ok, s') || DoSettle(s, t, ok, s'))
    ensures Pool(s')
  {
    KeepsPool(s, s', t);
  }

  lemma CrashPool(s: Sys, s': Sys)
    requires DoCrash(s, s') && !s.panicked
    ensures Pool(s')
  {
    assert InFlightSet(s'.acts) == {};
  }

  lemma SamePool(s: Sys, s': Sys)
    requires Pool(s) && s'.acts == s.acts && s'.queue == s.queue && s'.inFlight == s.inFlight
    requires s'.closed == s.closed && s'.channelClosed == s.channelClosed && s'.panicked == s.panicked
    ensures Pool(s')
  {
  }

  lemma ProcessPool(s: Sys, step: Step, s': Sys)
    requires Pool(s) && Next(s, step, s')
    requires step.ExpireOld? || step.DropReleased? || step.PruneOld? || step.SetBlocked? || step.Tick? ||
             step.ShutdownFlag? || step.CloseChannel? || step.Crash?
    ensures Pool(s')
  {
    match step
    case Crash => CrashPool(s, s');
    case ShutdownFlag =>
    case CloseChannel =>
    case _ => SamePool(s, s');
  }
}
