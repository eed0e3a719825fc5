/**
The outbox repository as an object whose statements change its rows in place, and the
dispatch claims and job queue of internal/service/submissions.go as the fields they are.
*/
module OutboxStore {
  import opened OutboxTable
  import opened DispatchModel
  import opened DispatchPool
  import opened DispatchRuns

  /** No row but this one changes, comes or goes. */
  ghost predicate OthersSame(before: Table, after: Table, id: RowId) {
    forall other :: other != id ==>
      (other in after <==> other in before) && (other in before ==> after[other] == before[other])
  }

  class Outbox {
    var rows: Table

    /** The partial unique index holds. */
    ghost predicate Valid()
      reads this
    {
      OnePending(rows)
    }

    constructor ()
      ensures Valid() && rows == map[]
    {
      rows := map[];
    }

    /** Inserts a pending row, or overwrites the submission's pending one and returns its id. */
    method Insert(uuid: RowId, sub: SubId, reply: nat, now: int, notBefore: int) returns (id: RowId)
      requires Valid() && uuid !in rows
      modifies this
      ensures Valid()
      ensures IsUpsertTarget(old(rows), sub, uuid, id) && rows == Upsert(old(rows), id, sub, reply, now, notBefore)
      ensures id in rows && if id in old(rows) then
        && old(rows)[id].status.Pending? && old(rows)[id].sub == sub
        && rows[id] == old(rows)[id].(reply := reply, notBefore := notBefore, updatedAt := now)
      else
        && id == uuid && !HasPending(old(rows), sub)
        && rows[id] == Row(sub, reply, Pending, 0, now, now, notBefore)
      ensures OthersSame(old(rows), rows, id)
    {
      if HasPending(rows, sub) {
        id :| id in rows && rows[id].status.Pending? && rows[id].sub == sub;
        UpsertKeepsRows(rows, id, sub, uuid, reply, now, notBefore);
        rows := rows[id := rows[id].(reply := reply, notBefore := notBefore, updatedAt := now)];
      } else {
        id := uuid;
        UpsertKeepsRows(rows, id, sub, uuid, reply, now, notBefore);
        rows := rows[id := Row(sub, reply, Pending, 0, now, now, notBefore)];
      }
    }

    /** Settles a row only while it is pending at the version that was read. */
    method MarkSent(id: RowId, version: int, now: int)
      requires Valid()
      modifies this
      ensures Valid() && rows == OutboxTable.MarkSent(old(rows), id, version, now)
      ensures OthersSame(old(rows), rows, id) && (id in rows <==> id in old(rows))
      ensures id in rows ==> var row := old(rows)[id];
        rows[id] == if row.status.Pending? && row.updatedAt == version
                    then row.(status := Sent, updatedAt := now) else row
    {
      if id in rows && rows[id].status.Pending? && rows[id].updatedAt == version {
        rows := rows[id := rows[id].(status := Sent, updatedAt := now)];
      }
      SettlingKeepsOnePending(old(rows), rows);
    }

    /** Not guarded by status or version; refused only by the unique index. */
    method Update(id: RowId, status: Status, attempts: nat, now: int) returns (ok: bool)
      requires Valid()
      modifies this
      ensures Valid() && rows == OutboxTable.Update(old(rows), id, status, attempts, now)
      ensures ok <==> !UpdateConflicts(old(rows), id, status)
      ensures OthersSame(old(rows), rows, id) && (id in rows <==> id in old(rows))
      ensures id in rows ==> var row := old(rows)[id];
        rows[id] == if ok then row.(status := status, attempts := attempts, updatedAt := now) else row
    {
      UpdateKeepsOnePending(rows, id, status, attempts, now);
      if UpdateConflicts(rows, id, status) {
        return false;
      }
      if id in rows {
        rows := rows[id := rows[id].(status := status, attempts := attempts, updatedAt := now)];
      }
      return true;
    }

    /** Fails the pending rows created before the cutoff. */
    method ExpirePending(cutoff: int, now: int)
      requires Valid()
      modifies this
      ensures Valid() && rows == OutboxTable.ExpirePending(old(rows), cutoff, now)
      ensures rows.Keys == old(rows).Keys
      ensures forall id :: id in rows ==> var row := old(rows)[id];
        rows[id] == if row.status.Pending? && row.createdAt < cutoff
                    then row.(status := Failed, updatedAt := now) else row
    {
      rows := OutboxTable.ExpirePending(rows, cutoff, now);
      SettlingKeepsOnePending(old(rows), rows);
    }

    /** Deletes settled rows; a pending one survives any cutoff. */
    method Prune(cutoff: int)
      requires Valid()
      modifies this
      ensures Valid() && rows == OutboxTable.Prune(old(rows), cutoff)
      ensures forall id :: id in rows <==>
        id in old(rows) && (old(rows)[id].status.Pending? || old(rows)[id].createdAt >= cutoff)
      ensures forall id :: id in rows ==> rows[id] == old(rows)[id]
    {
      rows := OutboxTable.Prune(rows, cutoff);
      SettlingKeepsOnePending(old(rows), rows);
    }
  }

  class Dispatcher {
    var dispatching: set<SubId>
    var queue: seq<Job>
    var closed: bool
    var inFlight: nat

    constructor ()
      ensures dispatching == {} && queue == [] && !closed && inFlight == 0
    {
      dispatching, queue, closed, inFlight := {}, [], false, 0;
    }

    /** Succeeds for exactly one of any number of callers until the claim is released. */
    method ClaimDispatch(sub: SubId) returns (held: bool)
      modifies this`dispatching
      ensures held <==> sub !in old(dispatching)
      ensures dispatching == old(dispatching) + {sub}
    {
      if sub in dispatching {
        return false;
      }
      dispatching := dispatching + {sub};
      return true;
    }

    method ReleaseDispatch(sub: SubId)
      modifies this`dispatching
      ensures dispatching == old(dispatching) - {sub}
    {
      dispatching := dispatching - {sub};
    }

    /** Hands a job over unless the pool is closed or full; then nothing is left counted. */
    method EnqueueReply(job: Job) returns (ok: bool)
      modifies this`queue, this`inFlight
      ensures ok <==> !closed && |old(queue)| < 64
      ensures queue == if ok then old(queue) + [job] else old(queue)
      ensures inFlight == old(inFlight) + if ok then 1 else 0
    {
      if closed {
        return false;
      }
      inFlight := inFlight + 1;
      if |queue| < QUEUE_SIZE {
        queue := queue + [job];
        return true;
      }
      inFlight := inFlight - 1;
      return false;
    }
  }

  // ---- the object's methods as steps of the interleaved model ----

  predicate Accepts(closed: bool, queue: seq<Job>) {
    !closed && |queue| < QUEUE_SIZE
  }

  function JobAt(s: Sys, t: ActId): Job {
    if t in s.acts && s.acts[t].Queued? then s.acts[t].job else Job(0, 0, 0, 0)
  }

  /** The jobs in the channel. */
  function Jobs(s: Sys): seq<Job> {
    seq(|s.queue|, i requires 0 <= i < |s.queue| => JobAt(s, s.queue[i]))
  }

  /** What EnqueueReply promises, said of two states of the model. */
  ghost predicate Enqueues(s: Sys, s': Sys, t: ActId, job: Job) {
    && Jobs(s') == (if Accepts(s.closed, Jobs(s)) then Jobs(s) + [job] else Jobs(s))
    && s'.inFlight == s.inFlight + (if Accepts(s.closed, Jobs(s)) then 1 else 0)
    && t in s'.acts && s'.acts[t] == (if Accepts(s.closed, Jobs(s)) then Queued(job) else Releasing(job.sub))
    && s'.dispatching == s.dispatching && s'.rows == s.rows && s'.closed == s.closed
  }

  lemma QueuedJobs(s: Sys, s': Sys, t: ActId, job: Job)
    requires QueueSound(s.acts, s.queue) && t in s.acts && !s.acts[t].Queued?
    requires s'.acts == s.acts[t := Queued(job)] && s'.queue == s.queue + [t]
    ensures Jobs(s') == Jobs(s) + [job]
  {
    assert t !in s.queue;
  }

  lemma SameJobs(s: Sys, s': Sys, t: ActId, a: Activity)
    requires QueueSound(s.acts, s.queue) && t in s.acts && !s.acts[t].Queued? && !a.Queued?
    requires s'.acts == s.acts[t := a] && s'.queue == s.queue
    ensures Jobs(s') == Jobs(s)
  {
    assert t !in s.queue;
  }

  /** EnqueueReply is EnterEnqueue, CountJob and PutJob in a row, or EnterEnqueue alone once the pool is closed. */
  lemma EnqueueIsSteps(s: Sys, t: ActId) returns (states: seq<Sys>, steps: seq<Step>)
    requires Pool(s) && t in s.acts && s.acts[t].Committed? && s.acts[t].due
    ensures steps == if s.closed then [EnterEnqueue(t)] else [EnterEnqueue(t), CountJob(t), PutJob(t)]
    ensures IsPath(states, steps) && states[0] == s && Enqueues(s, states[|steps|], t, s.acts[t].job)
  {
    var job := s.acts[t].job;
    if s.closed {
      var s' := s.(acts := s.acts[t := Releasing(job.sub)]);
      SameJobs(s, s', t, Releasing(job.sub));
      states, steps := [s, s'], [EnterEnqueue(t)];
    } else {
      var s1 := s.(acts := s.acts[t := Enqueueing(job)]);
      var s2 := s1.(acts := s1.acts[t := Counted(job)], inFlight := s1.inFlight + 1);
      var s3 := PutStep(s, s2, t, job);
      EnterPool(s, t, s1);
      CountPool(s1, t, s2);
      states, steps := [s, s1, s2, s3], [EnterEnqueue(t), CountJob(t), PutJob(t)];
      assert Next(s, EnterEnqueue(t), s1) && Next(s1, CountJob(t), s2);
    }
  }

  lemma PutStep(s: Sys, s2: Sys, t: ActId, job: Job) returns (s3: Sys)
    requires Pool(s) && !s.closed && t in s.acts && !s.acts[t].Queued? && !FlyingAt(s.acts, t)
    requires s2 == s.(acts := s.acts[t := Counted(job)], inFlight := s.inFlight + 1)
    ensures Next(s2, PutJob(t), s3) && Enqueues(s, s3, t, job)
  {
    if |s.queue| < QUEUE_SIZE {
      s3 := s2.(acts := s2.acts[t := Queued(job)], queue := s2.queue + [t]);
      assert s3.acts == s.acts[t := Queued(job)];
      QueuedJobs(s, s3, t, job);
    } else {
      s3 := s2.(acts := s2.acts[t := Releasing(job.sub)], inFlight := s.inFlight);
      assert s3.acts == s.acts[t := Releasing(job.sub)];
      SameJobs(s, s3, t, Releasing(job.sub));
    }
  }
}
