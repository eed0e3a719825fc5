/**
The bound of DispatchRuns on repeated deliveries cannot be improved: one fault between a send
and its mark does cost one repeat.
*/
module DispatchWitness {
  import opened OutboxTable
  import opened DispatchModel
  import opened DispatchDelivery
  import opened DispatchRuns

  const START := Sys(0, 0, map[], {}, map[], [], false, false, false, 0, {}, map[], map[], map[], map[])

  const JOB := Job(7, 0, 0, 0)
  const ROWS: Table := map[0 := Row(7, 0, Pending, 0, 0, 0, 0)]

  // an ingest of submission 7 queues text 0 and a worker sends it, up to the mark-sent
  const S1 := START.(acts := map[0 := Claimed(7, true)], dispatching := {7})
  const S2 := S1.(rows := ROWS, clock := 1, commits := 1, acts := map[0 := Committed(JOB, true)])
  const S3 := S2.(acts := map[0 := Enqueueing(JOB)])
  const S4 := S3.(acts := map[0 := Counted(JOB)], inFlight := 1)
  const S5 := S4.(acts := map[0 := Queued(JOB)], queue := [0])
  const S6 := S5.(acts := map[0 := Sending(JOB)], queue := [])
  const S7 := S6.(acts := map[0 := Marking(JOB)], log := map[7 := [0]])
  // the process dies before the mark, restarts, and its first sweep sends the row again
  const S8 := S7.(dispatching := {}, acts := map[], inFlight := 0, unmarked := map[7 := 1])
  const S9 := S8.(acts := map[0 := Sweeping([Listed(0, 7)], {})])
  const S10 := S9.(acts := map[0 := Rereading(0, 7, [], {})], dispatching := {7})
  const S11 := S10.(acts := map[0 := Redelivering(JOB, 0, [], {})])
  const S12 := S11.(acts := map[0 := SweepMarking(JOB, [], {})], log := map[7 := [0, 0]])

  const STATES := [START, S1, S2, S3, S4, S5, S6, S7, S8, S9, S10, S11, S12]
  const STEPS := [IngestClaim(0, 7), Commit(0, 0, 0, 0), EnterEnqueue(0), CountJob(0), PutJob(0), TakeJob, SendOk(0),
                  Crash, SweepList(0, [0]), SweepClaim(0), Reread(0, true), ResendOk(0)]

  lemma ClaimAndCommit()
    ensures Next(START, IngestClaim(0, 7), S1) && Next(S1, Commit(0, 0, 0, 0), S2)
  {
  }

  lemma Enqueue()
    ensures Next(S2, EnterEnqueue(0), S3) && Next(S3, CountJob(0), S4)
  {
  }

  lemma PutAndTake()
    ensures Next(S4, PutJob(0), S5) && Next(S5, TakeJob, S6)
  {
  }

  lemma SendOnce()
    ensures Next(S6, SendOk(0), S7)
  {
    assert [] + [0] == [0];
    assert Delivered(S6, JOB) == map[7 := [0]];
  }

  lemma CrashUnmarked()
    ensures Next(S7, Crash, S8)
  {
    assert S7.acts[0].job.sub == 7;
    assert AwaitingMark(S7.acts) == {7} && AwaitingWrite(S7.acts) == {};
    assert Raised(map[], {7}) == map[7 := 1];
    assert Raised(map[], {}) == map[];
  }

  lemma ListAndClaim()
    ensures Next(S8, SweepList(0, [0]), S9) && Next(S9, SweepClaim(0), S10)
  {
    assert Listing(S8.rows, [0]) == [Listed(0, 7)];
    assert [Listed(0, 7)][1..] == [];
  }

  lemma RereadAgain()
    ensures Next(S10, Reread(0, true), S11)
  {
  }

  lemma Resend()
    ensures Next(S11, ResendOk(0), S12)
  {
    assert [0] + [0] == [0, 0];
    assert Delivered(S11, JOB) == map[7 := [0, 0]];
  }

  lemma FirstSteps(i: nat)
    requires i < 4
    ensures Next(STATES[i], STEPS[i], STATES[i + 1])
  {
    ClaimAndCommit();
    Enqueue();
  }

  lemma QueueSteps(i: nat)
    requires 4 <= i < 6
    ensures Next(STATES[i], STEPS[i], STATES[i + 1])
  {
    PutAndTake();
  }

  lemma CrashSteps(i: nat)
    requires 6 <= i < 8
    ensures Next(STATES[i], STEPS[i], STATES[i + 1])
  {
    if i == 6 {
      SendOnce();
    } else {
      CrashUnmarked();
    }
  }

  lemma SweepSteps(i: nat)
    requires 8 <= i < 10
    ensures Next(STATES[i], STEPS[i], STATES[i + 1])
  {
    ListAndClaim();
  }

  lemma ResendSteps(i: nat)
    requires 10 <= i < 12
    ensures Next(STATES[i], STEPS[i], STATES[i + 1])
  {
    RereadAgain();
    Resend();
  }

  lemma EachStep(i: nat)
    requires i < 12
    ensures Next(STATES[i], STEPS[i], STATES[i + 1])
  {
    if i < 4 {
      FirstSteps(i);
    } else if i < 6 {
      QueueSteps(i);
    } else if i < 8 {
      CrashSteps(i);
    } else if i < 10 {
      SweepSteps(i);
    } else {
      ResendSteps(i);
    }
  }

  /** A crash between the send and its mark makes the broker receive the same reply twice. */
  lemma CrashCanRepeat()
    ensures IsRun(STATES, STEPS) && Strikes(STATES, STEPS, 7, 12) == 1
    ensures Repeats(LogOf(STATES[12].log, 7)) == 1
  {
    forall i | 0 <= i < |STEPS| ensures Next(STATES[i], STEPS[i], STATES[i + 1]) {
      EachStep(i);
    }
    CountsAt(STATES, STEPS, 7, 12);
  }
}
