/**
Two runs of the interleaved model, every commit of which passes the check of the ingest, and in which
the broker gets the same request twice in a row.
*/
module OutboxWitness {
  import opened Checklist
  import opened Decisions
  import opened DispatchModel
  import opened DispatchRuns
  import opened Fingerprint
  import opened OutboxGate
  import opened OutboxRuns
  import opened OutboxTable
  import G = ReplyGate
  import W = DispatchWitness

  // ---- commits of one submission ----

  /** The submission's commits ask for a and b in turn. */
  function InTurn(fp: G.Hash, a: Ask, b: Ask): View {
    View(7, fp, n => if n % 2 == 0 then a else b, n => false, None, false)
  }

  /** A step of a run in which all commits are submission 7's and no reply is given up for dead. */
  ghost predicate Proceeds(s: Sys, step: Step, s': Sys) {
    && Next(s, step, s') && !step.Settle?
    && (step.Commit? ==> CommitsFor(s, step, 7)) && s'.commits == s.commits + (if step.Commit? then 1 else 0)
  }

  ghost predicate AllProceed(states: seq<Sys>, steps: seq<Step>) {
    |states| == |steps| + 1 && forall i :: 0 <= i < |steps| ==> Proceeds(states[i], steps[i], states[i + 1])
  }

  function LastOf(commits: nat): Option<nat> {
    if commits == 0 then None else Some(commits - 1)
  }

  lemma StoresAnew(v: View, s: Sys, step: Step, s': Sys, n: nat)
    requires v.sub == 7 && !v.grave && v.prev == LastOf(s.commits) && Proceeds(s, step, s')
    ensures Later(Cleared(v, n), s, step) == v.(prev := LastOf(s'.commits))
  {
  }

  lemma {:induction false} StoresTheLast(v: View, states: seq<Sys>, steps: seq<Step>, n: nat)
    requires AllProceed(states, steps) && n <= |steps| && v.sub == 7 && !v.grave && v.prev == LastOf(states[0].commits)
    ensures ViewAt(v, states, steps, n) == v.(prev := LastOf(states[n].commits))
    decreases n
  {
    if n > 0 {
      StoresTheLast(v, states, steps, n - 1);
      StoresAnew(ViewAt(v, states, steps, n - 1), states[n - 1], steps[n - 1], states[n], n - 1);
    }
  }

  lemma TurnPasses(fp: G.Hash, a: Ask, b: Ask, s: Sys, step: Step)
    requires fp(a) != fp(b) && fp(a) != ""
    ensures Passes(InTurn(fp, a, b).(prev := LastOf(s.commits)), s, step)
  {
  }

  lemma TurnsPass(fp: G.Hash, a: Ask, b: Ask, states: seq<Sys>, steps: seq<Step>)
    requires AllProceed(states, steps) && states[0].commits == 0 && fp(a) != fp(b) && fp(a) != ""
    ensures AllPass(InTurn(fp, a, b), states, steps)
  {
    var v := InTurn(fp, a, b);
    forall n | 0 <= n < |steps| ensures Passes(ViewBefore(v, states, steps, n), states[n], steps[n]) {
      StoresTheLast(v, states, steps, n);
      TurnPasses(fp, a, b, states[n], steps[n]);
    }
  }

  // ---- the sweeper sends the row's text ----

  /** No activity, nothing claimed or queued, and the first reply delivered. */
  function Resting(clock: int, commits: nat, rows: Table): Sys {
    Sys(clock, commits, rows, {}, map[], [], false, false, false, 0, {}, map[7 := [0]], map[], map[], map[])
  }

  function Swept(s: Sys, id: RowId): Sys {
    s.(acts := map[0 := Sweeping([Listed(id, 7)], {})])
  }

  function Claiming(s: Sys, id: RowId): Sys {
    s.(acts := map[0 := Rereading(id, 7, [], {})], dispatching := {7})
  }

  function Holding(s: Sys, job: Job): Sys {
    s.(acts := map[0 := Redelivering(job, 0, [], {})], dispatching := {7})
  }

  function SentAgain(s: Sys, job: Job): Sys {
    s.(acts := map[0 := SweepMarking(job, [], {})], dispatching := {7}, log := map[7 := [0, 2]])
  }

  predicate Waiting(s: Sys, job: Job) {
    && s == Resting(s.clock, s.commits, s.rows) && job.row in s.rows
    && s.rows[job.row] == Row(7, 2, Pending, 0, s.rows[job.row].createdAt, job.version, s.rows[job.row].notBefore)
    && s.rows[job.row].notBefore <= s.clock && job.sub == 7 && job.reply == 2
  }

  lemma SweepLists(s: Sys, job: Job)
    requires Waiting(s, job)
    ensures Proceeds(s, SweepList(0, [job.row]), Swept(s, job.row))
  {
    assert Listing(s.rows, [job.row]) == [Listed(job.row, 7)];
  }

  lemma SweepClaims(s: Sys, job: Job)
    requires Waiting(s, job)
    ensures Proceeds(Swept(s, job.row), SweepClaim(0), Claiming(s, job.row))
  {
    assert [Listed(job.row, 7)][1..] == [];
  }

  lemma SweepRereads(s: Sys, job: Job)
    requires Waiting(s, job)
    ensures Proceeds(Claiming(s, job.row), Reread(0, true), Holding(s, job))
  {
  }

  lemma SweepSends(s: Sys, job: Job)
    requires Waiting(s, job)
    ensures Proceeds(Holding(s, job), ResendOk(0), SentAgain(s, job))
  {
    assert [0] + [2] == [0, 2];
    assert Delivered(Holding(s, job), job) == map[7 := [0, 2]];
  }

  // ---- the first reply on its way ----

  lemma ClaimFirst()
    ensures Proceeds(W.START, IngestClaim(0, 7), W.S1)
    ensures Proceeds(W.S1, Commit(0, 0, 0, 0), W.S2)
  {
    W.ClaimAndCommit();
  }

  lemma EnqueueFirst()
    ensures Proceeds(W.S2, EnterEnqueue(0), W.S3)
    ensures Proceeds(W.S3, CountJob(0), W.S4)
  {
    W.Enqueue();
  }

  lemma TakeFirst()
    ensures Proceeds(W.S4, PutJob(0), W.S5)
    ensures Proceeds(W.S5, TakeJob, W.S6)
  {
    W.PutAndTake();
  }

  lemma SendFirst()
    ensures Proceeds(W.S6, SendOk(0), W.S7)
  {
    W.SendOnce();
  }

  // ---- run A: a request is sent, and asked again after another one ----

  const DONE := Row(7, 0, Sent, 0, 0, 1, 0)

  // the worker marks the first reply and is done
  const A8 := W.S7.(rows := map[0 := DONE], clock := 2, acts := map[0 := Finishing(7)])
  const A9 := A8.(acts := map[0 := Leaving], dispatching := {})
  const A10 := Resting(2, 1, map[0 := DONE])
  // a second reply is queued for later
  const A11 := A10.(acts := map[0 := Claimed(7, true)], dispatching := {7})
  const A12 := A11.(rows := map[0 := DONE, 1 := Row(7, 1, Pending, 0, 2, 2, 3)], clock := 3, commits := 2,
                    acts := map[0 := Committed(Job(7, 1, 1, 2), false)])
  const A13 := A12.(acts := map[0 := Releasing(7)])
  const A14 := Resting(3, 2, map[0 := DONE, 1 := Row(7, 1, Pending, 0, 2, 2, 3)])
  // a third one overwrites it
  const A15 := A14.(acts := map[0 := Claimed(7, true)], dispatching := {7})
  const A16 := A15.(rows := map[0 := DONE, 1 := Row(7, 2, Pending, 0, 2, 3, 4)], clock := 4, commits := 3,
                    acts := map[0 := Committed(Job(7, 1, 2, 3), false)])
  const A17 := A16.(acts := map[0 := Releasing(7)])
  const A18 := Resting(4, 3, map[0 := DONE, 1 := Row(7, 2, Pending, 0, 2, 3, 4)])
  // the sweeper sends that
  const A_JOB := Job(7, 1, 2, 3)

  const A_STATES := [W.START, W.S1, W.S2, W.S3, W.S4, W.S5, W.S6, W.S7, A8, A9, A10, A11, A12, A13, A14, A15, A16,
                     A17, A18, Swept(A18, 1), Claiming(A18, 1), Holding(A18, A_JOB), SentAgain(A18, A_JOB)]
  const A_STEPS := [IngestClaim(0, 7), Commit(0, 0, 0, 0), EnterEnqueue(0), CountJob(0), PutJob(0), TakeJob,
                    SendOk(0), Mark(0), Finish(0), Leave(0),
                    IngestClaim(0, 7), Commit(0, 1, 2, 3), SkipOnline(0), Release(0),
                    IngestClaim(0, 7), Commit(0, 1, 3, 4), SkipOnline(0), Release(0),
                    SweepList(0, [1]), SweepClaim(0), Reread(0, true), ResendOk(0)]

  lemma MarkFirst()
    ensures Proceeds(W.S7, Mark(0), A8)
    ensures Proceeds(A8, Finish(0), A9)
  {
  }

  lemma LeaveFirst()
    ensures Proceeds(A9, Leave(0), A10)
    ensures Proceeds(A10, IngestClaim(0, 7), A11)
  {
  }

  lemma QueueForLater()
    ensures Proceeds(A11, Commit(0, 1, 2, 3), A12)
    ensures Proceeds(A12, SkipOnline(0), A13)
  {
  }

  lemma LeaveForLater()
    ensures Proceeds(A13, Release(0), A14)
    ensures Proceeds(A14, IngestClaim(0, 7), A15)
  {
  }

  lemma QueueOver()
    ensures Proceeds(A15, Commit(0, 1, 3, 4), A16)
  {
    assert IsPending(A15.rows, 1);
  }

  lemma LeaveAgain()
    ensures Proceeds(A16, SkipOnline(0), A17)
    ensures Proceeds(A17, Release(0), A18)
  {
  }

  lemma APart1(i: nat)
    requires 0 <= i < 4
    ensures Proceeds(A_STATES[i], A_STEPS[i], A_STATES[i + 1])
  {
    ClaimFirst();
    EnqueueFirst();
  }

  lemma APart2(i: nat)
    requires 4 <= i < 6
    ensures Proceeds(A_STATES[i], A_STEPS[i], A_STATES[i + 1])
  {
    TakeFirst();
  }

  lemma APart3(i: nat)
    requires 6 <= i < 9
    ensures Proceeds(A_STATES[i], A_STEPS[i], A_STATES[i + 1])
  {
    SendFirst();
    MarkFirst();
  }

  lemma APart4(i: nat)
    requires 9 <= i < 13
    ensures Proceeds(A_STATES[i], A_STEPS[i], A_STATES[i + 1])
  {
    LeaveFirst();
    QueueForLater();
  }

  lemma APart5(i: nat)
    requires 13 <= i < 18
    ensures Proceeds(A_STATES[i], A_STEPS[i], A_STATES[i + 1])
  {
    LeaveForLater();
    QueueOver();
    LeaveAgain();
  }

  lemma APart6(i: nat)
    requires 18 <= i < 20
    ensures Proceeds(A_STATES[i], A_STEPS[i], A_STATES[i + 1])
  {
    SweepLists(A18, A_JOB);
    SweepClaims(A18, A_JOB);
  }

  lemma APart7(i: nat)
    requires 20 <= i < 22
    ensures Proceeds(A_STATES[i], A_STEPS[i], A_STATES[i + 1])
  {
    SweepRereads(A18, A_JOB);
    SweepSends(A18, A_JOB);
  }

  lemma ARun()
    ensures AllProceed(A_STATES, A_STEPS)
  {
    forall i | 0 <= i < |A_STEPS| ensures Proceeds(A_STATES[i], A_STEPS[i], A_STATES[i + 1]) {
      if i < 4 {
        APart1(i);
      } else if i < 6 {
        APart2(i);
      } else if i < 9 {
        APart3(i);
      } else if i < 13 {
        APart4(i);
      } else if i < 18 {
        APart5(i);
      } else if i < 20 {
        APart6(i);
      } else {
        APart7(i);
      }
    }
  }

  // ---- run B: a request is overtaken in the channel, and asked again ----

  // a second reply overwrites the first one's row while that waits for a worker
  const B6 := W.S5.(acts := map[0 := Queued(W.JOB), 1 := Claimed(7, false)])
  const B7 := W.S5.(rows := map[0 := Row(7, 1, Pending, 0, 0, 1, 1)], clock := 2, commits := 2)
  // the worker sends the older text; the mark finds the row changed
  const B8 := B7.(acts := map[0 := Sending(W.JOB)], queue := [])
  const B9 := B8.(acts := map[0 := Marking(W.JOB)], log := map[7 := [0]])
  const B10 := B9.(acts := map[0 := Finishing(7)], clock := 3)
  // a third reply overwrites the row
  const B11 := B10.(acts := map[0 := Finishing(7), 1 := Claimed(7, false)])
  const B12 := B10.(rows := map[0 := Row(7, 2, Pending, 0, 0, 3, 2)], clock := 4, commits := 3)
  const B13 := B12.(acts := map[0 := Leaving], dispatching := {})
  const B14 := Resting(4, 3, map[0 := Row(7, 2, Pending, 0, 0, 3, 2)])
  // the sweeper sends that
  const B_JOB := Job(7, 0, 2, 3)

  const B_STATES := [W.START, W.S1, W.S2, W.S3, W.S4, W.S5, B6, B7, B8, B9, B10, B11, B12, B13, B14,
                     Swept(B14, 0), Claiming(B14, 0), Holding(B14, B_JOB), SentAgain(B14, B_JOB)]
  const B_STEPS := [IngestClaim(0, 7), Commit(0, 0, 0, 0), EnterEnqueue(0), CountJob(0), PutJob(0),
                    IngestClaim(1, 7), Commit(1, 0, 1, 1), TakeJob, SendOk(0), Mark(0),
                    IngestClaim(1, 7), Commit(1, 0, 2, 2), Finish(0), Leave(0),
                    SweepList(0, [0]), SweepClaim(0), Reread(0, true), ResendOk(0)]

  lemma PutFirst()
    ensures Proceeds(W.S4, PutJob(0), W.S5)
  {
    W.PutAndTake();
  }

  lemma ClaimNothing()
    ensures Proceeds(W.S5, IngestClaim(1, 7), B6)
  {
  }

  lemma OverwriteQueued()
    ensures Proceeds(B6, Commit(1, 0, 1, 1), B7)
  {
    assert IsPending(B6.rows, 0);
  }

  lemma TakeOlder()
    ensures Proceeds(B7, TakeJob, B8)
  {
  }

  lemma SendOlder()
    ensures Proceeds(B8, SendOk(0), B9)
    ensures Proceeds(B9, Mark(0), B10)
  {
    assert [] + [0] == [0];
    assert Delivered(B8, W.JOB) == map[7 := [0]];
  }

  lemma ClaimNothingAgain()
    ensures Proceeds(B10, IngestClaim(1, 7), B11)
  {
  }

  lemma OverwriteAgain()
    ensures Proceeds(B11, Commit(1, 0, 2, 2), B12)
  {
    assert IsPending(B11.rows, 0);
  }

  lemma LeaveOlder()
    ensures Proceeds(B12, Finish(0), B13)
    ensures Proceeds(B13, Leave(0), B14)
  {
  }

  lemma BPart1(i: nat)
    requires 0 <= i < 4
    ensures Proceeds(B_STATES[i], B_STEPS[i], B_STATES[i + 1])
  {
    ClaimFirst();
    EnqueueFirst();
  }

  lemma BPart2(i: nat)
    requires 4 <= i < 7
    ensures Proceeds(B_STATES[i], B_STEPS[i], B_STATES[i + 1])
  {
    PutFirst();
    ClaimNothing();
    OverwriteQueued();
  }

  lemma BPart3(i: nat)
    requires 7 <= i < 10
    ensures Proceeds(B_STATES[i], B_STEPS[i], B_STATES[i + 1])
  {
    TakeOlder();
    SendOlder();
  }

  lemma BPart4(i: nat)
    requires 10 <= i < 12
    ensures Proceeds(B_STATES[i], B_STEPS[i], B_STATES[i + 1])
  {
    ClaimNothingAgain();
    OverwriteAgain();
  }

  lemma BPart5(i: nat)
    requires 12 <= i < 14
    ensures Proceeds(B_STATES[i], B_STEPS[i], B_STATES[i + 1])
  {
    LeaveOlder();
  }

  lemma BPart6(i: nat)
    requires 14 <= i < 16
    ensures Proceeds(B_STATES[i], B_STEPS[i], B_STATES[i + 1])
  {
    SweepLists(B14, B_JOB);
    SweepClaims(B14, B_JOB);
  }

  lemma BPart7(i: nat)
    requires 16 <= i < 18
    ensures Proceeds(B_STATES[i], B_STEPS[i], B_STATES[i + 1])
  {
    SweepRereads(B14, B_JOB);
    SweepSends(B14, B_JOB);
  }

  lemma BRun()
    ensures AllProceed(B_STATES, B_STEPS)
  {
    forall i | 0 <= i < |B_STEPS| ensures Proceeds(B_STATES[i], B_STEPS[i], B_STATES[i + 1]) {
      if i < 4 {
        BPart1(i);
      } else if i < 7 {
        BPart2(i);
      } else if i < 10 {
        BPart3(i);
      } else if i < 12 {
        BPart4(i);
      } else if i < 14 {
        BPart5(i);
      } else if i < 16 {
        BPart6(i);
      } else {
        BPart7(i);
      }
    }
  }

  // ---- what the broker gets ----

  /** The broker of submission 7 has got these requests at the end of the run. */
  ghost predicate Gets(v: View, states: seq<Sys>, steps: seq<Step>, asks: seq<Ask>) {
    && IsRun(states, steps) && AllPass(v, states, steps)
    && Asked(v, LogOf(states[|steps|].log, 7)) == asks
  }

  lemma GetsTwice(fp: G.Hash, a: Ask, b: Ask, states: seq<Sys>, steps: seq<Step>)
    requires AllProceed(states, steps) && states[0] == W.START && LogOf(states[|steps|].log, 7) == [0, 2]
    requires fp(a) != fp(b) && fp(a) != ""
    ensures Gets(InTurn(fp, a, b), states, steps, [a, a])
  {
    TurnsPass(fp, a, b, states, steps);
    var asked := Asked(InTurn(fp, a, b), [0, 2]);
    assert asked[0] == a && asked[1] == a;
  }

  /**
  For any two requests: the second is asked after the first was sent, and the first again before that
  goes out.
  */
  lemma AskedAgainBySweeper(fp: G.Hash, a: Ask, b: Ask)
    requires fp(a) != fp(b) && fp(a) != ""
    ensures Gets(InTurn(fp, a, b), A_STATES, A_STEPS, [a, a])
  {
    ARun();
    GetsTwice(fp, a, b, A_STATES, A_STEPS);
  }

  /**
  For any two requests: the second overtakes the first in the channel, which is sent all the same and
  asked again.
  */
  lemma AskedAgainByWorker(fp: G.Hash, a: Ask, b: Ask)
    requires fp(a) != fp(b) && fp(a) != ""
    ensures Gets(InTurn(fp, a, b), B_STATES, B_STEPS, [a, a])
  {
    BRun();
    GetsTwice(fp, a, b, B_STATES, B_STEPS);
  }

  /**
  With the three emails of ReplyGate.SameRequestTwice: in a run of the outbox the broker gets the
  request for the loss runs twice in a row.
  */
  lemma LossRunsTwice(fp: G.Hash, maxAsks: int)
    requires G.TellsApart(fp)
    ensures Evaluated(G.CHECKLISTS, 0.5, G.CREATED, G.PLAIN, G.INCOMPLETE, false)
    ensures Evaluated(G.CHECKLISTS, 0.5, G.INCOMPLETE, G.SPEAKS_OF_ATTACHING, G.INCOMPLETE, false)
    ensures Evaluated(G.CHECKLISTS, 0.5, G.INCOMPLETE, G.PLAIN, G.INCOMPLETE, false)
    ensures Decision(G.INCOMPLETE, maxAsks, G.PLAIN, false) == Some(G.FOR_LOSS_RUNS)
    ensures Decision(G.INCOMPLETE, maxAsks, G.SPEAKS_OF_ATTACHING, false) == Some(G.FOR_ATTACHMENT)
    ensures var a, b := AskOf(G.FOR_LOSS_RUNS), AskOf(G.FOR_ATTACHMENT);
      && Gets(InTurn(fp, a, b), A_STATES, A_STEPS, [a, a])
      && Gets(InTurn(fp, a, b), B_STATES, B_STEPS, [a, a])
  {
    var a, b := AskOf(G.FOR_LOSS_RUNS), AskOf(G.FOR_ATTACHMENT);
    G.SameRequestTwice(fp, maxAsks);
    G.TwoAsks(fp);
    AskedAgainBySweeper(fp, a, b);
    AskedAgainByWorker(fp, a, b);
  }
}
