/**
One submission through any run: inbound mail of every kind, bounces, holds, escalations,
closures and reopenings, at a clock that does not go back.
*/
module EscalationRuns {
  import opened Checklist
  import opened Lifecycle
  import opened Sweeps
  import opened SweepLaws

  /** An escalation: when, and the quiet threshold the submission had then. */
  datatype Nudge = Nudge(at: Time, threshold: int)

  datatype World = World(now: Time, c: Case, nudges: seq<Nudge>)

  datatype Step =
    | Wait(span: nat)
    // automated mail does not mark an action; mail merged in by content always does
    | Mail(mark: bool, missing: seq<MissingItem>, policyType: string, effectiveDate: Option<Time>)
    | Bounce(failed: bool)
    | Hold(on: bool)
    | Escalation
    | Closure

  predicate Enabled(cfg: Config, w: World, step: Step) {
    match step
    case Escalation => QuietDue(cfg, w.now, w.c) || BindDue(cfg, w.now, w.c)
    case Closure => w.c.stamps.state != Closed
    case _ => true
  }

  function Apply(cfg: Config, w: World, step: Step): World {
    match step
    case Wait(span) => w.(now := w.now + span)
    case Mail(mark, missing, policyType, effectiveDate) =>
      w.(c := Ingested(w.c, w.now, mark, missing).(policyType := policyType, effectiveDate := effectiveDate))
    case Bounce(failed) => w.(c := w.c.(deliveryFailed := failed))
    case Hold(on) => w.(c := w.c.(onHold := on))
    case Escalation => w.(c := Nudged(w.c, w.now), nudges := w.nudges + [Nudge(w.now, Threshold(cfg, w.c))])
    case Closure => w.(c := Shut(w.c, w.now))
  }

  predicate CanRun(cfg: Config, w: World, steps: seq<Step>)
    decreases |steps|
  {
    |steps| == 0 || (Enabled(cfg, w, steps[0]) && CanRun(cfg, Apply(cfg, w, steps[0]), steps[1..]))
  }

  function RunTo(cfg: Config, w: World, steps: seq<Step>): World
    decreases |steps|
  {
    if |steps| == 0 then w else RunTo(cfg, Apply(cfg, w, steps[0]), steps[1..])
  }

  /** A submission as it is created. */
  predicate IsNew(w: World) {
    w.c.stamps == Stamps(Open, w.now, w.now, None, None) && w.c.lastEscalatedAt.None? && w.nudges == []
  }

  predicate Spaced(cfg: Config, nudges: seq<Nudge>) {
    forall i :: 0 <= i < |nudges| - 1 ==>
      nudges[i + 1].at - nudges[i].at >= Min(cfg.minGap, nudges[i + 1].threshold)
  }

  /** The last escalation is on record, no later than the last action, no later than now. */
  predicate Consistent(cfg: Config, w: World) {
    && Dated(w.c.stamps)
    && w.c.stamps.lastActionAt <= w.now
    && w.c.lastEscalatedAt == (if |w.nudges| == 0 then None else Some(w.nudges[|w.nudges| - 1].at))
    && (w.c.lastEscalatedAt.Some? ==> w.c.lastEscalatedAt.value <= w.c.stamps.lastActionAt)
    && Spaced(cfg, w.nudges)
  }

  lemma SpacedOn(cfg: Config, nudges: seq<Nudge>, next: Nudge)
    requires Spaced(cfg, nudges)
    requires |nudges| > 0 ==> next.at - nudges[|nudges| - 1].at >= Min(cfg.minGap, next.threshold)
    ensures Spaced(cfg, nudges + [next])
  {
  }

  lemma StepKeeps(cfg: Config, w: World, step: Step)
    requires Consistent(cfg, w) && Enabled(cfg, w, step)
    ensures Consistent(cfg, Apply(cfg, w, step))
  {
    if step.Escalation? {
      SpacedOn(cfg, w.nudges, Nudge(w.now, Threshold(cfg, w.c)));
    }
  }

  lemma {:induction false} RunKeeps(cfg: Config, w: World, steps: seq<Step>)
    requires Consistent(cfg, w) && CanRun(cfg, w, steps)
    ensures Consistent(cfg, RunTo(cfg, w, steps))
    decreases |steps|
  {
    if |steps| > 0 {
      StepKeeps(cfg, w, steps[0]);
      RunKeeps(cfg, Apply(cfg, w, steps[0]), steps[1..]);
    }
  }

  /**
  In every run, two consecutive escalations are at least the minimum gap or the quiet
  threshold apart, whichever is less.
  */
  lemma EscalationsAreSpaced(cfg: Config, w: World, steps: seq<Step>, i: nat)
    requires IsNew(w) && CanRun(cfg, w, steps) && i + 1 < |RunTo(cfg, w, steps).nudges|
    ensures var nudges := RunTo(cfg, w, steps).nudges;
      nudges[i + 1].at - nudges[i].at >= Min(cfg.minGap, nudges[i + 1].threshold)
  {
    RunKeeps(cfg, w, steps);
  }

  /**
  And every submission reached is dated as the closures need it: an escalated one when it last acted,
  a complete one at all.
  */
  lemma ReachableAreDated(cfg: Config, w: World, steps: seq<Step>)
    requires IsNew(w) && CanRun(cfg, w, steps)
    ensures Dated(RunTo(cfg, w, steps).c.stamps)
  {
    RunKeeps(cfg, w, steps);
  }

  /** What a tick of CheckEscalations does to a row is such a step. */
  lemma TickIsAStep(cfg: Config, now: Time, rows: Table, rows': Table, id: Id, nudges: seq<Nudge>)
    requires EscalationTick(cfg, now, rows, rows') && id in rows && rows'[id] != rows[id]
    ensures var w := World(now, rows[id], nudges);
      Enabled(cfg, w, Escalation) && rows'[id] == Apply(cfg, w, Escalation).c
  {
  }
}
