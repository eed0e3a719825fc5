/**
The daily spend cap of internal/infrastructure/llm/anthropic.go over the table of
internal/repository/llm_spend.go: callers check the day's total, call the model, and add
the estimated cost afterwards, with nothing held in between.

Money is counted in a smallest unit; days are numbered. A cap of zero switches the check off.
*/
module SpendCap {

  type Day = nat
  type Money = nat

  function TotalOn(table: map<Day, Money>, day: Day): Money {
    if day in table then table[day] else 0
  }

  function AddTo(table: map<Day, Money>, day: Day, usd: Money): map<Day, Money> {
    table[day := TotalOn(table, day) + usd]
  }

  /** LLMSpendRepository: one row a day, inserted or added to. */
  class SpendTable {
    var days: map<Day, Money>

    constructor ()
      ensures days == map[]
    {
      days := map[];
    }

    method Today(today: Day) returns (usd: Money)
      ensures usd == TotalOn(days, today)
      ensures usd == if today in days then days[today] else 0
    {
      if today in days {
        usd := days[today];
      } else {
        usd := 0;
      }
    }

    method Add(today: Day, usd: Money)
      modifies this
      ensures days == AddTo(old(days), today, usd)
      ensures days.Keys == old(days).Keys + {today}
      ensures days[today] == usd + if today in old(days) then old(days)[today] else 0
      ensures forall day :: day in old(days) && day != today ==> days[day] == old(days)[day]
    {
      if today in days {
        days := days[today := days[today] + usd];
      } else {
        days := days[today := usd];
      }
    }
  }

  /** The cap, how many callers there are, and the most one call can be estimated at. */
  datatype Limits = Limits(cap: Money, callers: nat, perCall: Money)

  /** `recorded` is the table; `incurred` what the calls cost; `faults` counts the failing reads and writes. */
  datatype Ledger = Ledger(day: Day, recorded: map<Day, Money>, incurred: map<Day, Money>, inFlight: nat, faults: nat)

  const OPENING := Ledger(0, map[], map[], 0, 0)

  datatype Step =
    | Admit                   // the day's total is below the cap
    | AdmitUnread             // the total could not be read: the check fails open
    | Settle(cost: Money)     // the call ends and its cost is added
    | Unsettled(cost: Money)  // the call ends and its cost is not added
    | NextDay

  predicate Admitted(p: Limits, total: Money) {
    p.cap == 0 || total < p.cap
  }

  predicate Enabled(p: Limits, s: Ledger, step: Step) {
    match step
    case Admit => s.inFlight < p.callers && Admitted(p, TotalOn(s.recorded, s.day))
    case AdmitUnread => s.inFlight < p.callers
    case Settle(cost) => s.inFlight > 0 && cost <= p.perCall
    case Unsettled(cost) => s.inFlight > 0 && cost <= p.perCall
    case NextDay => true
  }

  function Apply(s: Ledger, step: Step): Ledger {
    match step
    case Admit => s.(inFlight := s.inFlight + 1)
    case AdmitUnread => s.(inFlight := s.inFlight + 1, faults := s.faults + 1)
    case Settle(cost) =>
      var flying: nat := if s.inFlight > 0 then s.inFlight - 1 else 0;
      s.(recorded := AddTo(s.recorded, s.day, cost), incurred := AddTo(s.incurred, s.day, cost), inFlight := flying)
    case Unsettled(cost) =>
      var flying: nat := if s.inFlight > 0 then s.inFlight - 1 else 0;
      s.(incurred := AddTo(s.incurred, s.day, cost), inFlight := flying, faults := s.faults + 1)
    case NextDay => s.(day := s.day + 1)
  }

  predicate CanRun(p: Limits, s: Ledger, steps: seq<Step>)
    decreases |steps|
  {
    |steps| == 0 || (Enabled(p, s, steps[0]) && CanRun(p, Apply(s, steps[0]), steps[1..]))
  }

  function RunTo(s: Ledger, steps: seq<Step>): Ledger
    decreases |steps|
  {
    if |steps| == 0 then s else RunTo(Apply(s, steps[0]), steps[1..])
  }

  // ---- the bound ----

  /** What may still be added on the current day: a cost for each caller not in a call, and one for each fault. */
  function Slack(p: Limits, s: Ledger): int {
    (p.callers - s.inFlight + s.faults) * p.perCall
  }

  ghost predicate Within(p: Limits, s: Ledger) {
    && s.inFlight <= p.callers
    && TotalOn(s.recorded, s.day) <= TotalOn(s.incurred, s.day) < p.cap + Slack(p, s)
    && (TotalOn(s.incurred, s.day) - TotalOn(s.recorded, s.day)) <= s.faults * p.perCall
    && (forall d :: d > s.day ==> TotalOn(s.recorded, d) == 0)
    && (forall d :: d > s.day ==> TotalOn(s.incurred, d) == 0)
    && (forall d :: TotalOn(s.incurred, d) < p.cap + (p.callers + s.faults) * p.perCall)
    && (forall d :: TotalOn(s.recorded, d) <= TotalOn(s.incurred, d))
  }

  lemma Times(a: int, b: int, c: int)
    requires a <= b && c >= 0
    ensures a * c <= b * c
  {
  }

  lemma OneMore(a: int, c: int)
    ensures (a + 1) * c == a * c + c
  {
  }

  lemma AdmitKeeps(p: Limits, s: Ledger, step: Step)
    requires p.cap > 0 && Within(p, s) && (step.Admit? || step.AdmitUnread?) && Enabled(p, s, step)
    ensures Within(p, Apply(s, step))
  {
    var s' := Apply(s, step);
    if step.Admit? {
      assert s'.faults == s.faults;
      Times(s.faults, p.callers - s'.inFlight + s.faults, p.perCall);
    } else {
      assert Slack(p, s') == Slack(p, s);
      OneMore(s.faults, p.perCall);
      OneMore(p.callers + s.faults, p.perCall);
    }
  }

  lemma SettleKeeps(p: Limits, s: Ledger, step: Step)
    requires p.cap > 0 && Within(p, s) && (step.Settle? || step.Unsettled?) && Enabled(p, s, step)
    ensures Within(p, Apply(s, step))
  {
    var s' := Apply(s, step);
    assert forall d :: d != s.day ==> TotalOn(s'.recorded, d) == TotalOn(s.recorded, d);
    assert forall d :: d != s.day ==> TotalOn(s'.incurred, d) == TotalOn(s.incurred, d);
    OneMore(p.callers - s.inFlight + s.faults, p.perCall);
    OneMore(p.callers + s.faults, p.perCall);
    OneMore(s.faults, p.perCall);
    Times(p.callers - s'.inFlight + s'.faults, p.callers + s'.faults, p.perCall);
    if step.Settle? {
      assert Slack(p, s') == Slack(p, s) + p.perCall;
    } else {
      OneMore(p.callers - s.inFlight + s.faults + 1, p.perCall);
      assert Slack(p, s') == Slack(p, s) + 2 * p.perCall;
    }
  }

  lemma StepKeeps(p: Limits, s: Ledger, step: Step)
    requires p.cap > 0 && Within(p, s) && Enabled(p, s, step)
    ensures Within(p, Apply(s, step))
  {
    match step
    case Admit => AdmitKeeps(p, s, step);
    case AdmitUnread => AdmitKeeps(p, s, step);
    case Settle(cost) => SettleKeeps(p, s, step);
    case Unsettled(cost) => SettleKeeps(p, s, step);
    case NextDay =>
      Times(0, p.callers - s.inFlight + s.faults, p.perCall);
      Times(0, s.faults, p.perCall);
  }

  lemma {:induction false} RunKeeps(p: Limits, s: Ledger, steps: seq<Step>)
    requires p.cap > 0 && Within(p, s) && CanRun(p, s, steps)
    ensures Within(p, RunTo(s, steps))
    decreases |steps|
  {
    if |steps| > 0 {
      StepKeeps(p, s, steps[0]);
      RunKeeps(p, Apply(s, steps[0]), steps[1..]);
    }
  }

  /**
  Over every run, calls that start on one day and end on another included, no day costs
  the cap plus one call for each caller and each fault, or more; nor is more recorded than it cost.
  */
  lemma OvershootIsBounded(p: Limits, steps: seq<Step>, d: Day)
    requires p.cap > 0 && CanRun(p, OPENING, steps)
    ensures var end := RunTo(OPENING, steps);
      TotalOn(end.recorded, d) <= TotalOn(end.incurred, d) < p.cap + (p.callers + end.faults) * p.perCall
  {
    Times(0, p.callers, p.perCall);
    assert Within(p, OPENING);
    RunKeeps(p, OPENING, steps);
  }

  function CostOf(step: Step, all: bool): Money {
    if step.Settle? || (all && step.Unsettled?) then step.cost else 0
  }

  /** What the calls that end on day d cost, the current day being `day`; without `all`, only where it was added. */
  function Costs(steps: seq<Step>, day: Day, d: Day, all: bool): Money
    decreases |steps|
  {
    if |steps| == 0 then 0
    else (if day == d then CostOf(steps[0], all) else 0)
         + Costs(steps[1..], if steps[0].NextDay? then day + 1 else day, d, all)
  }

  /** In every run a day's row holds what was added on it, and a day costs what the calls that end on it cost. */
  lemma {:induction false} TotalsAreSums(p: Limits, s: Ledger, steps: seq<Step>, d: Day)
    requires CanRun(p, s, steps)
    ensures TotalOn(RunTo(s, steps).recorded, d) == TotalOn(s.recorded, d) + Costs(steps, s.day, d, false)
    ensures TotalOn(RunTo(s, steps).incurred, d) == TotalOn(s.incurred, d) + Costs(steps, s.day, d, true)
    decreases |steps|
  {
    if |steps| > 0 {
      TotalsAreSums(p, Apply(s, steps[0]), steps[1..], d);
    }
  }

  /** In every run a total that could be read admits a call only while it is below the cap. */
  lemma {:induction false} AdmittedBelowCap(p: Limits, s: Ledger, steps: seq<Step>, n: nat)
    requires p.cap > 0 && CanRun(p, s, steps) && n <= |steps|
    ensures n < |steps| && steps[n].Admit? ==> TotalOn(RunTo(s, steps[..n]).recorded, RunTo(s, steps[..n]).day) < p.cap
    decreases n
  {
    if n > 0 {
      AdmittedBelowCap(p, Apply(s, steps[0]), steps[1..], n - 1);
      assert steps[..n][1..] == steps[1..][..n - 1];
    }
  }

  /** A total that could not be read never keeps a call back, while a caller is free. */
  lemma FailsOpen(p: Limits, steps: seq<Step>)
    requires CanRun(p, OPENING, steps) && RunTo(OPENING, steps).inFlight < p.callers
    ensures CanRun(p, OPENING, steps + [AdmitUnread])
  {
    assert [AdmitUnread][1..] == [];
    RunOn(p, OPENING, steps, [AdmitUnread]);
  }

  // ---- and it is the least bound ----

  lemma {:induction false} RunOn(p: Limits, s: Ledger, a: seq<Step>, b: seq<Step>)
    requires CanRun(p, s, a) && CanRun(p, RunTo(s, a), b)
    ensures CanRun(p, s, a + b) && RunTo(s, a + b) == RunTo(RunTo(s, a), b)
    decreases |a|
  {
    if |a| == 0 {
      assert a + b == b;
    } else {
      assert (a + b)[1..] == a[1..] + b;
      RunOn(p, Apply(s, a[0]), a[1..], b);
    }
  }

  function Spent(total: Money, inFlight: nat): Ledger {
    Ledger(0, map[0 := total], map[0 := total], inFlight, 0)
  }

  /** One caller after another, one unit each. */
  lemma {:induction false} SpendSingly(p: Limits, total: Money) returns (steps: seq<Step>)
    requires p.callers > 0 && p.perCall > 0 && total < p.cap
    ensures CanRun(p, OPENING, steps) && RunTo(OPENING, steps) == Spent(total, 0)
  {
    if total == 0 {
      steps := [Admit, Settle(0)];
      assert steps[1..] == [Settle(0)] && steps[1..][1..] == [];
    } else {
      var before := SpendSingly(p, total - 1);
      var last := [Admit, Settle(1)];
      assert last[1..] == [Settle(1)] && last[1..][1..] == [];
      assert RunTo(Spent(total - 1, 0), last) == Spent(total, 0);
      RunOn(p, OPENING, before, last);
      steps := before + last;
    }
  }

  lemma {:induction false} AdmitMany(p: Limits, total: Money, n: nat) returns (steps: seq<Step>)
    requires total < p.cap && n <= p.callers
    ensures CanRun(p, Spent(total, 0), steps) && RunTo(Spent(total, 0), steps) == Spent(total, n)
  {
    if n == 0 {
      steps := [];
    } else {
      var before := AdmitMany(p, total, n - 1);
      assert [Admit][1..] == [];
      RunOn(p, Spent(total, 0), before, [Admit]);
      steps := before + [Admit];
    }
  }

  lemma {:induction false} SettleMany(p: Limits, total: Money, n: nat) returns (steps: seq<Step>)
    requires n <= p.callers
    ensures CanRun(p, Spent(total, n), steps) && RunTo(Spent(total, n), steps) == Spent(total + n * p.perCall, 0)
    decreases n
  {
    if n == 0 {
      steps := [];
    } else {
      var rest := SettleMany(p, total + p.perCall, n - 1);
      steps := [Settle(p.perCall)] + rest;
      assert steps[1..] == rest;
      assert Apply(Spent(total, n), steps[0]) == Spent(total + p.perCall, n - 1);
      OneMore(n - 1, p.perCall);
    }
  }

  /** Whatever the limits, some run without a fault costs one unit less than the bound: the cap is not a hard limit. */
  lemma BoundIsReached(p: Limits) returns (steps: seq<Step>)
    requires p.cap > 0 && p.callers > 0 && p.perCall > 0
    ensures CanRun(p, OPENING, steps)
    ensures var end := RunTo(OPENING, steps);
      end.faults == 0 && TotalOn(end.incurred, 0) == p.cap + p.callers * p.perCall - 1
  {
    var first := SpendSingly(p, p.cap - 1);
    var second := AdmitMany(p, p.cap - 1, p.callers);
    var third := SettleMany(p, p.cap - 1, p.callers);
    RunOn(p, OPENING, first, second);
    RunOn(p, OPENING, first + second, third);
    steps := first + second + third;
  }

  /** A cap of zero is no cap: without a fault a day may cost any amount. */
  lemma {:induction false} NoCapNoLimit(p: Limits, total: Money) returns (steps: seq<Step>)
    requires p.cap == 0 && p.callers > 0 && p.perCall > 0
    ensures CanRun(p, OPENING, steps) && RunTo(OPENING, steps) == Spent(total, 0)
  {
    if total == 0 {
      steps := [Admit, Settle(0)];
      assert steps[1..] == [Settle(0)] && steps[1..][1..] == [];
    } else {
      var before := NoCapNoLimit(p, total - 1);
      var last := [Admit, Settle(1)];
      assert last[1..] == [Settle(1)] && last[1..][1..] == [];
      assert RunTo(Spent(total - 1, 0), last) == Spent(total, 0);
      RunOn(p, OPENING, before, last);
      steps := before + last;
    }
  }
}
