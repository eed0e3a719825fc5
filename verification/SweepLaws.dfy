/** What the sweeps promise: overdue submissions are closed, quiet ones escalated, none too early. */
module SweepLaws {
  import opened Checklist
  import opened Lifecycle
  import opened Sweeps

  ghost predicate DatedTable(rows: Table) {
    forall id :: id in rows ==> Dated(rows[id].stamps)
  }

  lemma SweepsKeepDated(rows: Table, ids: seq<Id>, p: Pass)
    requires DatedTable(rows)
    ensures DatedTable(Swept(rows, ids, p))
  {
  }

  // ---- closures ----

  datatype Class = Finished | Nagged | Stalled

  function Cap(cl: Class): nat {
    if cl == Nagged then ESCALATED_BATCH else SWEEP_BATCH
  }

  function PassCap(pass: Class, cl: Class): nat {
    if cl == pass then Cap(cl) else 0
  }

  /** What the class's window makes overdue: strictly before the bound. */
  function Bound(cl: Class, cfg: Config, now: Time): int {
    match cl
    case Finished => now - cfg.autoClose
    case Nagged => now - cfg.autoClose + 1
    case Stalled => now - cfg.stalledClose
  }

  predicate Overdue(cl: Class, c: Case, bound: int) {
    && !c.onHold
    && match cl
       case Finished => c.stamps.state == Complete && c.stamps.completedAt.Some? && c.stamps.completedAt.value < bound
       case Nagged => c.stamps.state == Escalated && c.stamps.lastActionAt < bound
       case Stalled => (c.stamps.state == Awaiting || c.stamps.state == Open) && c.stamps.lastActionAt < bound
  }

  function OverdueIn(cl: Class, rows: Table, bound: int): set<Id> {
    set id | id in rows && Overdue(cl, rows[id], bound)
  }

  lemma Removed<T>(a: set<T>, b: set<T>)
    ensures |a - b| == |a| - |a * b|
  {
  }

  /** How many of a set remain once a batch has been taken from it. */
  function Remaining(count: nat, cap: nat): nat {
    if count <= cap then 0 else count - cap
  }

  /** What a batch is for: of the keys below any bound it leaves as few as its limit lets it. */
  ghost predicate TakesOldest(keys: map<Id, int>, limit: nat, out: seq<Id>) {
    && Ids(out) <= keys.Keys
    && (forall bound :: |Below(keys, bound) - Ids(out)| == Remaining(|Below(keys, bound)|, limit))
  }

  lemma TakeBatch(keys: map<Id, int>, limit: nat, out: seq<Id>)
    requires IsBatch(keys, limit, out)
    ensures TakesOldest(keys, limit, out)
  {
    forall bound ensures |Below(keys, bound) - Ids(out)| == Remaining(|Below(keys, bound)|, limit) {
      BatchTakesOldest(keys, limit, out, bound);
      Removed(Below(keys, bound), Ids(out));
    }
  }

  /** The query of a class lists its overdue rows, by how long they are overdue. */
  lemma OverdueFinished(rows: Table, cutoff: int, bound: int)
    requires bound <= cutoff
    ensures Below(CompletedKeys(rows, cutoff), bound) == OverdueIn(Finished, rows, bound)
  {
  }

  lemma OverdueNagged(rows: Table, bound: int)
    requires DatedTable(rows)
    ensures Below(EscalatedKeys(rows), bound) == OverdueIn(Nagged, rows, bound)
  {
  }

  lemma OverdueStalled(rows: Table, cutoff: int, bound: int)
    requires bound <= cutoff
    ensures Below(StalledKeys(rows, cutoff), bound) == OverdueIn(Stalled, rows, bound)
  {
  }

  /** A closing pass of the class takes its ids out of the overdue ones. */
  lemma PassCloses(cl: Class, rows: Table, ids: seq<Id>, p: Pass, bound: int)
    requires p.Close? || (p.CloseIfQuiet? && cl == Nagged && bound <= p.cutoff + 1)
    ensures OverdueIn(cl, Swept(rows, ids, p), bound) == OverdueIn(cl, rows, bound) - Ids(ids)
  {
  }

  /** A pass over rows of other classes does not. */
  lemma PassSpares(cl: Class, rows: Table, ids: seq<Id>, p: Pass, bound: int)
    requires p.Close? || p.CloseIfQuiet?
    requires forall id :: id in Ids(ids) ==> id in rows && !Overdue(cl, rows[id], bound)
    ensures OverdueIn(cl, Swept(rows, ids, p), bound) == OverdueIn(cl, rows, bound)
  {
  }

  /** What a pass leaves of a class. */
  ghost predicate Leaves(cl: Class, rows: Table, rows': Table, bound: int, cap: nat) {
    var before, left := OverdueIn(cl, rows, bound), OverdueIn(cl, rows', bound);
    left <= before && |left| == Remaining(|before|, cap)
  }

  lemma FinishedSpare(cl: Class, rows: Table, cutoff: int, ids: seq<Id>, bound: int)
    requires cl != Finished && Ids(ids) <= CompletedKeys(rows, cutoff).Keys
    ensures forall id :: id in Ids(ids) ==> id in rows && !Overdue(cl, rows[id], bound)
  {
  }

  lemma NaggedSpare(cl: Class, rows: Table, ids: seq<Id>, bound: int)
    requires cl != Nagged && Ids(ids) <= EscalatedKeys(rows).Keys
    ensures forall id :: id in Ids(ids) ==> id in rows && !Overdue(cl, rows[id], bound)
  {
  }

  lemma StalledSpare(cl: Class, rows: Table, cutoff: int, ids: seq<Id>, bound: int)
    requires cl != Stalled && Ids(ids) <= StalledKeys(rows, cutoff).Keys
    ensures forall id :: id in Ids(ids) ==> id in rows && !Overdue(cl, rows[id], bound)
  {
  }

  lemma FirstPass(cl: Class, cfg: Config, now: Time, rows: Table, ids: seq<Id>, bound: int)
    requires bound <= Bound(cl, cfg, now)
    requires TakesOldest(CompletedKeys(rows, now - cfg.autoClose), SWEEP_BATCH, ids)
    ensures Leaves(cl, rows, Swept(rows, ids, Close(now)), bound, PassCap(Finished, cl))
  {
    if cl == Finished {
      OverdueFinished(rows, now - cfg.autoClose, bound);
      PassCloses(cl, rows, ids, Close(now), bound);
    } else {
      FinishedSpare(cl, rows, now - cfg.autoClose, ids, bound);
      PassSpares(cl, rows, ids, Close(now), bound);
    }
  }

  lemma SecondPass(cl: Class, cfg: Config, now: Time, rows: Table, ids: seq<Id>, bound: int)
    requires DatedTable(rows) && bound <= Bound(cl, cfg, now)
    requires TakesOldest(EscalatedKeys(rows), ESCALATED_BATCH, ids)
    ensures Leaves(cl, rows, Swept(rows, ids, CloseIfQuiet(now, now - cfg.autoClose)), bound, PassCap(Nagged, cl))
  {
    var p := CloseIfQuiet(now, now - cfg.autoClose);
    if cl == Nagged {
      OverdueNagged(rows, bound);
      PassCloses(cl, rows, ids, p, bound);
    } else {
      NaggedSpare(cl, rows, ids, bound);
      PassSpares(cl, rows, ids, p, bound);
    }
  }

  lemma ThirdPass(cl: Class, cfg: Config, now: Time, rows: Table, ids: seq<Id>, bound: int)
    requires bound <= Bound(cl, cfg, now)
    requires TakesOldest(StalledKeys(rows, now - cfg.stalledClose), SWEEP_BATCH, ids)
    ensures Leaves(cl, rows, Swept(rows, ids, Close(now)), bound, PassCap(Stalled, cl))
  {
    if cl == Stalled {
      OverdueStalled(rows, now - cfg.stalledClose, bound);
      PassCloses(cl, rows, ids, Close(now), bound);
    } else {
      StalledSpare(cl, rows, now - cfg.stalledClose, ids, bound);
      PassSpares(cl, rows, ids, Close(now), bound);
    }
  }

  lemma Compose(cl: Class, a: Table, b: Table, c: Table, bound: int, m: nat, n: nat)
    requires Leaves(cl, a, b, bound, m) && Leaves(cl, b, c, bound, n)
    ensures Leaves(cl, a, c, bound, m + n)
  {
  }

  /** A pass over one class: what it leaves of each, by the bound of the tick or any earlier one. */
  ghost predicate PassLeaves(pass: Class, cfg: Config, now: Time, rows: Table, rows': Table) {
    forall cl, bound :: bound <= Bound(cl, cfg, now) ==> Leaves(cl, rows, rows', bound, PassCap(pass, cl))
  }

  lemma FinishedPass(cfg: Config, now: Time, rows: Table, ids: seq<Id>)
    requires IsBatch(CompletedKeys(rows, now - cfg.autoClose), SWEEP_BATCH, ids)
    ensures PassLeaves(Finished, cfg, now, rows, Swept(rows, ids, Close(now)))
  {
    TakeBatch(CompletedKeys(rows, now - cfg.autoClose), SWEEP_BATCH, ids);
    forall cl, bound | bound <= Bound(cl, cfg, now)
      ensures Leaves(cl, rows, Swept(rows, ids, Close(now)), bound, PassCap(Finished, cl))
    {
      FirstPass(cl, cfg, now, rows, ids, bound);
    }
  }

  lemma NaggedPass(cfg: Config, now: Time, rows: Table, ids: seq<Id>)
    requires DatedTable(rows) && IsBatch(EscalatedKeys(rows), ESCALATED_BATCH, ids)
    ensures PassLeaves(Nagged, cfg, now, rows, Swept(rows, ids, CloseIfQuiet(now, now - cfg.autoClose)))
  {
    TakeBatch(EscalatedKeys(rows), ESCALATED_BATCH, ids);
    var rows' := Swept(rows, ids, CloseIfQuiet(now, now - cfg.autoClose));
    forall cl, bound | bound <= Bound(cl, cfg, now) ensures Leaves(cl, rows, rows', bound, PassCap(Nagged, cl)) {
      SecondPass(cl, cfg, now, rows, ids, bound);
    }
  }

  lemma StalledPass(cfg: Config, now: Time, rows: Table, ids: seq<Id>)
    requires IsBatch(StalledKeys(rows, now - cfg.stalledClose), SWEEP_BATCH, ids)
    ensures PassLeaves(Stalled, cfg, now, rows, Swept(rows, ids, Close(now)))
  {
    TakeBatch(StalledKeys(rows, now - cfg.stalledClose), SWEEP_BATCH, ids);
    forall cl, bound | bound <= Bound(cl, cfg, now)
      ensures Leaves(cl, rows, Swept(rows, ids, Close(now)), bound, PassCap(Stalled, cl))
    {
      ThirdPass(cl, cfg, now, rows, ids, bound);
    }
  }

  /** Overdue by a window that is open. */
  predicate ClosureDue(cfg: Config, now: Time, c: Case) {
    || (cfg.autoClose > 0 && (Overdue(Finished, c, Bound(Finished, cfg, now)) ||
      Overdue(Nagged, c, Bound(Nagged, cfg, now))))
    || (cfg.stalledClose > 0 && Overdue(Stalled, c, Bound(Stalled, cfg, now)))
  }

  /** Every row stays as it is, or is overdue and shut. */
  ghost predicate OnlyShuts(cfg: Config, now: Time, rows: Table, rows': Table) {
    && rows'.Keys == rows.Keys
    && forall id :: id in rows ==>
         rows'[id] == rows[id] || (rows'[id] == Shut(rows[id], now) && ClosureDue(cfg, now, rows[id]))
  }

  lemma FinishedShuts(cfg: Config, now: Time, rows: Table, ids: seq<Id>)
    requires cfg.autoClose > 0 && Lists(CompletedKeys(rows, now - cfg.autoClose), SWEEP_BATCH, ids)
    ensures OnlyShuts(cfg, now, rows, Swept(rows, ids, Close(now)))
  {
  }

  lemma NaggedShuts(cfg: Config, now: Time, rows: Table, ids: seq<Id>)
    requires cfg.autoClose > 0 && Lists(EscalatedKeys(rows), ESCALATED_BATCH, ids)
    ensures OnlyShuts(cfg, now, rows, Swept(rows, ids, CloseIfQuiet(now, now - cfg.autoClose)))
  {
  }

  lemma StalledShuts(cfg: Config, now: Time, rows: Table, ids: seq<Id>)
    requires cfg.stalledClose > 0 && Lists(StalledKeys(rows, now - cfg.stalledClose), SWEEP_BATCH, ids)
    ensures OnlyShuts(cfg, now, rows, Swept(rows, ids, Close(now)))
  {
  }

  /** What one pass of CheckClosures promises. */
  ghost predicate ClosesClass(pass: Class, cfg: Config, now: Time, rows: Table, rows': Table) {
    DatedTable(rows') && OnlyShuts(cfg, now, rows, rows') && PassLeaves(pass, cfg, now, rows, rows')
  }

  lemma FinishedLaw(cfg: Config, now: Time, rows: Table, ids: seq<Id>)
    requires cfg.autoClose > 0 && DatedTable(rows) &&
      IsBatch(CompletedKeys(rows, now - cfg.autoClose), SWEEP_BATCH, ids)
    ensures Lists(CompletedKeys(rows, now - cfg.autoClose), SWEEP_BATCH, ids)
    ensures ClosesClass(Finished, cfg, now, rows, Swept(rows, ids, Close(now)))
  {
    BatchLists(CompletedKeys(rows, now - cfg.autoClose), SWEEP_BATCH, ids);
    FinishedPass(cfg, now, rows, ids);
    FinishedShuts(cfg, now, rows, ids);
    SweepsKeepDated(rows, ids, Close(now));
  }

  lemma NaggedLaw(cfg: Config, now: Time, rows: Table, ids: seq<Id>)
    requires cfg.autoClose > 0 && DatedTable(rows) && IsBatch(EscalatedKeys(rows), ESCALATED_BATCH, ids)
    ensures Lists(EscalatedKeys(rows), ESCALATED_BATCH, ids)
    ensures ClosesClass(Nagged, cfg, now, rows, Swept(rows, ids, CloseIfQuiet(now, now - cfg.autoClose)))
  {
    BatchLists(EscalatedKeys(rows), ESCALATED_BATCH, ids);
    NaggedPass(cfg, now, rows, ids);
    NaggedShuts(cfg, now, rows, ids);
    SweepsKeepDated(rows, ids, CloseIfQuiet(now, now - cfg.autoClose));
  }

  lemma StalledLaw(cfg: Config, now: Time, rows: Table, ids: seq<Id>)
    requires cfg.stalledClose > 0 && DatedTable(rows) &&
      IsBatch(StalledKeys(rows, now - cfg.stalledClose), SWEEP_BATCH, ids)
    ensures Lists(StalledKeys(rows, now - cfg.stalledClose), SWEEP_BATCH, ids)
    ensures ClosesClass(Stalled, cfg, now, rows, Swept(rows, ids, Close(now)))
  {
    BatchLists(StalledKeys(rows, now - cfg.stalledClose), SWEEP_BATCH, ids);
    StalledPass(cfg, now, rows, ids);
    StalledShuts(cfg, now, rows, ids);
    SweepsKeepDated(rows, ids, Close(now));
  }

  lemma ShutsCompose(cfg: Config, now: Time, rows: Table, between: Table, rows': Table)
    requires OnlyShuts(cfg, now, rows, between) && OnlyShuts(cfg, now, between, rows')
    ensures OnlyShuts(cfg, now, rows, rows')
  {
  }

  predicate WindowOpen(cl: Class, cfg: Config) {
    if cl == Stalled then cfg.stalledClose > 0 else cfg.autoClose > 0
  }

  function TickCap(cl: Class, cfg: Config): nat {
    if WindowOpen(cl, cfg) then Cap(cl) else 0
  }

  /**
  What a tick of CheckClosures does: it closes min(cap, overdue) of each class whose window is
  open, taking the overdue ones by the tick's own bound or by any earlier one, and does nothing else.
  */
  ghost predicate ClosureTick(cfg: Config, now: Time, rows: Table, rows': Table) {
    && OnlyShuts(cfg, now, rows, rows')
    && forall cl, bound :: bound <= Bound(cl, cfg, now) ==> Leaves(cl, rows, rows', bound, TickCap(cl, cfg))
  }

  /** The pass of a class, which is left out while its window is closed. */
  ghost predicate PassIfOpen(pass: Class, cfg: Config, now: Time, rows: Table, rows': Table) {
    if WindowOpen(pass, cfg) then PassLeaves(pass, cfg, now, rows, rows') else rows' == rows
  }

  function OpenCap(pass: Class, cl: Class, cfg: Config): nat {
    if WindowOpen(pass, cfg) then PassCap(pass, cl) else 0
  }

  lemma PassOrNothing(pass: Class, cfg: Config, now: Time, rows: Table, rows': Table, cl: Class, bound: int)
    requires PassIfOpen(pass, cfg, now, rows, rows') && bound <= Bound(cl, cfg, now)
    ensures Leaves(cl, rows, rows', bound, OpenCap(pass, cl, cfg))
  {
    assert WindowOpen(pass, cfg) ==> Leaves(cl, rows, rows', bound, PassCap(pass, cl));
  }

  lemma ThreePasses(cfg: Config, now: Time, rows: Table, first: Table, second: Table, rows': Table)
    requires PassIfOpen(Finished, cfg, now, rows, first)
    requires PassIfOpen(Nagged, cfg, now, first, second)
    requires PassIfOpen(Stalled, cfg, now, second, rows')
    requires OnlyShuts(cfg, now, rows, rows')
    ensures ClosureTick(cfg, now, rows, rows')
  {
    forall cl, bound | bound <= Bound(cl, cfg, now) ensures Leaves(cl, rows, rows', bound, TickCap(cl, cfg)) {
      PassOrNothing(Finished, cfg, now, rows, first, cl, bound);
      PassOrNothing(Nagged, cfg, now, first, second, cl, bound);
      PassOrNothing(Stalled, cfg, now, second, rows', cl, bound);
    }
  }

  /** Ticks one after the other and nothing else, at times that do not go back. */
  ghost predicate ClosureRun(cfg: Config, tables: seq<Table>, times: seq<Time>) {
    && |tables| == |times| + 1
    && (forall i :: 0 <= i < |times| ==> ClosureTick(cfg, times[i], tables[i], tables[i + 1]))
    && (forall i, j :: 0 <= i < j < |times| ==> times[i] <= times[j])
  }

  lemma {:induction false} Drain(cl: Class, cap: nat, tables: seq<Table>, bound: int, n: nat)
    requires n < |tables| && forall i :: 0 <= i < n ==> Leaves(cl, tables[i], tables[i + 1], bound, cap)
    ensures Leaves(cl, tables[0], tables[n], bound, n * cap)
  {
    if n > 0 {
      Drain(cl, cap, tables, bound, n - 1);
      Compose(cl, tables[0], tables[n - 1], tables[n], bound, (n - 1) * cap, cap);
      assert n * cap == (n - 1) * cap + cap;
    }
  }

  /** After n ticks, what was overdue at the first is down by n times the cap. */
  lemma TicksDrain(cl: Class, cfg: Config, tables: seq<Table>, times: seq<Time>, n: nat)
    requires ClosureRun(cfg, tables, times) && 0 < |times| && n <= |times|
    ensures Leaves(cl, tables[0], tables[n], Bound(cl, cfg, times[0]), n * TickCap(cl, cfg))
  {
    var bound := Bound(cl, cfg, times[0]);
    forall i | 0 <= i < n ensures Leaves(cl, tables[i], tables[i + 1], bound, TickCap(cl, cfg)) {
      assert ClosureTick(cfg, times[i], tables[i], tables[i + 1]);
      assert times[0] <= times[i];
    }
    Drain(cl, TickCap(cl, cfg), tables, bound, n);
  }

  lemma {:induction false} SameOrClosed(cfg: Config, tables: seq<Table>, times: seq<Time>, n: nat, id: Id)
    requires ClosureRun(cfg, tables, times) && n < |tables| && id in tables[0]
    ensures id in tables[n] && (tables[n][id] == tables[0][id] || tables[n][id].stamps.state == Closed)
  {
    if n > 0 {
      SameOrClosed(cfg, tables, times, n - 1, id);
      assert OnlyShuts(cfg, times[n - 1], tables[n - 1], tables[n]);
    }
  }

  /** So enough ticks close everything that was overdue at the first. */
  lemma EverythingCloses(cl: Class, cfg: Config, tables: seq<Table>, times: seq<Time>, id: Id)
    requires ClosureRun(cfg, tables, times) && 0 < |times|
    requires |OverdueIn(cl, tables[0], Bound(cl, cfg, times[0]))| <= |times| * TickCap(cl, cfg)
    requires id in OverdueIn(cl, tables[0], Bound(cl, cfg, times[0]))
    ensures id in tables[|times|] && tables[|times|][id].stamps.state == Closed
  {
    TicksDrain(cl, cfg, tables, times, |times|);
    SameOrClosed(cfg, tables, times, |times|, id);
    assert id !in OverdueIn(cl, tables[|times|], Bound(cl, cfg, times[0]));
  }

  // ---- escalations ----

  /** Awaiting a broker who can be reached and has something to do. */
  predicate Nudgeable(c: Case) {
    c.stamps.state == Awaiting && !c.onHold && !c.deliveryFailed && BrokerItems(c.missing) != []
  }

  predicate QuietDue(cfg: Config, now: Time, c: Case) {
    Nudgeable(c) && now - c.stamps.lastActionAt >= Threshold(cfg, c)
  }

  predicate BindDue(cfg: Config, now: Time, c: Case) {
    && cfg.bindWindow > 0 && Nudgeable(c)
    && c.effectiveDate.Some? && BindFloor(cfg, now) <= c.effectiveDate.value <= now + cfg.bindWindow
    && (c.lastEscalatedAt.None? || now - c.lastEscalatedAt.value >= cfg.minGap)
  }

  /** A tick of CheckEscalations escalates only what is due, and touches nothing else. */
  ghost predicate EscalationTick(cfg: Config, now: Time, rows: Table, rows': Table) {
    && rows'.Keys == rows.Keys
    && forall id :: id in rows ==>
         rows'[id] == rows[id] || (rows'[id] == Nudged(rows[id], now) &&
           (QuietDue(cfg, now, rows[id]) || BindDue(cfg, now, rows[id])))
  }

  lemma {:induction false} MinThresholdIsLeast(cfg: Config, all: seq<string>)
    requires forall i :: 0 <= i < |all| ==> all[i] in cfg.checklists
    ensures MinThreshold(cfg, all) <= cfg.globalThreshold
    ensures forall p :: p in all && cfg.checklists[p] > 0 ==> MinThreshold(cfg, all) <= cfg.checklists[p]
  {
    if |all| > 0 {
      MinThresholdIsLeast(cfg, all[..|all| - 1]);
      assert all == all[..|all| - 1] + [all[|all| - 1]];
    }
  }

  /** Nothing the query does not select; and all of it, unless the limit cut it off. */
  ghost predicate Lists(keys: map<Id, int>, limit: nat, out: seq<Id>) {
    && Distinct(out)
    && (forall id :: id in out ==> id in keys)
    && (|keys| <= limit ==> forall id :: id in keys ==> id in out)
  }

  lemma BatchLists(keys: map<Id, int>, limit: nat, out: seq<Id>)
    requires IsBatch(keys, limit, out)
    ensures Lists(keys, limit, out)
  {
    DistinctIds(out);
    if id :| |keys| <= limit && id in keys && id !in out {
      Subset(Ids(out), keys.Keys - {id});
      assert false;
    }
  }

  lemma QuietPassIsDue(cfg: Config, now: Time, rows: Table, cutoff: int, stale: seq<Id>)
    requires Lists(StaleKeys(rows, cutoff), SWEEP_BATCH, stale)
    ensures EscalationTick(cfg, now, rows, Swept(rows, stale, Quiet(cfg, now)))
  {
  }

  /**
  The quiet pass, when its batch is not cut off, escalates exactly the nudgeable rows idle
  for their own threshold and for longer than the least one.
  */
  lemma QuietPassExactly(cfg: Config, now: Time, rows: Table, least: int, stale: seq<Id>, id: Id)
    requires id in rows && |StaleKeys(rows, now - least)| <= SWEEP_BATCH
    requires Lists(StaleKeys(rows, now - least), SWEEP_BATCH, stale)
    ensures var idle := now - rows[id].stamps.lastActionAt;
      Swept(rows, stale, Quiet(cfg, now))[id] ==
        if QuietDue(cfg, now, rows[id]) && idle > least then Nudged(rows[id], now) else rows[id]
  {
  }

  lemma LeastIsBelow(cfg: Config, all: seq<string>, c: Case)
    requires Registry(cfg, all)
    ensures MinThreshold(cfg, all) <= Threshold(cfg, c)
  {
    MinThresholdIsLeast(cfg, all);
  }

  /** Due by the quiet pass, whose query looks for rows idle longer than the least threshold. */
  predicate QuietListed(cfg: Config, now: Time, least: int, c: Case) {
    QuietDue(cfg, now, c) && now - c.stamps.lastActionAt > least
  }

  /** Whoever is idle longer than their own threshold is due. */
  lemma IdleIsListed(cfg: Config, now: Time, all: seq<string>, c: Case)
    requires Registry(cfg, all) && Nudgeable(c) && now - c.stamps.lastActionAt > Threshold(cfg, c)
    ensures QuietListed(cfg, now, MinThreshold(cfg, all), c)
  {
    LeastIsBelow(cfg, all, c);
  }

  ghost predicate QuietExactly(cfg: Config, now: Time, least: int, rows: Table, rows': Table) {
    && rows'.Keys == rows.Keys
    && forall id :: id in rows ==>
         rows'[id] == if QuietListed(cfg, now, least, rows[id]) then Nudged(rows[id], now) else rows[id]
  }

  ghost predicate BindExactly(cfg: Config, now: Time, rows: Table, rows': Table) {
    && rows'.Keys == rows.Keys
    && forall id :: id in rows ==> rows'[id] == if BindDue(cfg, now, rows[id]) then Nudged(rows[id], now) else rows[id]
  }

  /** A tick that escalates exactly what is due. */
  ghost predicate EscalatesExactly(cfg: Config, now: Time, least: int, rows: Table, rows': Table) {
    && rows'.Keys == rows.Keys
    && forall id :: id in rows ==>
         var due := QuietListed(cfg, now, least, rows[id]) || BindDue(cfg, now, rows[id]);
         rows'[id] == if due then Nudged(rows[id], now) else rows[id]
  }

  lemma QuietPassAll(cfg: Config, now: Time, rows: Table, least: int, stale: seq<Id>)
    requires |StaleKeys(rows, now - least)| <= SWEEP_BATCH && Lists(StaleKeys(rows, now - least), SWEEP_BATCH, stale)
    ensures QuietExactly(cfg, now, least, rows, Swept(rows, stale, Quiet(cfg, now)))
  {
  }

  function BindQuery(cfg: Config, now: Time, rows: Table): map<Id, int> {
    BindKeys(rows, BindFloor(cfg, now), now + cfg.bindWindow)
  }

  lemma BindPassIsDue(cfg: Config, now: Time, rows: Table, soon: seq<Id>)
    requires cfg.bindWindow > 0 && Lists(BindQuery(cfg, now, rows), SWEEP_BATCH, soon)
    ensures EscalationTick(cfg, now, rows, Swept(rows, soon, Bind(cfg, now)))
  {
  }

  lemma BindPassAll(cfg: Config, now: Time, rows: Table, soon: seq<Id>)
    requires cfg.bindWindow > 0 && |BindQuery(cfg, now, rows)| <= SWEEP_BATCH
    requires Lists(BindQuery(cfg, now, rows), SWEEP_BATCH, soon)
    ensures BindExactly(cfg, now, rows, Swept(rows, soon, Bind(cfg, now)))
  {
  }

  /** The quiet pass only takes rows out of the bind pass's query. */
  lemma FewerBinding(cfg: Config, now: Time, rows: Table, quiet: Table)
    requires EscalationTick(cfg, now, rows, quiet)
    ensures |BindQuery(cfg, now, quiet)| <= |BindQuery(cfg, now, rows)|
  {
    assert BindQuery(cfg, now, quiet).Keys <= BindQuery(cfg, now, rows).Keys;
    Subset(BindQuery(cfg, now, quiet).Keys, BindQuery(cfg, now, rows).Keys);
  }

  lemma TwoPasses(cfg: Config, now: Time, rows: Table, quiet: Table, rows': Table)
    requires EscalationTick(cfg, now, rows, quiet) && EscalationTick(cfg, now, quiet, rows')
    ensures EscalationTick(cfg, now, rows, rows')
  {
  }

  lemma TwoPassesExactly(cfg: Config, now: Time, least: int, rows: Table, quiet: Table, rows': Table)
    requires QuietExactly(cfg, now, least, rows, quiet) && BindExactly(cfg, now, quiet, rows')
    ensures EscalatesExactly(cfg, now, least, rows, rows')
  {
  }

  /** Neither query is cut off by its limit. */
  predicate Uncut(cfg: Config, now: Time, least: int, rows: Table) {
    |StaleKeys(rows, now - least)| <= SWEEP_BATCH && |BindQuery(cfg, now, rows)| <= SWEEP_BATCH
  }

  /** What CheckEscalations promises: only what is due is escalated, and all of it when neither query is cut off. */
  ghost predicate Escalates(cfg: Config, now: Time, least: int, rows: Table, rows': Table) {
    EscalationTick(cfg, now, rows, rows') &&
      (Uncut(cfg, now, least, rows) ==> EscalatesExactly(cfg, now, least, rows, rows'))
  }

  lemma QuietAlone(cfg: Config, now: Time, least: int, rows: Table, quiet: Table)
    requires cfg.bindWindow <= 0 && EscalationTick(cfg, now, rows, quiet)
    requires |StaleKeys(rows, now - least)| <= SWEEP_BATCH ==> QuietExactly(cfg, now, least, rows, quiet)
    ensures Escalates(cfg, now, least, rows, quiet)
  {
  }

  lemma QuietThenBinding(cfg: Config, now: Time, least: int, rows: Table, quiet: Table, rows': Table)
    requires EscalationTick(cfg, now, rows, quiet) && EscalationTick(cfg, now, quiet, rows')
    requires |StaleKeys(rows, now - least)| <= SWEEP_BATCH ==> QuietExactly(cfg, now, least, rows, quiet)
    requires |BindQuery(cfg, now, quiet)| <= SWEEP_BATCH ==> BindExactly(cfg, now, quiet, rows')
    ensures Escalates(cfg, now, least, rows, rows')
  {
    TwoPasses(cfg, now, rows, quiet, rows');
    FewerBinding(cfg, now, rows, quiet);
    if Uncut(cfg, now, least, rows) {
      TwoPassesExactly(cfg, now, least, rows, quiet, rows');
    }
  }

  // ---- the two ticks in terms of a row's own columns ----

  /** Some item is the broker's to do. */
  predicate BrokerCanAct(c: Case) {
    exists m :: m in c.missing &&
      m.code in {NotProvided, FieldShortfall, Encrypted, MissingAttachment, PolicyUnknown}
  }

  lemma BrokerItemsExist(c: Case)
    ensures BrokerItems(c.missing) != [] <==> BrokerCanAct(c)
  {
    BrokerItemsAreForBroker(c.missing);
    var broker := BrokerItems(c.missing);
    if broker != [] {
      assert broker[0] in broker;
    }
  }

  /** The quiet threshold of a row: its policy type's, if that has one, else the global one. */
  predicate IsOwnThreshold(cfg: Config, c: Case, t: int) {
    if c.policyType in cfg.checklists && cfg.checklists[c.policyType] > 0
    then t == cfg.checklists[c.policyType] else t == cfg.globalThreshold
  }

  /** Some policy type, or the global setting, has a lower one. */
  predicate SomeLower(cfg: Config, t: int) {
    cfg.globalThreshold < t || exists p :: p in cfg.checklists && 0 < cfg.checklists[p] < t
  }

  /** Binding within the window, or not longer past than the grace, by days; and not nudged lately. */
  predicate BindsSoon(cfg: Config, now: Time, c: Case) {
    && cfg.bindWindow > 0 && c.effectiveDate.Some? && c.effectiveDate.value <= now + cfg.bindWindow
    && (now - cfg.bindGrace) / 86_400_000_000_000 <= c.effectiveDate.value / 86_400_000_000_000
    && (c.lastEscalatedAt.None? || now - c.lastEscalatedAt.value >= cfg.minGap)
  }

  /** Idle longer than its threshold; as long as it will do when some other threshold is lower. */
  predicate IsQuiet(cfg: Config, now: Time, c: Case, t: int) {
    var idle := now - c.stamps.lastActionAt;
    idle > t || (idle == t && SomeLower(cfg, t))
  }

  lemma {:induction false} MinThresholdIsOne(cfg: Config, all: seq<string>)
    requires forall i :: 0 <= i < |all| ==> all[i] in cfg.checklists
    ensures var m := MinThreshold(cfg, all);
      m == cfg.globalThreshold || exists p :: p in all && 0 < cfg.checklists[p] == m
  {
    if |all| > 0 {
      MinThresholdIsOne(cfg, all[..|all| - 1]);
      assert all == all[..|all| - 1] + [all[|all| - 1]];
    }
  }

  lemma LowerIsLeast(cfg: Config, all: seq<string>, t: int)
    requires Registry(cfg, all)
    ensures MinThreshold(cfg, all) < t <==> SomeLower(cfg, t)
  {
    MinThresholdIsLeast(cfg, all);
    MinThresholdIsOne(cfg, all);
  }

  lemma DayFloor(x: int, e: int)
    ensures StartOfDay(x) <= e <==> x / DAY <= e / DAY
  {
  }

  lemma QuietInPlainTerms(cfg: Config, now: Time, all: seq<string>, c: Case, t: int)
    requires Registry(cfg, all) && IsOwnThreshold(cfg, c, t)
    ensures QuietListed(cfg, now, MinThreshold(cfg, all), c) <==> Nudgeable(c) && IsQuiet(cfg, now, c, t)
  {
    LeastIsBelow(cfg, all, c);
    LowerIsLeast(cfg, all, t);
  }

  lemma BindInPlainTerms(cfg: Config, now: Time, c: Case)
    ensures BindDue(cfg, now, c) <==> Nudgeable(c) && BindsSoon(cfg, now, c)
  {
    if c.effectiveDate.Some? {
      DayFloor(now - cfg.bindGrace, c.effectiveDate.value);
    }
  }

  /** The row is escalated now, from awaiting. */
  function EscalatedNow(c: Case, now: Time): Case {
    c.(stamps := Stamps(Escalated, now, now, Some(now), c.stamps.completedAt), lastEscalatedAt := Some(now))
  }

  /**
  A row is escalated exactly when it awaits a broker who can act and be reached, is not held, and is
  quiet by its own threshold or binds soon.
  */
  ghost predicate EscalatesPlainly(cfg: Config, now: Time, rows: Table, rows': Table) {
    && rows'.Keys == rows.Keys
    && forall id, t :: id in rows && IsOwnThreshold(cfg, rows[id], t) ==>
         var c := rows[id];
         rows'[id] ==
         if c.stamps.state == Awaiting && !c.onHold && !c.deliveryFailed && BrokerCanAct(c) &&
            (IsQuiet(cfg, now, c, t) || BindsSoon(cfg, now, c))
         then EscalatedNow(c, now) else c
  }

  /** That is what a tick of CheckEscalations does when neither query is cut off. */
  lemma EscalationInPlainTerms(cfg: Config, now: Time, all: seq<string>, rows: Table, rows': Table)
    requires Registry(cfg, all) && Escalates(cfg, now, MinThreshold(cfg, all), rows, rows')
    requires Uncut(cfg, now, MinThreshold(cfg, all), rows)
    ensures EscalatesPlainly(cfg, now, rows, rows')
  {
    forall id, t | id in rows && IsOwnThreshold(cfg, rows[id], t)
      ensures
        var c := rows[id];
        rows'[id] ==
        if c.stamps.state == Awaiting && !c.onHold && !c.deliveryFailed && BrokerCanAct(c) &&
           (IsQuiet(cfg, now, c, t) || BindsSoon(cfg, now, c))
        then EscalatedNow(c, now) else c
    {
      BrokerItemsExist(rows[id]);
      QuietInPlainTerms(cfg, now, all, rows[id], t);
      BindInPlainTerms(cfg, now, rows[id]);
    }
  }

  function InStates(rows: Table, states: set<State>): set<Id> {
    set id | id in rows && rows[id].stamps.state in states
  }

  /** Neither query is cut off while no more than a hundred submissions are awaiting. */
  lemma FewAwaiting(cfg: Config, now: Time, least: int, rows: Table)
    requires |InStates(rows, {Awaiting})| <= 100
    ensures Uncut(cfg, now, least, rows)
  {
    Subset(StaleKeys(rows, now - least).Keys, InStates(rows, {Awaiting}));
    Subset(BindQuery(cfg, now, rows).Keys, InStates(rows, {Awaiting}));
  }

  /** Quiet for as long as its class may be. */
  predicate IsOverdue(cfg: Config, now: Time, c: Case) {
    && !c.onHold
    && match c.stamps.state
       case Complete =>
         cfg.autoClose > 0 && c.stamps.completedAt.Some? && now - c.stamps.completedAt.value > cfg.autoClose
       case Escalated => cfg.autoClose > 0 && now - c.stamps.lastActionAt >= cfg.autoClose
       case Closed => false
       case _ => cfg.stalledClose > 0 && now - c.stamps.lastActionAt > cfg.stalledClose
  }

  function ClosedNow(c: Case, now: Time): Case {
    c.(stamps := Stamps(Closed, now, now, c.stamps.escalatedAt, c.stamps.completedAt))
  }

  lemma AllOfClass(cl: Class, cfg: Config, now: Time, rows: Table, rows': Table, id: Id)
    requires ClosureTick(cfg, now, rows, rows') && WindowOpen(cl, cfg)
    requires id in rows && Overdue(cl, rows[id], Bound(cl, cfg, now))
    requires |OverdueIn(cl, rows, Bound(cl, cfg, now))| <= Cap(cl)
    ensures rows'[id] == Shut(rows[id], now)
  {
    assert Leaves(cl, rows, rows', Bound(cl, cfg, now), TickCap(cl, cfg));
    assert OverdueIn(cl, rows', Bound(cl, cfg, now)) == {};
    assert id !in OverdueIn(cl, rows', Bound(cl, cfg, now));
  }

  lemma FewOverdue(cl: Class, rows: Table, bound: int, states: set<State>)
    requires states == if cl == Finished then {Complete} else if cl == Nagged then {Escalated} else {Awaiting, Open}
    ensures |OverdueIn(cl, rows, bound)| <= |InStates(rows, states)|
  {
    Subset(OverdueIn(cl, rows, bound), InStates(rows, states));
  }

  /** No more than a hundred complete, five hundred escalated and a hundred open or awaiting submissions. */
  predicate FewRows(rows: Table) {
    && |InStates(rows, {Complete})| <= 100 && |InStates(rows, {Escalated})| <= 500
    && |InStates(rows, {Awaiting, Open})| <= 100
  }

  /** A row is closed exactly when it is overdue. */
  ghost predicate ClosesPlainly(cfg: Config, now: Time, rows: Table, rows': Table) {
    && rows'.Keys == rows.Keys
    && forall id :: id in rows ==>
         rows'[id] == if IsOverdue(cfg, now, rows[id]) then ClosedNow(rows[id], now) else rows[id]
  }

  function ClassOf(c: Case): Class {
    if c.stamps.state == Complete then Finished else if c.stamps.state == Escalated then Nagged else Stalled
  }

  /** That is what a tick of CheckClosures does with so few submissions. */
  lemma ClosureInPlainTerms(cfg: Config, now: Time, rows: Table, rows': Table)
    requires ClosureTick(cfg, now, rows, rows') && FewRows(rows)
    ensures ClosesPlainly(cfg, now, rows, rows')
  {
    forall id | id in rows
      ensures rows'[id] == if IsOverdue(cfg, now, rows[id]) then ClosedNow(rows[id], now) else rows[id]
    {
      if IsOverdue(cfg, now, rows[id]) {
        var cl := ClassOf(rows[id]);
        FewOverdue(cl, rows, Bound(cl, cfg, now),
                   if cl == Finished then {Complete} else if cl == Nagged then {Escalated} else {Awaiting, Open});
        AllOfClass(cl, cfg, now, rows, rows', id);
      }
    }
  }
}
