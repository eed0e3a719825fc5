/**
What the sweeps of internal/service/submissions.go, CheckEscalations and CheckClosures, look
for and do: the list queries of internal/repository/submissions.go, with their ORDER BY and
LIMIT, and what each pass does to the rows it lists.
*/
module Sweeps {
  import opened Checklist
  import opened Lifecycle

  type Id = string
  type Table = map<Id, Case>

  const SWEEP_BATCH: nat := 100
  const ESCALATED_BATCH: nat := 500
  const DAY: int := 86_400_000_000_000

  // ---- ORDER BY key ASC LIMIT n ----

  /** Some order of the `limit` smallest keys. */
  ghost predicate IsBatch(keys: map<Id, int>, limit: nat, out: seq<Id>) {
    && (forall i :: 0 <= i < |out| ==> out[i] in keys)
    && (forall i, j :: 0 <= i < j < |out| ==> out[i] != out[j] && keys[out[i]] <= keys[out[j]])
    && |out| == (if |keys| <= limit then |keys| else limit)
    && (forall i, id :: 0 <= i < |out| && id in keys && id !in out ==> keys[out[i]] <= keys[id])
  }

  function Ids(out: seq<Id>): set<Id> {
    set i | 0 <= i < |out| :: out[i]
  }

  lemma {:induction false} DistinctIds(out: seq<Id>)
    requires forall i, j :: 0 <= i < j < |out| ==> out[i] != out[j]
    ensures |Ids(out)| == |out| && forall id :: id in Ids(out) <==> id in out
  {
    if |out| > 0 {
      var front, last := out[..|out| - 1], out[|out| - 1];
      DistinctIds(front);
      assert Ids(out) == Ids(front) + {last};
    }
  }

  /** The ids whose key is below a bound. */
  function Below(keys: map<Id, int>, bound: int): set<Id> {
    set id | id in keys && keys[id] < bound
  }

  function Min(a: int, b: int): int {
    if a <= b then a else b
  }

  /** A batch takes the oldest: of the keys below any bound it takes all, or as many as it may. */
  lemma BatchTakesOldest(keys: map<Id, int>, limit: nat, out: seq<Id>, bound: int)
    requires IsBatch(keys, limit, out)
    ensures |Below(keys, bound) * Ids(out)| == Min(limit, |Below(keys, bound)|)
  {
    var aged := Below(keys, bound);
    DistinctIds(out);
    if aged <= Ids(out) {
      assert aged * Ids(out) == aged;
      Subset(aged, Ids(out));
    } else {
      var left :| left in aged && left !in Ids(out);
      assert Ids(out) <= aged;
      assert aged * Ids(out) == Ids(out);
      Subset(Ids(out), aged);
      if |keys| <= limit {
        assert left in keys.Keys && Ids(out) <= keys.Keys - {left};
        Subset(Ids(out), keys.Keys - {left});
        assert false;
      }
    }
  }

  lemma {:induction false} Subset<T>(a: set<T>, b: set<T>)
    requires a <= b
    ensures |a| <= |b|
  {
    if a != {} {
      var x :| x in a;
      Subset(a - {x}, b - {x});
    }
  }

  lemma LeastFirst(keys: map<Id, int>, id: Id, limit: nat, rest: seq<Id>)
    requires limit > 0 && id in keys && forall other :: other in keys ==> keys[id] <= keys[other]
    requires IsBatch(keys - {id}, limit - 1, rest)
    ensures IsBatch(keys, limit, [id] + rest)
  {
  }

  // ---- the queries ----

  /** ListStale */
  function StaleKeys(rows: Table, cutoff: int): map<Id, int> {
    map id | id in rows && rows[id].stamps.state == Awaiting && rows[id].stamps.lastActionAt < cutoff
             && !rows[id].onHold && !rows[id].deliveryFailed :: rows[id].stamps.lastActionAt
  }

  /** ListBindSoon */
  function BindKeys(rows: Table, after: int, before: int): map<Id, int> {
    map id | id in rows && rows[id].stamps.state == Awaiting && rows[id].effectiveDate.Some?
             && after <= rows[id].effectiveDate.value <= before
             && !rows[id].onHold && !rows[id].deliveryFailed :: rows[id].effectiveDate.value
  }

  /** ListCompletedBefore */
  function CompletedKeys(rows: Table, cutoff: int): map<Id, int> {
    map id | id in rows && rows[id].stamps.state == Complete && rows[id].stamps.completedAt.Some?
             && rows[id].stamps.completedAt.value < cutoff && !rows[id].onHold :: rows[id].stamps.completedAt.value
  }

  /** ListEscalatedSince, since 1970 */
  function EscalatedKeys(rows: Table): map<Id, int> {
    map id | id in rows && rows[id].stamps.state == Escalated && rows[id].stamps.escalatedAt.Some?
             && !rows[id].onHold :: rows[id].stamps.escalatedAt.value
  }

  /** ListStalledBefore */
  function StalledKeys(rows: Table, cutoff: int): map<Id, int> {
    map id | id in rows && (rows[id].stamps.state == Awaiting || rows[id].stamps.state == Open)
             && rows[id].stamps.lastActionAt < cutoff && !rows[id].onHold :: rows[id].stamps.lastActionAt
  }

  // ---- what a pass does to the rows it was given ----

  /** Windows and thresholds in nanoseconds; `checklists` gives each policy type its own threshold. */
  datatype Config = Config(
    globalThreshold: int,
    checklists: map<string, int>,
    bindWindow: int,
    bindGrace: int,
    minGap: int,
    autoClose: int,
    stalledClose: int
  )

  function Threshold(cfg: Config, c: Case): int {
    if c.policyType in cfg.checklists && cfg.checklists[c.policyType] > 0 then cfg.checklists[c.policyType]
    else cfg.globalThreshold
  }

  datatype Pass =
    | Quiet(cfg: Config, now: Time)
    | Bind(cfg: Config, now: Time)
    | Close(now: Time)
    | CloseIfQuiet(now: Time, cutoff: int)

  predicate Due(p: Pass, c: Case) {
    match p
    case Quiet(cfg, now) => now - c.stamps.lastActionAt >= Threshold(cfg, c) && BrokerItems(c.missing) != []
    case Bind(cfg, now) =>
      (c.lastEscalatedAt.None? || now - c.lastEscalatedAt.value >= cfg.minGap) && BrokerItems(c.missing) != []
    case Close(_) => true
    case CloseIfQuiet(_, cutoff) => c.stamps.lastActionAt <= cutoff
  }

  function Act(p: Pass, c: Case): Case {
    if p.Quiet? || p.Bind? then Nudged(c, p.now) else Shut(c, p.now)
  }

  function Swept(rows: Table, ids: seq<Id>, p: Pass): Table {
    map id | id in rows :: if id in ids && Due(p, rows[id]) then Act(p, rows[id]) else rows[id]
  }

  predicate Distinct(ids: seq<Id>) {
    forall i, j :: 0 <= i < j < |ids| ==> ids[i] != ids[j]
  }

  lemma SweepOneMore(rows: Table, ids: seq<Id>, i: nat, p: Pass)
    requires Distinct(ids) && i < |ids| && ids[i] in rows
    ensures var before := Swept(rows, ids[..i], p);
      && before[ids[i]] == rows[ids[i]]
      && Swept(rows, ids[..i + 1], p) ==
         if Due(p, rows[ids[i]]) then before[ids[i] := Act(p, rows[ids[i]])] else before
  {
  }

  /** The least positive threshold of these policy types, or the global one. */
  function MinThreshold(cfg: Config, all: seq<string>): int
    requires forall i :: 0 <= i < |all| ==> all[i] in cfg.checklists
  {
    if |all| == 0 then cfg.globalThreshold
    else
      var m := MinThreshold(cfg, all[..|all| - 1]);
      var t := cfg.checklists[all[|all| - 1]];
      if 0 < t < m then t else m
  }

  function StartOfDay(t: int): int {
    t / DAY * DAY
  }

  function BindFloor(cfg: Config, now: Time): int {
    StartOfDay(now - cfg.bindGrace)
  }

  /** The registry's checklists, in some order. */
  ghost predicate Registry(cfg: Config, all: seq<string>) {
    forall p :: p in all <==> p in cfg.checklists
  }
}
