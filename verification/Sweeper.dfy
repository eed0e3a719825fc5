/** CheckEscalations and CheckClosures of internal/service/submissions.go over a submissions table. */
module Sweeper {
  import opened Checklist
  import opened Lifecycle
  import opened Sweeps
  import opened SweepLaws

  // ---- ORDER BY key ASC LIMIT n ----

  method LeastKey(keys: map<Id, int>) returns (id: Id)
    requires |keys| > 0
    ensures id in keys && forall other :: other in keys ==> keys[id] <= keys[other]
  {
    var todo := keys.Keys;
    id :| id in todo;
    todo := todo - {id};
    while todo != {}
      invariant id in keys && todo <= keys.Keys
      invariant forall other :: other in keys && other !in todo ==> keys[id] <= keys[other]
      decreases |todo|
    {
      var next :| next in todo;
      if keys[next] < keys[id] {
        id := next;
      }
      todo := todo - {next};
    }
  }

  method OrderLimit(keys: map<Id, int>, limit: nat) returns (out: seq<Id>)
    ensures IsBatch(keys, limit, out)
    decreases limit
  {
    if limit == 0 || |keys| == 0 {
      return [];
    }
    var id := LeastKey(keys);
    var rest := OrderLimit(keys - {id}, limit - 1);
    LeastFirst(keys, id, limit, rest);
    return [id] + rest;
  }

  /** The same, as far as the escalations need it. */
  method Query(keys: map<Id, int>, limit: nat) returns (out: seq<Id>)
    ensures Lists(keys, limit, out)
  {
    out := OrderLimit(keys, limit);
    BatchLists(keys, limit, out);
  }

  predicate InState(rows: Table, ids: seq<Id>, state: State) {
    Distinct(ids) && forall id :: id in ids ==> id in rows && rows[id].stamps.state == state
  }

  predicate Closable(rows: Table, ids: seq<Id>) {
    Distinct(ids) && forall id :: id in ids ==> id in rows && rows[id].stamps.state != Closed
  }

  class Sweeper {
    var rows: Table

    constructor (table: Table)
      ensures rows == table
    {
      rows := table;
    }

    method ComputeMinThreshold(cfg: Config, all: seq<string>) returns (m: int)
      requires Registry(cfg, all)
      ensures m == MinThreshold(cfg, all)
    {
      m := cfg.globalThreshold;
      for i := 0 to |all|
        invariant m == MinThreshold(cfg, all[..i])
      {
        assert all[..i + 1][..i] == all[..i];
        var t := cfg.checklists[all[i]];
        if t > 0 && t < m {
          m := t;
        }
      }
      assert all[..|all|] == all;
    }

    /** Escalates when the broker has something to do and the move is allowed; else nothing changes. */
    method Escalate(id: Id, now: Time) returns (ok: bool)
      requires id in rows
      modifies this
      ensures ok <==>
        BrokerItems(old(rows)[id].missing) != [] && old(rows)[id].stamps.state in {Open, Awaiting, Escalated}
      ensures rows == if ok then old(rows)[id := Nudged(old(rows)[id], now)] else old(rows)
    {
      var broker := BrokerActionable(rows[id].missing);
      if |broker| == 0 {
        return false;
      }
      var sub := new Submission.Load(rows[id].stamps);
      ok := sub.TransitionTo(Escalated, now);
      if !ok {
        return false;
      }
      rows := rows[id := rows[id].(stamps := sub.View(), lastEscalatedAt := Some(now))];
    }

    /** Closes from every state; a closed row is only stamped again. */
    method CloseQuiet(id: Id, now: Time)
      requires id in rows
      modifies this
      ensures rows == old(rows)[id := Shut(old(rows)[id], now)]
      ensures rows[id].stamps.state == Closed
    {
      var sub := new Submission.Load(rows[id].stamps);
      var ok := sub.TransitionTo(Closed, now);
      if !ok {
        return;
      }
      rows := rows[id := rows[id].(stamps := sub.View())];
    }

    method EscalateQuiet(cfg: Config, now: Time, stale: seq<Id>) returns (escalated: set<Id>)
      requires InState(rows, stale, Awaiting)
      modifies this
      ensures rows == Swept(old(rows), stale, Quiet(cfg, now))
      ensures forall id :: id in escalated ==> id in rows && rows[id].stamps.state == Escalated
    {
      escalated := {};
      ghost var pass := Quiet(cfg, now);
      for i := 0 to |stale|
        invariant rows == Swept(old(rows), stale[..i], pass)
        invariant forall id :: id in escalated ==> id in rows && rows[id].stamps.state == Escalated
      {
        var id := stale[i];
        SweepOneMore(old(rows), stale, i, pass);
        assert rows[id] == old(rows)[id];
        var threshold := cfg.globalThreshold;
        if rows[id].policyType in cfg.checklists && cfg.checklists[rows[id].policyType] > 0 {
          threshold := cfg.checklists[rows[id].policyType];
        }
        if now - rows[id].stamps.lastActionAt >= threshold {
          var ok := Escalate(id, now);
          if ok {
            escalated := escalated + {id};
          }
        }
      }
      assert stale[..|stale|] == stale;
    }

    method EscalateBinding(cfg: Config, now: Time, soon: seq<Id>, escalated: set<Id>)
      requires InState(rows, soon, Awaiting)
      requires forall id :: id in escalated ==> id in rows && rows[id].stamps.state == Escalated
      modifies this
      ensures rows == Swept(old(rows), soon, Bind(cfg, now))
    {
      ghost var pass := Bind(cfg, now);
      for i := 0 to |soon|
        invariant rows == Swept(old(rows), soon[..i], pass)
      {
        var id := soon[i];
        SweepOneMore(old(rows), soon, i, pass);
        assert rows[id] == old(rows)[id];
        var recent := rows[id].lastEscalatedAt.Some? && now - rows[id].lastEscalatedAt.value < cfg.minGap;
        if id !in escalated && !recent {
          var ok := Escalate(id, now);
        }
      }
      assert soon[..|soon|] == soon;
    }

    /** The quiet-time half. */
    method QuietPass(cfg: Config, now: Time, least: int) returns (escalated: set<Id>)
      modifies this
      ensures EscalationTick(cfg, now, old(rows), rows)
      ensures |StaleKeys(old(rows), now - least)| <= SWEEP_BATCH ==> QuietExactly(cfg, now, least, old(rows), rows)
      ensures forall id :: id in escalated ==> id in rows && rows[id].stamps.state == Escalated
    {
      var stale := Query(StaleKeys(rows, now - least), SWEEP_BATCH);
      QuietPassIsDue(cfg, now, rows, now - least, stale);
      if |StaleKeys(rows, now - least)| <= SWEEP_BATCH {
        QuietPassAll(cfg, now, rows, least, stale);
      }
      escalated := EscalateQuiet(cfg, now, stale);
    }

    /** The bind-window half. */
    method BindPass(cfg: Config, now: Time, escalated: set<Id>)
      requires cfg.bindWindow > 0
      requires forall id :: id in escalated ==> id in rows && rows[id].stamps.state == Escalated
      modifies this
      ensures EscalationTick(cfg, now, old(rows), rows)
      ensures |BindQuery(cfg, now, old(rows))| <= SWEEP_BATCH ==> BindExactly(cfg, now, old(rows), rows)
    {
      var soon := Query(BindQuery(cfg, now, rows), SWEEP_BATCH);
      BindPassIsDue(cfg, now, rows, soon);
      if |BindQuery(cfg, now, rows)| <= SWEEP_BATCH {
        BindPassAll(cfg, now, rows, soon);
      }
      EscalateBinding(cfg, now, soon, escalated);
    }

    /** Only what is due is escalated; and everything due is, when neither query is cut off. */
    method CheckEscalations(cfg: Config, now: Time, all: seq<string>)
      requires Registry(cfg, all)
      modifies this
      ensures Escalates(cfg, now, MinThreshold(cfg, all), old(rows), rows)
      ensures Uncut(cfg, now, MinThreshold(cfg, all), old(rows)) ==> EscalatesPlainly(cfg, now, old(rows), rows)
    {
      var least := ComputeMinThreshold(cfg, all);
      var escalated := QuietPass(cfg, now, least);
      ghost var quiet := rows;
      if cfg.bindWindow <= 0 {
        QuietAlone(cfg, now, least, old(rows), quiet);
      } else {
        BindPass(cfg, now, escalated);
        QuietThenBinding(cfg, now, least, old(rows), quiet, rows);
      }
      if Uncut(cfg, now, least, old(rows)) {
        EscalationInPlainTerms(cfg, now, all, old(rows), rows);
      }
    }

    method CloseAll(now: Time, ids: seq<Id>)
      requires Closable(rows, ids)
      modifies this
      ensures rows == Swept(old(rows), ids, Close(now))
    {
      for i := 0 to |ids|
        invariant rows == Swept(old(rows), ids[..i], Close(now))
      {
        SweepOneMore(old(rows), ids, i, Close(now));
        CloseQuiet(ids[i], now);
      }
      assert ids[..|ids|] == ids;
    }

    method CloseAllQuiet(now: Time, cutoff: int, ids: seq<Id>)
      requires InState(rows, ids, Escalated)
      modifies this
      ensures rows == Swept(old(rows), ids, CloseIfQuiet(now, cutoff))
    {
      for i := 0 to |ids|
        invariant rows == Swept(old(rows), ids[..i], CloseIfQuiet(now, cutoff))
      {
        SweepOneMore(old(rows), ids, i, CloseIfQuiet(now, cutoff));
        if rows[ids[i]].stamps.lastActionAt <= cutoff {
          CloseQuiet(ids[i], now);
        }
      }
      assert ids[..|ids|] == ids;
    }

    method ListCompletedBefore(cfg: Config, now: Time) returns (ids: seq<Id>)
      requires DatedTable(rows) && cfg.autoClose > 0
      ensures Closable(rows, ids)
      ensures ClosesClass(Finished, cfg, now, rows, Swept(rows, ids, Close(now)))
    {
      ids := OrderLimit(CompletedKeys(rows, now - cfg.autoClose), SWEEP_BATCH);
      FinishedLaw(cfg, now, rows, ids);
    }

    method CloseCompleted(cfg: Config, now: Time)
      requires DatedTable(rows) && cfg.autoClose > 0
      modifies this
      ensures ClosesClass(Finished, cfg, now, old(rows), rows)
    {
      var ids := ListCompletedBefore(cfg, now);
      CloseAll(now, ids);
    }

    method ListEscalated(cfg: Config, now: Time) returns (ids: seq<Id>)
      requires DatedTable(rows) && cfg.autoClose > 0
      ensures InState(rows, ids, Escalated)
      ensures ClosesClass(Nagged, cfg, now, rows, Swept(rows, ids, CloseIfQuiet(now, now - cfg.autoClose)))
    {
      ids := OrderLimit(EscalatedKeys(rows), ESCALATED_BATCH);
      NaggedLaw(cfg, now, rows, ids);
    }

    method CloseEscalated(cfg: Config, now: Time)
      requires DatedTable(rows) && cfg.autoClose > 0
      modifies this
      ensures ClosesClass(Nagged, cfg, now, old(rows), rows)
    {
      var ids := ListEscalated(cfg, now);
      CloseAllQuiet(now, now - cfg.autoClose, ids);
    }

    method ListStalledBefore(cfg: Config, now: Time) returns (ids: seq<Id>)
      requires DatedTable(rows) && cfg.stalledClose > 0
      ensures Closable(rows, ids)
      ensures ClosesClass(Stalled, cfg, now, rows, Swept(rows, ids, Close(now)))
    {
      ids := OrderLimit(StalledKeys(rows, now - cfg.stalledClose), SWEEP_BATCH);
      StalledLaw(cfg, now, rows, ids);
    }

    method CloseStalled(cfg: Config, now: Time)
      requires DatedTable(rows) && cfg.stalledClose > 0
      modifies this
      ensures ClosesClass(Stalled, cfg, now, old(rows), rows)
    {
      var ids := ListStalledBefore(cfg, now);
      CloseAll(now, ids);
    }

    /** A tick closes min(cap, overdue) of each class whose window is open, and never anything that is not overdue. */
    method CheckClosures(cfg: Config, now: Time)
      requires DatedTable(rows)
      modifies this
      ensures DatedTable(rows) && ClosureTick(cfg, now, old(rows), rows)
      ensures FewRows(old(rows)) ==> ClosesPlainly(cfg, now, old(rows), rows)
    {
      ghost var first, second := rows, rows;
      if cfg.autoClose > 0 {
        CloseCompleted(cfg, now);
        first := rows;
        CloseEscalated(cfg, now);
        second := rows;
        ShutsCompose(cfg, now, old(rows), first, second);
      }
      if cfg.stalledClose > 0 {
        CloseStalled(cfg, now);
        ShutsCompose(cfg, now, old(rows), second, rows);
      }
      ThreePasses(cfg, now, old(rows), first, second, rows);
      if FewRows(old(rows)) {
        ClosureInPlainTerms(cfg, now, old(rows), rows);
      }
    }
  }
}
