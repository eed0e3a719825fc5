/**
The outbox table of internal/repository/outbox.go: one row per queued reply.

Rows are keyed by their uuid. A reply's text is identified with the number of the
commit that wrote it, so "newer reply" means "larger number". Every statement is
one atomic function on the whole table; `now` is the stamp the statement writes
into updated_at.
*/
module OutboxTable {

  type SubId = nat
  type RowId = nat

  datatype Status = Pending | Sent | Failed

  datatype Row = Row(
    sub: SubId,
    reply: nat,       // the commit whose text reply_json holds
    status: Status,
    attempts: nat,
    createdAt: int,
    updatedAt: int,   // the version that mark-sent compares
    notBefore: int
  )

  type Table = map<RowId, Row>

  predicate IsPending(rows: Table, id: RowId) {
    id in rows && rows[id].status.Pending?
  }

  /** The partial unique index: at most one pending row per submission. */
  ghost predicate OnePending(rows: Table) {
    forall a, b :: IsPending(rows, a) && IsPending(rows, b) && rows[a].sub == rows[b].sub ==> a == b
  }

  predicate HasPending(rows: Table, sub: SubId) {
    exists id :: id in rows && rows[id].status.Pending? && rows[id].sub == sub
  }

  /** The row an insert lands on: the submission's pending row, or else the new uuid. */
  predicate IsUpsertTarget(rows: Table, sub: SubId, uuid: RowId, id: RowId) {
    if HasPending(rows, sub) then IsPending(rows, id) && rows[id].sub == sub else id == uuid
  }

  /** insertOutboxRow: insert, or overwrite content, schedule and stamp on conflict. */
  function Upsert(rows: Table, id: RowId, sub: SubId, reply: nat, now: int, notBefore: int): Table {
    if id in rows then
      rows[id := rows[id].(reply := reply, notBefore := notBefore, updatedAt := now)]
    else
      rows[id := Row(sub, reply, Pending, 0, now, now, notBefore)]
  }

  /** MarkSent: settles a pending row only while its version is unchanged. */
  function MarkSent(rows: Table, id: RowId, version: int, now: int): Table {
    if IsPending(rows, id) && rows[id].updatedAt == version then
      rows[id := rows[id].(status := Sent, updatedAt := now)]
    else
      rows
  }

  /** Whether writing `status` into row `id` would break the partial unique index. */
  predicate UpdateConflicts(rows: Table, id: RowId, status: Status) {
    status.Pending? && id in rows &&
    exists other :: other in rows && other != id && rows[other].status.Pending? && rows[other].sub == rows[id].sub
  }

  /** Update: not guarded on the row's status or version; a conflicting write fails and changes nothing. */
  function Update(rows: Table, id: RowId, status: Status, attempts: nat, now: int): Table {
    if id !in rows || UpdateConflicts(rows, id, status) then
      rows
    else
      rows[id := rows[id].(status := status, attempts := attempts, updatedAt := now)]
  }

  /** ExpirePending: fails the pending rows created before the cutoff. */
  function ExpirePending(rows: Table, cutoff: int, now: int): Table {
    map id | id in rows ::
      if rows[id].status.Pending? && rows[id].createdAt < cutoff then
        rows[id].(status := Failed, updatedAt := now)
      else
        rows[id]
  }

  /** ExpirePendingForSubmissions: fails the pending rows of the given submissions. */
  function ExpireFor(rows: Table, subs: set<SubId>, now: int): Table {
    map id | id in rows ::
      if rows[id].status.Pending? && rows[id].sub in subs then
        rows[id].(status := Failed, updatedAt := now)
      else
        rows[id]
  }

  /** Prune: deletes settled rows created before the cutoff. */
  function Prune(rows: Table, cutoff: int): Table {
    map id | id in rows && (rows[id].status.Pending? || rows[id].createdAt >= cutoff) :: rows[id]
  }

  /** The WHERE clause of ListPending. */
  predicate Due(row: Row, now: int, retryCutoff: int) {
    row.status.Pending? && row.notBefore <= now && (row.attempts == 0 || row.updatedAt <= retryCutoff)
  }

  /** A result of ListPending: due rows, earliest schedule first, no row twice, at most `limit`. */
  predicate IsDueBatch(rows: Table, now: int, retryCutoff: int, limit: nat, batch: seq<RowId>) {
    && |batch| <= limit
    && (forall i :: 0 <= i < |batch| ==> batch[i] in rows && Due(rows[batch[i]], now, retryCutoff))
    && (forall i, j :: 0 <= i < j < |batch| ==>
          batch[i] != batch[j] && rows[batch[i]].notBefore <= rows[batch[j]].notBefore)
  }

  /** What every statement keeps: uniqueness of the pending row, and each row's submission and creation time. */
  ghost predicate KeepsRows(before: Table, after: Table) {
    && OnePending(after)
    && forall id :: id in before && id in after ==>
         after[id].sub == before[id].sub && after[id].createdAt == before[id].createdAt
  }

  lemma UpsertKeepsRows(rows: Table, id: RowId, sub: SubId, uuid: RowId, reply: nat, now: int, notBefore: int)
    requires OnePending(rows) && uuid !in rows && IsUpsertTarget(rows, sub, uuid, id)
    ensures KeepsRows(rows, Upsert(rows, id, sub, reply, now, notBefore))
    ensures IsPending(Upsert(rows, id, sub, reply, now, notBefore), id)
    ensures Upsert(rows, id, sub, reply, now, notBefore)[id].sub == sub
  {
  }

  /** A statement that makes no row pending keeps the index, if it keeps rows' submissions. */
  lemma SettlingKeepsOnePending(before: Table, after: Table)
    requires OnePending(before)
    requires forall id :: IsPending(after, id) ==> IsPending(before, id) && after[id].sub == before[id].sub
    ensures OnePending(after)
  {
  }

  lemma UpdateKeepsOnePending(rows: Table, id: RowId, status: Status, attempts: nat, now: int)
    requires OnePending(rows)
    ensures OnePending(Update(rows, id, status, attempts, now))
  {
  }
}
