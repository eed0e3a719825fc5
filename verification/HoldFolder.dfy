/**
The Hold folder: ReconcileHold of internal/service/submissions.go, and who may write which
column of the submissions table in internal/repository/submissions.go. `B` stands for all
the columns a whole-row upsert overwrites.
*/
module HoldFolder {
  import opened OutboxTable

  datatype Stored<B> = Stored(createdAt: int, lastReplyAt: int, onHold: bool, body: B)

  type Submissions<B> = map<SubId, Stored<B>>

  // ---- the writes ----

  datatype Write<B> =
    | Upsert(id: SubId, s: Stored<B>)     // as stale as it may be
    | SetLastReplyAt(id: SubId, at: int)
    | SetOnHold(ids: set<SubId>, on: bool)

  function Holding<B>(rows: Submissions<B>, ids: set<SubId>, on: bool): Submissions<B> {
    map id | id in rows :: if id in ids then rows[id].(onHold := on) else rows[id]
  }

  /** On conflict an upsert leaves created_at, last_reply_at and on_hold alone. */
  function Written<B>(rows: Submissions<B>, w: Write<B>): Submissions<B> {
    match w
    case Upsert(id, s) => if id in rows then rows[id := rows[id].(body := s.body)] else rows[id := s]
    case SetLastReplyAt(id, at) => if id in rows then rows[id := rows[id].(lastReplyAt := at)] else rows
    case SetOnHold(ids, on) => Holding(rows, ids, on)
  }

  function AllWritten<B>(rows: Submissions<B>, writes: seq<Write<B>>): Submissions<B> {
    if |writes| == 0 then rows else Written(AllWritten(rows, writes[..|writes| - 1]), writes[|writes| - 1])
  }

  /** What the last hold write naming the submission said. */
  function LastHold<B>(was: bool, writes: seq<Write<B>>, id: SubId): bool {
    if |writes| == 0 then was
    else
      var w := writes[|writes| - 1];
      if w.SetOnHold? && id in w.ids then w.on else LastHold(was, writes[..|writes| - 1], id)
  }

  /** When the last reply was recorded as sent. */
  function LastReply<B>(was: int, writes: seq<Write<B>>, id: SubId): int {
    if |writes| == 0 then was
    else
      var w := writes[|writes| - 1];
      if w.SetLastReplyAt? && w.id == id then w.at else LastReply(was, writes[..|writes| - 1], id)
  }

  /** What the last upsert of the submission said of all the other columns. */
  function LastBody<B>(was: B, writes: seq<Write<B>>, id: SubId): B {
    if |writes| == 0 then was
    else
      var w := writes[|writes| - 1];
      if w.Upsert? && w.id == id then w.s.body else LastBody(was, writes[..|writes| - 1], id)
  }

  /**
  Through any sequence of writes, upserts of stale rows among them, an existing row keeps what its
  owner last wrote.
  */
  lemma {:induction false} OwnedColumns<B>(rows: Submissions<B>, writes: seq<Write<B>>, id: SubId)
    requires id in rows
    ensures id in AllWritten(rows, writes)
    ensures var row := AllWritten(rows, writes)[id];
      && row.onHold == LastHold(rows[id].onHold, writes, id)
      && row.lastReplyAt == LastReply(rows[id].lastReplyAt, writes, id)
      && row.createdAt == rows[id].createdAt
      && row.body == LastBody(rows[id].body, writes, id)
  {
    if |writes| > 0 {
      OwnedColumns(rows, writes[..|writes| - 1], id);
    }
  }

  /** A row is there exactly when it was or was upserted; the first upsert of a new one says all of it. */
  lemma {:induction false} RowsComeByUpsert<B>(rows: Submissions<B>, writes: seq<Write<B>>, id: SubId)
    ensures id in AllWritten(rows, writes) <==>
      id in rows || exists i :: 0 <= i < |writes| && writes[i].Upsert? && writes[i].id == id
    ensures id !in AllWritten(rows, writes) ==>
      forall s :: Written(AllWritten(rows, writes), Upsert(id, s)) == AllWritten(rows, writes)[id := s]
  {
    if |writes| > 0 {
      var n := |writes| - 1;
      RowsComeByUpsert(rows, writes[..n], id);
      assert forall i :: 0 <= i < n ==> writes[..n][i] == writes[i];
    }
  }

  // ---- the reconciliation ----

  function Held<B>(rows: Submissions<B>): set<SubId> {
    set id | id in rows && rows[id].onHold
  }

  function Members(ids: seq<SubId>): set<SubId> {
    set id | id in ids
  }

  function Reconciled<B>(rows: Submissions<B>, folder: set<SubId>): Submissions<B> {
    map id | id in rows :: rows[id].(onHold := id in folder)
  }

  /** The distinct ids of a set, in some order. */
  method Distinct(ids: set<SubId>) returns (out: seq<SubId>)
    ensures Members(out) == ids
  {
    out := [];
    var todo := ids;
    while todo != {}
      invariant Members(out) + todo == ids
      decreases |todo|
    {
      var id :| id in todo;
      out := out + [id];
      todo := todo - {id};
    }
  }

  // ---- from Message-IDs to submissions ----

  datatype Mail = Mail(messageId: string, sub: SubId)

  /** The trimmed Message-IDs that are not blank. */
  function Wanted(trim: string -> string, messageIds: seq<string>): set<string> {
    set i | 0 <= i < |messageIds| && trim(messageIds[i]) != "" :: trim(messageIds[i])
  }

  /** The submissions with a message in the folder. */
  function InFolder(trim: string -> string, emails: map<nat, Mail>, messageIds: seq<string>): set<SubId> {
    set id | id in emails && emails[id].messageId in Wanted(trim, messageIds) :: emails[id].sub
  }

  method NonEmpty(trim: string -> string, messageIds: seq<string>) returns (out: seq<string>)
    ensures forall v :: v in out <==> v in Wanted(trim, messageIds)
  {
    out := [];
    for i := 0 to |messageIds|
      invariant forall v :: v in out <==> v in Wanted(trim, messageIds[..i])
    {
      var v := trim(messageIds[i]);
      OneWanted(trim, messageIds, i);
      if v != "" {
        out := out + [v];
      }
    }
    assert messageIds[..|messageIds|] == messageIds;
  }

  lemma OneWanted(trim: string -> string, messageIds: seq<string>, i: nat)
    requires i < |messageIds|
    ensures var v := trim(messageIds[i]);
      Wanted(trim, messageIds[..i + 1]) == Wanted(trim, messageIds[..i]) + (if v != "" then {v} else {})
  {
    var before, after := messageIds[..i], messageIds[..i + 1];
    assert forall j :: 0 <= j < i ==> after[j] == before[j];
    assert after[i] == messageIds[i];
    forall v | v in Wanted(trim, before) ensures v in Wanted(trim, after) {
      var j :| 0 <= j < |before| && trim(before[j]) != "" && trim(before[j]) == v;
      assert trim(after[j]) == v;
    }
    forall v | v in Wanted(trim, after) && v != trim(messageIds[i]) ensures v in Wanted(trim, before) {
      var j :| 0 <= j < |after| && trim(after[j]) != "" && trim(after[j]) == v;
      assert trim(before[j]) == v;
    }
  }

  method SubmissionIDsByMessageIDs(trim: string -> string, emails: map<nat, Mail>, messageIds: seq<string>)
    returns (ids: seq<SubId>)
    ensures Members(ids) == InFolder(trim, emails, messageIds)
  {
    var wanted := NonEmpty(trim, messageIds);
    if |wanted| == 0 {
      assert InFolder(trim, emails, messageIds) == {};
      return [];
    }
    var subs := set id | id in emails && emails[id].messageId in wanted :: emails[id].sub;
    assert subs == InFolder(trim, emails, messageIds);
    ids := Distinct(subs);
  }

  lemma OneMember(ids: seq<SubId>, id: SubId)
    ensures Members(ids + [id]) == Members(ids) + {id}
  {
  }

  /** The ids of `ids` that are not in `others`. */
  method Without(ids: seq<SubId>, others: set<SubId>) returns (out: seq<SubId>)
    ensures Members(out) == Members(ids) - others
  {
    out := [];
    for i := 0 to |ids|
      invariant Members(out) == Members(ids[..i]) - others
    {
      assert ids[..i + 1] == ids[..i] + [ids[i]];
      OneMember(ids[..i], ids[i]);
      OneMember(out, ids[i]);
      if ids[i] !in others {
        out := out + [ids[i]];
      }
    }
    assert ids[..|ids|] == ids;
  }

  /** The submission has an email whose Message-ID is one of these, trimmed, and not blank. */
  predicate HasMessageIn(trim: string -> string, emails: map<nat, Mail>, messageIds: seq<string>, sub: SubId) {
    exists id, i :: id in emails && 0 <= i < |messageIds| &&
      emails[id].sub == sub && emails[id].messageId == trim(messageIds[i]) && trim(messageIds[i]) != ""
  }

  lemma InFolderPlainly(trim: string -> string, emails: map<nat, Mail>, messageIds: seq<string>, sub: SubId)
    ensures sub in InFolder(trim, emails, messageIds) <==> HasMessageIn(trim, emails, messageIds, sub)
  {
    if sub in InFolder(trim, emails, messageIds) {
      var id :| id in emails && emails[id].messageId in Wanted(trim, messageIds) && emails[id].sub == sub;
      var i :| 0 <= i < |messageIds| && trim(messageIds[i]) != "" && trim(messageIds[i]) == emails[id].messageId;
    }
  }

  class HoldDesk<B> {
    var rows: Submissions<B>
    var outbox: Table
    var emails: map<nat, Mail>

    constructor (rows: Submissions<B>, outbox: Table, emails: map<nat, Mail>)
      ensures this.rows == rows && this.outbox == outbox && this.emails == emails
    {
      this.rows, this.outbox, this.emails := rows, outbox, emails;
    }

    method SetOnHold(ids: seq<SubId>, on: bool)
      modifies this`rows
      ensures rows == Holding(old(rows), Members(ids), on)
      ensures rows.Keys == old(rows).Keys
      ensures forall id :: id in rows ==>
        rows[id] == if id in ids then old(rows)[id].(onHold := on) else old(rows)[id]
    {
      if |ids| == 0 {
        assert Holding(rows, Members(ids), on) == rows;
        return;
      }
      rows := Holding(rows, Members(ids), on);
    }

    method ExpirePendingFor(ids: seq<SubId>, now: int)
      modifies this`outbox
      ensures outbox == ExpireFor(old(outbox), Members(ids), now)
      ensures outbox.Keys == old(outbox).Keys
      ensures forall id :: id in outbox ==> var row := old(outbox)[id];
        outbox[id] == if row.status.Pending? && row.sub in ids then row.(status := Failed, updatedAt := now) else row
    {
      if |ids| == 0 {
        assert ExpireFor(outbox, Members(ids), now) == outbox;
        return;
      }
      outbox := ExpireFor(outbox, Members(ids), now);
    }

    /** The held set becomes the folder's; the pending replies of those released fail; nothing else changes. */
    method ReconcileHold(trim: string -> string, messageIds: seq<string>, now: int)
      modifies this`rows, this`outbox
      ensures rows == Reconciled(old(rows), InFolder(trim, emails, messageIds))
      ensures outbox == ExpireFor(old(outbox), Held(old(rows)) - InFolder(trim, emails, messageIds), now)
      ensures rows.Keys == old(rows).Keys && outbox.Keys == old(outbox).Keys
      ensures forall id :: id in rows ==>
        rows[id] == old(rows)[id].(onHold := HasMessageIn(trim, emails, messageIds, id))
      ensures forall id :: id in outbox ==> var row := old(outbox)[id];
        outbox[id] ==
        if row.status.Pending? && row.sub in old(rows) && old(rows)[row.sub].onHold &&
           !HasMessageIn(trim, emails, messageIds, row.sub)
        then row.(status := Failed, updatedAt := now) else row
    {
      var inFolder := SubmissionIDsByMessageIDs(trim, emails, messageIds);
      var held := Distinct(Held(rows));
      var toHold := Without(inFolder, Members(held));
      var toRelease := Without(held, Members(inFolder));
      SetOnHold(toHold, true);
      SetOnHold(toRelease, false);
      ExpirePendingFor(toRelease, now);
      assert forall id :: id in old(rows) ==> rows[id] == old(rows)[id].(onHold := id in Members(inFolder));
      forall id ensures id in Members(inFolder) <==> HasMessageIn(trim, emails, messageIds, id) {
        InFolderPlainly(trim, emails, messageIds, id);
      }
    }
  }

  /** The held submissions are then exactly those in the folder; a second call releases none and changes nothing. */
  lemma ReconcileIsIdempotent<B>(rows: Submissions<B>, outbox: Table, folder: set<SubId>, now: int)
    ensures var rows' := Reconciled(rows, folder);
      && Held(rows') == folder * rows.Keys
      && Reconciled(rows', folder) == rows'
      && ExpireFor(outbox, Held(rows') - folder, now) == outbox
  {
  }

  /**
  A reply fails in a reconciliation exactly when it was pending for a submission that was held and
  left the folder.
  */
  lemma FailsExactlyTheReleased<B>(rows: Submissions<B>, outbox: Table, folder: set<SubId>, now: int, id: RowId)
    requires id in outbox
    ensures var after := ExpireFor(outbox, Held(rows) - folder, now);
      && id in after
      && ((after[id].status.Failed? && !outbox[id].status.Failed?) <==>
            (outbox[id].status.Pending? && outbox[id].sub in rows && rows[outbox[id].sub].onHold &&
              outbox[id].sub !in folder))
      && (after[id] == outbox[id] || (after[id].status.Failed? && after[id].reply == outbox[id].reply))
  {
  }
}
