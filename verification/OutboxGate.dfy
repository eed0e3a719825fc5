/**
The gate of ReplyGate is what one submission sees of the outbox. This module relates a state of the
interleaved model to a state of the gate and shows, shape by shape, that a step keeps them related
when the gate makes the step that the submission sees, or none. OutboxRuns puts the steps together.
*/
module OutboxGate {
  import opened Checklist
  import opened DispatchDelivery
  import opened DispatchModel
  import opened DispatchOwnership
  import opened DispatchProvenance
  import opened DispatchShapes
  import opened Fingerprint
  import opened OutboxTable
  import G = ReplyGate

  /**
  A submission, a fingerprint, what each commit asks, and before which steps a clearing of the stored
  fingerprint takes effect; then the commit whose fingerprint is stored, and whether the submission's
  sender has buried a reply and not cleared the fingerprint yet.
  */
  datatype View = View(
    sub: SubId,
    fp: G.Hash,
    asks: nat -> Ask,
    clears: nat -> bool,
    prev: Option<nat>,
    grave: bool
  )

  function Stored(v: View): string {
    if v.prev.Some? then v.fp(v.asks(v.prev.value)) else ""
  }

  function Asked(v: View, replies: seq<nat>): seq<Ask> {
    seq(|replies|, i requires 0 <= i < |replies| => v.asks(replies[i]))
  }

  // ---- what the two states have in common ----

  predicate PendingFor(rows: Table, sub: SubId, id: RowId) {
    IsPending(rows, id) && rows[id].sub == sub
  }

  ghost predicate SlotSim(v: View, rows: Table, slot: Option<Ask>) {
    && (forall id :: PendingFor(rows, v.sub, id) ==> slot == Some(v.asks(rows[id].reply)))
    && (slot.Some? ==> exists id :: PendingFor(rows, v.sub, id))
  }

  predicate FateSim(v: View, rows: Table, job: Job, fate: G.Fate) {
    match fate
    case Current => IsPending(rows, job.row) && rows[job.row].updatedAt == job.version
    case Coalesced => IsPending(rows, job.row) && rows[job.row].updatedAt != job.version
    case Lapsed(text) => !IsPending(rows, job.row) && (job.row in rows ==> text == v.asks(rows[job.row].reply))
  }

  predicate HandSim(v: View, rows: Table, h: Hand, hand: G.Hand)
    requires !h.Empty?
  {
    && hand.ask == v.asks(h.job.reply)
    && (h.Online? ==> hand.online) && (h.Offline? || h.Missed? ==> !hand.online)
    && hand.phase == (if h.Fired? then G.Sent else G.Holding)
    && FateSim(v, rows, h.job, hand.fate)
  }

  ghost predicate HeldFor(s: Sys, t: ActId, sub: SubId) {
    !HandAt(s, t).Empty? && HandAt(s, t).job.sub == sub
  }

  ghost predicate HandsSim(v: View, s: Sys, hand: Option<G.Hand>) {
    && (forall t :: HeldFor(s, t, v.sub) ==> hand.Some? && HandSim(v, s.rows, HandAt(s, t), hand.value))
    && (hand.Some? ==> exists t :: HeldFor(s, t, v.sub))
  }

  ghost predicate Sim(v: View, s: Sys, g: G.Gate) {
    && SlotSim(v, s.rows, g.slot)
    && HandsSim(v, s, g.hand)
    && g.last == Stored(v)
    && g.delivered == Asked(v, LogOf(s.log, v.sub))
  }

  // ---- one step of the gate, or none ----

  function When(moves: bool, step: G.Step): Option<G.Step> {
    if moves then Some(step) else None
  }

  predicate Can(g: G.Gate, move: Option<G.Step>) {
    move.Some? ==> G.Enabled(g, move.value)
  }

  function Do(fp: G.Hash, g: G.Gate, move: Option<G.Step>): G.Gate
    requires Can(g, move)
  {
    if move.Some? then G.Apply(fp, g, move.value) else g
  }

  /** The gate can move so, and then is what the submission sees of s. */
  ghost predicate Follows(v: View, g: G.Gate, move: Option<G.Step>, s: Sys) {
    Can(g, move) && Sim(v, s, Do(v.fp, g, move))
  }

  /** An activity puts down a text of the submission. */
  ghost predicate LetsGo(s: Sys, s': Sys, t: ActId, sub: SubId) {
    HeldFor(s, t, sub) && HandAt(s', t).Empty?
  }

  /** The submission's waiting reply is failed. */
  ghost predicate Expires(s: Sys, s': Sys, sub: SubId) {
    exists id :: PendingFor(s.rows, sub, id) && !PendingFor(s'.rows, sub, id)
  }

  // ---- steps that do not concern the submission ----

  /** The rows of the submission are as they were, but for settled ones that are gone. */
  ghost predicate SameRows(rows: Table, rows': Table, sub: SubId) {
    && (forall id :: PendingFor(rows', sub, id) <==> PendingFor(rows, sub, id))
    && (forall id :: id in rows' && rows'[id].sub == sub ==> id in rows && rows[id].reply == rows'[id].reply)
    && (forall id :: PendingFor(rows, sub, id) ==> rows'[id].updatedAt == rows[id].updatedAt)
  }

  /** A row that a hand of the submission names is the submission's, before and after. */
  ghost predicate JobsSound(s: Sys, rows: Table, sub: SubId) {
    forall t :: HeldFor(s, t, sub) ==> HandAt(s, t).job.row in rows ==> rows[HandAt(s, t).job.row].sub == sub
  }

  lemma SameSlot(v: View, rows: Table, rows': Table, slot: Option<Ask>)
    requires SlotSim(v, rows, slot) && SameRows(rows, rows', v.sub)
    ensures SlotSim(v, rows', slot)
  {
    if slot.Some? {
      var id :| PendingFor(rows, v.sub, id);
      assert PendingFor(rows', v.sub, id);
    }
  }

  lemma SameFate(v: View, rows: Table, rows': Table, job: Job, fate: G.Fate)
    requires FateSim(v, rows, job, fate) && SameRows(rows, rows', v.sub)
    requires job.row in rows ==> rows[job.row].sub == v.sub
    requires job.row in rows' ==> rows'[job.row].sub == v.sub
    ensures FateSim(v, rows', job, fate)
  {
    assert PendingFor(rows', v.sub, job.row) <==> PendingFor(rows, v.sub, job.row);
  }

  /** The hands of the submission are as they were. */
  ghost predicate SameHands(s: Sys, s': Sys, sub: SubId) {
    && (forall t :: HeldFor(s', t, sub) <==> HeldFor(s, t, sub))
    && (forall t :: HeldFor(s, t, sub) ==> HandAt(s', t) == HandAt(s, t))
  }

  lemma SameHandsSim(v: View, s: Sys, s': Sys, hand: Option<G.Hand>)
    requires HandsSim(v, s, hand) && SameHands(s, s', v.sub) && SameRows(s.rows, s'.rows, v.sub)
    requires JobsSound(s, s.rows, v.sub) && JobsSound(s, s'.rows, v.sub)
    ensures HandsSim(v, s', hand)
  {
    forall t | HeldFor(s', t, v.sub) ensures hand.Some? && HandSim(v, s'.rows, HandAt(s', t), hand.value) {
      assert HeldFor(s, t, v.sub);
      SameFate(v, s.rows, s'.rows, HandAt(s, t).job, hand.value.fate);
    }
    if hand.Some? {
      var t :| HeldFor(s, t, v.sub);
      assert HeldFor(s', t, v.sub);
    }
  }

  lemma JobsAreSound(s: Sys, sub: SubId)
    requires Provenance(s)
    ensures JobsSound(s, s.rows, sub)
  {
    forall t | HeldFor(s, t, sub)
      ensures HandAt(s, t).job.row in s.rows ==> s.rows[HandAt(s, t).job.row].sub == sub
    {
      assert JobSound(s, HandAt(s, t).job);
    }
  }

  /** A step that leaves the submission's rows, hands and log alone is no step of the gate. */
  lemma Unconcerned(v: View, s: Sys, s': Sys, g: G.Gate)
    requires Sim(v, s, g) && Provenance(s) && SameRows(s.rows, s'.rows, v.sub) && SameHands(s, s', v.sub)
    requires JobsSound(s, s'.rows, v.sub) && LogOf(s'.log, v.sub) == LogOf(s.log, v.sub)
    ensures Sim(v, s', g)
  {
    SameSlot(v, s.rows, s'.rows, g.slot);
    JobsAreSound(s, v.sub);
    SameHandsSim(v, s, s', g.hand);
  }

  lemma OthersSameHands(s: Sys, s': Sys, t: ActId, sub: SubId)
    requires Others(s, s', t) && !HeldFor(s, t, sub) && !HeldFor(s', t, sub)
    ensures SameHands(s, s', sub)
  {
  }

  lemma TableSameRows(rows: Table, sub: SubId)
    ensures SameRows(rows, rows, sub)
  {
  }

  // ---- one sender ----

  /** The submission's only hand is t's. */
  lemma OnlyHand(v: View, s: Sys, t: ActId, u: ActId)
    requires Ownership(s) && HeldFor(s, u, v.sub) && t in s.acts && Owns(s.acts[t], v.sub)
    ensures u == t
  {
    HandIsOwned(s, u);
    assert OwnsAt(s, t, v.sub);
  }

  lemma NoHand(v: View, s: Sys, g: G.Gate, t: ActId)
    requires Sim(v, s, g) && Ownership(s) && t in s.acts && Owns(s.acts[t], v.sub) && HandAt(s, t).Empty?
    ensures g.hand.None? && forall u :: !HeldFor(s, u, v.sub)
  {
    forall u ensures !HeldFor(s, u, v.sub) {
      if HeldFor(s, u, v.sub) {
        OnlyHand(v, s, t, u);
      }
    }
  }

  /** After a step of the holder, nobody else holds anything of the submission. */
  lemma Alone(v: View, s: Sys, s': Sys, t: ActId, u: ActId)
    requires Ownership(s) && HeldFor(s, t, v.sub) && Others(s, s', t) && HeldFor(s', u, v.sub)
    ensures u == t
  {
    if u != t {
      assert HeldFor(s, u, v.sub);
      OneHand(s, t, u);
    }
  }

  lemma Emptied(v: View, s: Sys, s': Sys, t: ActId)
    requires Ownership(s) && HeldFor(s, t, v.sub) && Others(s, s', t) && HandAt(s', t).Empty?
    ensures HandsSim(v, s', None)
  {
    forall u ensures !HeldFor(s', u, v.sub) {
      if HeldFor(s', u, v.sub) {
        Alone(v, s, s', t, u);
      }
    }
  }

  lemma Replaced(v: View, s: Sys, s': Sys, t: ActId, hand: G.Hand)
    requires Ownership(s) && HeldFor(s, t, v.sub) && Others(s, s', t) && HeldFor(s', t, v.sub)
    requires HandSim(v, s'.rows, HandAt(s', t), hand)
    ensures HandsSim(v, s', Some(hand))
  {
    forall u | HeldFor(s', u, v.sub) ensures HandSim(v, s'.rows, HandAt(s', u), hand) {
      Alone(v, s, s', t, u);
    }
  }

  // ---- the shapes ----

  lemma QuietSim(v: View, s: Sys, s': Sys, t: ActId, g: G.Gate)
    requires Sim(v, s, g) && Provenance(s) && Ownership(s) && Quiet(s, s', t)
    ensures Follows(v, g, When(LetsGo(s, s', t, v.sub), G.GiveUp), s')
  {
    if LetsGo(s, s', t, v.sub) {
      assert HandSim(v, s.rows, HandAt(s, t), g.hand.value);
      Emptied(v, s, s', t);
    } else {
      TableSameRows(s.rows, v.sub);
      JobsAreSound(s, v.sub);
      assert SameHands(s, s', v.sub);
      Unconcerned(v, s, s', g);
    }
  }

  lemma ListSim(v: View, s: Sys, s': Sys, t: ActId, g: G.Gate)
    requires Sim(v, s, g) && Provenance(s) && Lists(s, s', t) && HandAt(s, t).Empty?
    ensures Sim(v, s', g)
  {
    TableSameRows(s.rows, v.sub);
    JobsAreSound(s, v.sub);
    OthersSameHands(s, s', t, v.sub);
    Unconcerned(v, s, s', g);
  }

  lemma SendSim(v: View, s: Sys, s': Sys, t: ActId, g: G.Gate)
    requires Sim(v, s, g) && Provenance(s) && Ownership(s) && Sends(s, s', t)
    ensures Follows(v, g, When(HeldFor(s, t, v.sub), G.Send), s')
  {
    if HeldFor(s, t, v.sub) {
      var job := HandAt(s, t).job;
      assert HandSim(v, s.rows, HandAt(s, t), g.hand.value);
      assert LogOf(s'.log, v.sub) == LogOf(s.log, v.sub) + [job.reply];
      assert Asked(v, LogOf(s'.log, v.sub)) == Asked(v, LogOf(s.log, v.sub)) + [v.asks(job.reply)];
      Replaced(v, s, s', t, g.hand.value.(phase := G.Sent));
    } else {
      TableSameRows(s.rows, v.sub);
      JobsAreSound(s, v.sub);
      OthersSameHands(s, s', t, v.sub);
      Unconcerned(v, s, s', g);
    }
  }

  lemma LoseMarkSim(v: View, s: Sys, s': Sys, t: ActId, g: G.Gate)
    requires Sim(v, s, g) && Provenance(s) && Ownership(s) && LosesMark(s, s', t)
    ensures Follows(v, g, When(HeldFor(s, t, v.sub), G.LoseMark), s')
  {
    if HeldFor(s, t, v.sub) {
      assert HandSim(v, s.rows, HandAt(s, t), g.hand.value);
      Emptied(v, s, s', t);
    } else {
      TableSameRows(s.rows, v.sub);
      JobsAreSound(s, v.sub);
      OthersSameHands(s, s', t, v.sub);
      Unconcerned(v, s, s', g);
    }
  }

  lemma MissSim(v: View, s: Sys, s': Sys, t: ActId, g: G.Gate)
    requires Sim(v, s, g) && Provenance(s) && Ownership(s) && Misses(s, s', t)
    ensures Sim(v, s', g)
  {
    TableSameRows(s.rows, v.sub);
    JobsAreSound(s, v.sub);
    if HeldFor(s, t, v.sub) {
      assert HandSim(v, s.rows, HandAt(s, t), g.hand.value);
      Replaced(v, s, s', t, g.hand.value);
    } else {
      OthersSameHands(s, s', t, v.sub);
      Unconcerned(v, s, s', g);
    }
  }

  lemma ReadSim(v: View, s: Sys, s': Sys, t: ActId, row: RowId, g: G.Gate)
    requires Sim(v, s, g) && Provenance(s) && Ownership(s) && Reads(s, s', t, row)
    ensures Follows(v, g, When(HeldFor(s', t, v.sub), G.TakeUp), s')
  {
    var l :| l in RestAt(s, t) && l.row == row && t in s.acts && Owns(s.acts[t], l.sub);
    assert ListedSound(s, l);
    if HeldFor(s', t, v.sub) {
      NoHand(v, s, g, t);
      assert PendingFor(s.rows, v.sub, row);
      forall u | HeldFor(s', u, v.sub) ensures u == t {
        assert u != t ==> HeldFor(s, u, v.sub);
      }
    } else {
      TableSameRows(s.rows, v.sub);
      JobsAreSound(s, v.sub);
      OthersSameHands(s, s', t, v.sub);
      Unconcerned(v, s, s', g);
    }
  }

  lemma CrashSim(v: View, s: Sys, s': Sys, g: G.Gate)
    requires Sim(v, s, g) && DoCrash(s, s')
    ensures Sim(v, s', g.(hand := None))
  {
  }

  /** A write to one row of another submission. */
  lemma OtherRow(rows: Table, id: RowId, row: Row, sub: SubId)
    requires row.sub != sub && (id in rows ==> rows[id].sub != sub)
    ensures SameRows(rows, rows[id := row], sub)
  {
  }

  lemma OtherJobs(s: Sys, id: RowId, row: Row, sub: SubId)
    requires Provenance(s) && row.sub != sub
    requires if id in s.rows then s.rows[id].sub != sub else id == s.commits
    ensures JobsSound(s, s.rows[id := row], sub)
  {
    forall t | HeldFor(s, t, sub)
      ensures HandAt(s, t).job.row in s.rows[id := row] ==> s.rows[id := row][HandAt(s, t).job.row].sub == sub
    {
      assert JobSound(s, HandAt(s, t).job);
    }
  }

  lemma OnePendingFor(rows: Table, sub: SubId, id: RowId)
    requires OnePending(rows) && PendingFor(rows, sub, id)
    ensures forall other :: PendingFor(rows, sub, other) ==> other == id
  {
  }

  // ---- marks ----

  lemma MarkedFor(v: View, s: Sys, s': Sys, t: ActId, g: G.Gate)
    requires Sim(v, s, g) && Provenance(s) && Ownership(s) && Marks(s, s', t) && HeldFor(s, t, v.sub)
    ensures G.Enabled(g, G.Mark) && Sim(v, s', G.Apply(v.fp, g, G.Mark))
  {
    var job, g' := HandAt(s, t).job, G.Apply(v.fp, g, G.Mark);
    assert HandSim(v, s.rows, HandAt(s, t), g.hand.value) && JobSound(s, job);
    Emptied(v, s, s', t);
    if g.hand.value.fate.Current? {
      OnePendingFor(s.rows, v.sub, job.row);
      assert forall id :: PendingFor(s'.rows, v.sub, id) ==> PendingFor(s.rows, v.sub, id) && id != job.row;
    } else {
      assert s'.rows == s.rows;
    }
  }

  lemma MarkSim(v: View, s: Sys, s': Sys, t: ActId, g: G.Gate)
    requires Sim(v, s, g) && Provenance(s) && Ownership(s) && Marks(s, s', t)
    ensures Follows(v, g, When(HeldFor(s, t, v.sub), G.Mark), s')
  {
    if HeldFor(s, t, v.sub) {
      MarkedFor(v, s, s', t, g);
    } else {
      var job := HandAt(s, t).job;
      assert JobSound(s, job);
      OthersSameHands(s, s', t, v.sub);
      JobsAreSound(s, v.sub);
      TableSameRows(s.rows, v.sub);
      if s'.rows != s.rows {
        OtherRow(s.rows, job.row, s'.rows[job.row], v.sub);
        OtherJobs(s, job.row, s'.rows[job.row], v.sub);
      }
      Unconcerned(v, s, s', g);
    }
  }

  // ---- commits ----

  lemma CommitSlot(v: View, s: Sys, s': Sys, t: ActId, row: RowId, notBefore: int)
    requires Provenance(s) && Commits(s, s', t, v.sub, row, notBefore)
    ensures SlotSim(v, s'.rows, Some(v.asks(s.commits)))
  {
    CommitProvenance(s, s', t, v.sub, row, notBefore);
    assert PendingFor(s'.rows, v.sub, row);
    forall id | PendingFor(s'.rows, v.sub, id) ensures id == row {
    }
  }

  /** What a commit of the submission does to the row of the text in hand. */
  lemma CommitFate(v: View, s: Sys, s': Sys, t: ActId, row: RowId, notBefore: int, job: Job, fate: G.Fate)
    requires Provenance(s) && Commits(s, s', t, v.sub, row, notBefore)
    requires JobSound(s, job) && job.sub == v.sub && FateSim(v, s.rows, job, fate)
    ensures FateSim(v, s'.rows, job, if fate.Current? then G.Coalesced else fate)
  {
    assert s.commits !in s.rows;
    if fate.Lapsed? {
      assert row != job.row;
    } else {
      assert PendingFor(s.rows, v.sub, job.row) && HasPending(s.rows, v.sub);
      assert row == job.row;
    }
  }

  lemma CommitTaken(v: View, s: Sys, s': Sys, t: ActId, row: RowId, notBefore: int, g: G.Gate)
    requires Sim(v, s, g) && Provenance(s) && Ownership(s) && Commits(s, s', t, v.sub, row, notBefore)
    requires !HandAt(s', t).Empty?
    ensures g.hand.None? && HandsSim(v, s', Some(G.Hand(v.asks(s.commits), true, G.Current, G.Holding)))
  {
    NoHand(v, s, g, t);
    CommitProvenance(s, s', t, v.sub, row, notBefore);
    assert HeldFor(s', t, v.sub);
    forall u | HeldFor(s', u, v.sub) ensures u == t {
      assert u != t ==> HeldFor(s, u, v.sub);
    }
  }

  lemma CommitLeft(v: View, s: Sys, s': Sys, t: ActId, row: RowId, notBefore: int, g: G.Gate)
    requires Sim(v, s, g) && Provenance(s) && Commits(s, s', t, v.sub, row, notBefore) && HandAt(s', t).Empty?
    ensures HandsSim(v, s', G.Queue(v.fp, g, v.asks(s.commits), false).hand)
  {
    var hand' := G.Queue(v.fp, g, v.asks(s.commits), false).hand;
    assert SameHands(s, s', v.sub);
    forall u | HeldFor(s', u, v.sub) ensures hand'.Some? && HandSim(v, s'.rows, HandAt(s', u), hand'.value) {
      assert HeldFor(s, u, v.sub) && JobSound(s, HandAt(s, u).job);
      CommitFate(v, s, s', t, row, notBefore, HandAt(s, u).job, g.hand.value.fate);
    }
    if hand'.Some? {
      var u :| HeldFor(s, u, v.sub);
      assert HeldFor(s', u, v.sub);
    }
  }

  lemma CommitFor(v: View, s: Sys, s': Sys, t: ActId, row: RowId, notBefore: int, g: G.Gate)
    requires Sim(v, s, g) && Provenance(s) && Ownership(s) && Commits(s, s', t, v.sub, row, notBefore)
    requires !G.Dropped(v.fp, g, v.asks(s.commits))
    ensures Follows(v.(prev := Some(s.commits)), g, Some(G.Ingest(v.asks(s.commits), HeldFor(s', t, v.sub))), s')
  {
    var v', ask, take := v.(prev := Some(s.commits)), v.asks(s.commits), HeldFor(s', t, v.sub);
    CommitSlot(v', s, s', t, row, notBefore);
    if take {
      CommitTaken(v, s, s', t, row, notBefore, g);
    } else {
      CommitLeft(v, s, s', t, row, notBefore, g);
    }
    HandsOfLater(v, v', s', G.Queue(v.fp, g, ask, take).hand);
    assert Asked(v', LogOf(s'.log, v.sub)) == Asked(v, LogOf(s.log, v.sub));
  }

  /** The view at another time. */
  ghost predicate Elsewhen(v: View, v': View) {
    v' == v.(prev := v'.prev, grave := v'.grave)
  }

  lemma HandsOfLater(v: View, v': View, s: Sys, hand: Option<G.Hand>)
    requires HandsSim(v, s, hand) && Elsewhen(v, v')
    ensures HandsSim(v', s, hand)
  {
    forall t | HeldFor(s, t, v.sub) ensures hand.Some? && HandSim(v', s.rows, HandAt(s, t), hand.value) {
      assert HandSim(v, s.rows, HandAt(s, t), hand.value);
    }
    if hand.Some? {
      var t :| HeldFor(s, t, v.sub);
      assert HeldFor(s, t, v'.sub);
    }
  }

  /** Another fingerprint is stored, or none, and all else is as it was. */
  lemma StoredAnew(v: View, v': View, s: Sys, g: G.Gate, g': G.Gate)
    requires Sim(v, s, g) && Elsewhen(v, v') && g'.last == Stored(v')
    requires g'.slot == g.slot && g'.hand == g.hand && g'.delivered == g.delivered
    ensures Sim(v', s, g')
  {
    HandsOfLater(v, v', s, g.hand);
    assert forall id :: PendingFor(s.rows, v'.sub, id) <==> PendingFor(s.rows, v.sub, id);
    assert SlotSim(v', s.rows, g.slot);
    assert Asked(v', LogOf(s.log, v.sub)) == Asked(v, LogOf(s.log, v.sub));
  }

  lemma CommitOther(v: View, s: Sys, s': Sys, t: ActId, sub: SubId, row: RowId, notBefore: int, g: G.Gate)
    requires Sim(v, s, g) && Provenance(s) && Commits(s, s', t, sub, row, notBefore) && sub != v.sub
    ensures Sim(v, s', g)
  {
    assert s.commits !in s.rows;
    OtherRow(s.rows, row, s'.rows[row], v.sub);
    OtherJobs(s, row, s'.rows[row], v.sub);
    OthersSameHands(s, s', t, v.sub);
    Unconcerned(v, s, s', g);
  }

  // ---- failing sends are written ----

  /** Nothing changes for the submission but that its sender lets go. */
  lemma LetGo(v: View, s: Sys, s': Sys, t: ActId, g: G.Gate)
    requires Sim(v, s, g) && Provenance(s) && Ownership(s) && Settles(s, s', t, true) && HeldFor(s, t, v.sub)
    requires SlotSim(v, s'.rows, g.slot)
    ensures Sim(v, s', g.(hand := None))
  {
    Emptied(v, s, s', t);
  }

  /** A failing send writes an expired row back to pending. */
  predicate Revives(s: Sys, s': Sys, id: RowId) {
    !IsPending(s.rows, id) && IsPending(s'.rows, id)
  }

  /** What the sender of the submission does when its send failed. */
  function AfterMiss(s: Sys, s': Sys, h: Hand, ok: bool): G.Step
    requires h.Missed?
  {
    if FailStatus(h.attempts + 1).Failed? then G.Bury(ok)
    else if Revives(s, s', h.job.row) then G.Revive
    else G.GiveUp
  }

  lemma RetryFor(v: View, s: Sys, s': Sys, t: ActId, g: G.Gate)
    requires Sim(v, s, g) && Provenance(s) && Ownership(s) && Delivery(s) && Settles(s, s', t, true)
    requires HeldFor(s, t, v.sub) && FailStatus(HandAt(s, t).attempts + 1).Pending?
    ensures Follows(v, g, Some(AfterMiss(s, s', HandAt(s, t), true)), s')
  {
    var id, fate := HandAt(s, t).job.row, g.hand.value.fate;
    assert HandSim(v, s.rows, HandAt(s, t), g.hand.value) && JobSound(s, HandAt(s, t).job);
    if Revives(s, s', id) {
      assert !UpdateConflicts(s.rows, id, Pending);
      assert forall other :: PendingFor(s.rows, v.sub, other) ==> other != id;
      assert g.slot.None?;
      assert PendingFor(s'.rows, v.sub, id);
      Emptied(v, s, s', t);
    } else {
      SlotAfterRetry(v, s, s', t, g);
      LetGo(v, s, s', t, g);
    }
  }

  lemma SlotAfterRetry(v: View, s: Sys, s': Sys, t: ActId, g: G.Gate)
    requires Sim(v, s, g) && Settles(s, s', t, true) && HeldFor(s, t, v.sub)
    requires FailStatus(HandAt(s, t).attempts + 1).Pending?
    requires s'.rows == s.rows || IsPending(s.rows, HandAt(s, t).job.row)
    ensures SlotSim(v, s'.rows, g.slot)
  {
    assert forall id :: PendingFor(s'.rows, v.sub, id) <==> PendingFor(s.rows, v.sub, id);
    if g.slot.Some? {
      var id :| PendingFor(s.rows, v.sub, id);
      assert PendingFor(s'.rows, v.sub, id);
    }
  }

  lemma BuryFor(v: View, s: Sys, s': Sys, t: ActId, ok: bool, g: G.Gate)
    requires Sim(v, s, g) && Provenance(s) && Ownership(s) && Delivery(s) && Settles(s, s', t, ok)
    requires HeldFor(s, t, v.sub) && FailStatus(HandAt(s, t).attempts + 1).Failed?
    ensures G.Enabled(g, G.Bury(ok))
    ensures Sim(v, s', G.Apply(v.fp, g, G.Bury(ok)).(hand := None))
  {
    var id, fate := HandAt(s, t).job.row, g.hand.value.fate;
    assert HandSim(v, s.rows, HandAt(s, t), g.hand.value) && JobSound(s, HandAt(s, t).job);
    Emptied(v, s, s', t);
    if fate.Lapsed? || !ok {
      assert forall other :: PendingFor(s'.rows, v.sub, other) <==> PendingFor(s.rows, v.sub, other);
    } else {
      OnePendingFor(s.rows, v.sub, id);
      assert forall other :: PendingFor(s'.rows, v.sub, other) ==> PendingFor(s.rows, v.sub, other) && other != id;
    }
  }

  lemma SettleOther(v: View, s: Sys, s': Sys, t: ActId, ok: bool, g: G.Gate)
    requires Sim(v, s, g) && Provenance(s) && Settles(s, s', t, ok) && !HeldFor(s, t, v.sub)
    ensures Sim(v, s', g)
  {
    var id := HandAt(s, t).job.row;
    assert JobSound(s, HandAt(s, t).job);
    OthersSameHands(s, s', t, v.sub);
    JobsAreSound(s, v.sub);
    TableSameRows(s.rows, v.sub);
    if s'.rows != s.rows {
      OtherRow(s.rows, id, s'.rows[id], v.sub);
      OtherJobs(s, id, s'.rows[id], v.sub);
    }
    Unconcerned(v, s, s', g);
  }

  /** A reply that is not given up for dead. */
  lemma SettleSim(v: View, s: Sys, s': Sys, t: ActId, ok: bool, g: G.Gate)
    requires Sim(v, s, g) && Provenance(s) && Ownership(s) && Delivery(s) && Settles(s, s', t, ok)
    requires HeldFor(s, t, v.sub) ==> FailStatus(HandAt(s, t).attempts + 1).Pending?
    ensures Follows(v, g, When(HeldFor(s, t, v.sub), AfterMiss(s, s', HandAt(s, t), ok)), s')
  {
    if !HeldFor(s, t, v.sub) {
      SettleOther(v, s, s', t, ok, g);
    } else if !ok {
      assert HandSim(v, s.rows, HandAt(s, t), g.hand.value);
      Emptied(v, s, s', t);
    } else {
      RetryFor(v, s, s', t, g);
    }
  }

  // ---- expiry and pruning ----

  lemma ExpireFate(v: View, s: Sys, s': Sys, job: Job, fate: G.Fate, slot: Ask)
    requires Provenance(s) && Retires(s, s') && JobSound(s, job) && job.sub == v.sub && FateSim(v, s.rows, job, fate)
    requires SlotSim(v, s.rows, Some(slot)) && forall id :: !PendingFor(s'.rows, v.sub, id)
    ensures FateSim(v, s'.rows, job, if fate.Lapsed? then fate else G.Lapsed(slot))
  {
    assert !PendingFor(s'.rows, v.sub, job.row);
    if !fate.Lapsed? {
      assert PendingFor(s.rows, v.sub, job.row);
    }
  }

  lemma ExpireFor(v: View, s: Sys, s': Sys, g: G.Gate)
    requires Sim(v, s, g) && Provenance(s) && Retires(s, s') && g.slot.Some?
    requires forall id :: !PendingFor(s'.rows, v.sub, id)
    ensures Sim(v, s', G.Apply(v.fp, g, G.Expire))
  {
    var g' := G.Apply(v.fp, g, G.Expire);
    assert SameHands(s, s', v.sub);
    forall u | HeldFor(s', u, v.sub) ensures g'.hand.Some? && HandSim(v, s'.rows, HandAt(s', u), g'.hand.value) {
      assert HeldFor(s, u, v.sub) && JobSound(s, HandAt(s, u).job);
      ExpireFate(v, s, s', HandAt(s, u).job, g.hand.value.fate, g.slot.value);
    }
    if g'.hand.Some? {
      var u :| HeldFor(s, u, v.sub);
      assert HeldFor(s', u, v.sub);
    }
  }

  lemma RetireOther(v: View, s: Sys, s': Sys, g: G.Gate)
    requires Sim(v, s, g) && Provenance(s) && Retires(s, s')
    requires forall id :: PendingFor(s.rows, v.sub, id) ==> PendingFor(s'.rows, v.sub, id)
    ensures Sim(v, s', g)
  {
    assert SameRows(s.rows, s'.rows, v.sub);
    JobsAreSound(s, v.sub);
    assert JobsSound(s, s'.rows, v.sub);
    Unconcerned(v, s, s', g);
  }

  lemma RetireSim(v: View, s: Sys, s': Sys, g: G.Gate)
    requires Sim(v, s, g) && Provenance(s) && Retires(s, s')
    ensures Follows(v, g, When(Expires(s, s', v.sub), G.Expire), s')
  {
    if Expires(s, s', v.sub) {
      var gone :| PendingFor(s.rows, v.sub, gone) && !PendingFor(s'.rows, v.sub, gone);
      OnePendingFor(s.rows, v.sub, gone);
      assert forall id :: PendingFor(s'.rows, v.sub, id) ==> PendingFor(s.rows, v.sub, id) && id != gone;
      ExpireFor(v, s, s', g);
    } else {
      RetireOther(v, s, s', g);
    }
  }
}
