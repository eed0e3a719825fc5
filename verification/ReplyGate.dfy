/**
The repeat gate of ingestEmailInner in internal/service/submissions.go, for one submission:
a reply is queued only when its fingerprint differs from the last one queued. A follow-up
overwrites the reply still waiting; a sender takes the waiting text into its hand, the online
path at the commit and the sweeper when it re-reads the row, and sends what it took, whatever
has been written since. A dead letter clears the fingerprint; an expiry, by age or because a
hold ends, does not.

The gate works with any fingerprint that tells asks apart; `DigestTellsApart` says that a
digest of Fingerprint.Print is one.
*/
module ReplyGate {
  import opened Checklist
  import opened Decisions
  import opened Fingerprint

  type Hash = Ask -> string

  /** Same ask, same fingerprint; without zero octets the other way round too. Never the empty string. */
  ghost predicate TellsApart(fp: Hash) {
    && (forall a, b :: SameAsk(a, b) ==> fp(a) == fp(b))
    && (forall a, b :: Clean(a) && Clean(b) && fp(a) == fp(b) ==> SameAsk(a, b))
    && (forall a :: fp(a) != "")
  }

  /** Every digest that maps different strings to different, non-empty strings will do. */
  lemma DigestTellsApart(digest: string -> string)
    requires forall s, t :: digest(s) == digest(t) ==> s == t
    requires forall s :: digest(s) != ""
    ensures TellsApart(a => digest(Print(a)))
  {
    forall a, b | SameAsk(a, b) ensures Print(a) == Print(b) {
      SameAskSamePrint(a, b);
    }
    forall a, b | Clean(a) && Clean(b) && Print(a) == Print(b) ensures SameAsk(a, b) {
      SamePrintSameAsk(a, b);
    }
  }

  // ---- the gate ----

  /** An entry of the history: a reply was queued, or the fingerprint was cleared. */
  datatype Entry = Queued(ask: Ask) | Cleared

  /** What became of the row since its text was taken: nothing, a follow-up overwrote it, or it expired. */
  datatype Fate = Current | Coalesced | Lapsed(text: Ask)

  /** In hand; sent and still to be marked; given up for dead with the fingerprint still to be cleared. */
  datatype Phase = Holding | Sent | Buried

  datatype Hand = Hand(ask: Ask, online: bool, fate: Fate, phase: Phase)

  /** `slot` is the text of the submission's pending row; `hand` what its one sender holds. */
  datatype Gate = Gate(last: string, slot: Option<Ask>, hand: Option<Hand>, delivered: seq<Ask>, history: seq<Entry>)

  const NEW_GATE := Gate("", None, None, [], [])

  datatype Step =
    | Ingest(ask: Ask, take: bool)   // `take`: the online path keeps the claim and the text
    | TakeUp                         // the sweeper re-reads the pending row under its claim
    | Send
    | Mark                           // the mark-sent runs
    | LoseMark                       // it does not
    | GiveUp                         // the send failed, or was not tried, and the row is left as it is
    | Revive                         // the sweeper's failing send writes an expired row back to pending
    | Bury(written: bool)            // the sweeper's last failing send; `written`: the row is marked failed
    | Clear(done: bool)              // and the fingerprint is cleared
    | Expire
    | Crash

  predicate Holds(g: Gate, phase: Phase) {
    g.hand.Some? && g.hand.value.phase == phase
  }

  predicate Enabled(g: Gate, step: Step) {
    match step
    case Ingest(_, take) => take ==> g.hand.None?
    case TakeUp => g.hand.None? && g.slot.Some?
    case Send => Holds(g, Holding)
    case Mark => Holds(g, Sent)
    case LoseMark => Holds(g, Sent)
    case GiveUp => Holds(g, Holding)
    case Revive => Holds(g, Holding) && !g.hand.value.online && g.hand.value.fate.Lapsed? && g.slot.None?
    case Bury(_) => Holds(g, Holding) && !g.hand.value.online
    case Clear(_) => Holds(g, Buried)
    case Expire => g.slot.Some?
    case Crash => true
  }

  predicate Dropped(fp: Hash, g: Gate, ask: Ask) {
    fp(ask) == g.last
  }

  function Fated(hand: Option<Hand>, fate: Fate): Option<Hand> {
    if hand.Some? then Some(hand.value.(fate := fate)) else None
  }

  function Queue(fp: Hash, g: Gate, ask: Ask, take: bool): Gate {
    var hand := if take then Some(Hand(ask, true, Current, Holding))
                else if g.hand.Some? && g.hand.value.fate.Current? then Fated(g.hand, Coalesced)
                else g.hand;
    g.(last := fp(ask), slot := Some(ask), hand := hand, history := g.history + [Queued(ask)])
  }

  function Apply(fp: Hash, g: Gate, step: Step): Gate
    requires Enabled(g, step)
  {
    match step
    case Ingest(ask, take) => if Dropped(fp, g, ask) then g else Queue(fp, g, ask, take)
    case TakeUp => g.(hand := Some(Hand(g.slot.value, false, Current, Holding)))
    case Send =>
      g.(hand := Some(g.hand.value.(phase := Sent)), delivered := g.delivered + [g.hand.value.ask])
    case Mark => g.(hand := None, slot := if g.hand.value.fate.Current? then None else g.slot)
    case LoseMark => g.(hand := None)
    case GiveUp => g.(hand := None)
    case Revive => g.(hand := None, slot := Some(g.hand.value.fate.text))
    case Bury(written) =>
      g.(hand := Some(g.hand.value.(phase := Buried)),
         slot := if written && !g.hand.value.fate.Lapsed? then None else g.slot)
    case Clear(done) =>
      if done then g.(hand := None, last := "", history := g.history + [Cleared]) else g.(hand := None)
    case Expire =>
      var lapsed := g.hand.Some? && g.hand.value.fate.Lapsed?;
      g.(slot := None, hand := if lapsed then g.hand else Fated(g.hand, Lapsed(g.slot.value)))
    case Crash => g.(hand := None)
  }

  function Front(steps: seq<Step>): seq<Step>
    requires |steps| > 0
  {
    steps[..|steps| - 1]
  }

  function Final(steps: seq<Step>): Step
    requires |steps| > 0
  {
    steps[|steps| - 1]
  }

  /** The gate after these steps, from a new submission on; a step that cannot happen changes nothing. */
  function RunTo(fp: Hash, steps: seq<Step>): Gate {
    if |steps| == 0 then NEW_GATE
    else
      var g := RunTo(fp, Front(steps));
      if Enabled(g, Final(steps)) then Apply(fp, g, Final(steps)) else g
  }

  predicate CanRun(fp: Hash, steps: seq<Step>) {
    |steps| == 0 || (CanRun(fp, Front(steps)) && Enabled(RunTo(fp, Front(steps)), Final(steps)))
  }

  predicate AllClean(steps: seq<Step>) {
    forall i :: 0 <= i < |steps| ==> steps[i].Ingest? ==> Clean(steps[i].ask)
  }

  // ---- what is queued ----

  predicate Repeats(a: Entry, b: Entry) {
    a.Queued? && b.Queued? && SameAsk(a.ask, b.ask)
  }

  /** No two neighbours ask the same. */
  predicate Calm(h: seq<Entry>) {
    && (forall i :: 0 <= i < |h| - 1 ==> !Repeats(h[i], h[i + 1]))
    && (forall i :: 0 <= i < |h| ==> h[i].Queued? ==> Clean(h[i].ask))
  }

  function Last(g: Gate): Entry
    requires |g.history| > 0
  {
    g.history[|g.history| - 1]
  }

  /** The fingerprint is that of the last entry. */
  predicate Consistent(fp: Hash, g: Gate) {
    && g.last == (if |g.history| > 0 && Last(g).Queued? then fp(Last(g).ask) else "")
    && Calm(g.history)
  }

  lemma CalmOn(h: seq<Entry>, e: Entry)
    requires Calm(h) && (|h| > 0 ==> !Repeats(h[|h| - 1], e)) && (e.Queued? ==> Clean(e.ask))
    ensures Calm(h + [e])
  {
  }

  lemma StepKeeps(fp: Hash, g: Gate, step: Step)
    requires TellsApart(fp) && Consistent(fp, g) && Enabled(g, step) && (step.Ingest? ==> Clean(step.ask))
    ensures Consistent(fp, Apply(fp, g, step))
  {
    match step
    case Ingest(ask, take) =>
      if !Dropped(fp, g, ask) {
        CalmOn(g.history, Queued(ask));
      }
    case Clear(done) =>
      if done {
        CalmOn(g.history, Cleared);
      }
    case _ =>
  }

  lemma {:induction false} RunKeeps(fp: Hash, steps: seq<Step>)
    requires TellsApart(fp) && AllClean(steps)
    ensures Consistent(fp, RunTo(fp, steps))
  {
    if |steps| > 0 {
      var g := RunTo(fp, Front(steps));
      RunKeeps(fp, Front(steps));
      if Enabled(g, Final(steps)) {
        StepKeeps(fp, g, Final(steps));
      }
    }
  }

  /**
  In every run, two replies queued one after the other ask for different things, unless a dead
  letter came between.
  */
  lemma NoRepeatIsQueued(fp: Hash, steps: seq<Step>, i: nat)
    requires TellsApart(fp) && CanRun(fp, steps) && AllClean(steps)
    requires i + 1 < |RunTo(fp, steps).history|
    ensures !Repeats(RunTo(fp, steps).history[i], RunTo(fp, steps).history[i + 1])
  {
    RunKeeps(fp, steps);
  }

  /** And nothing else is dropped: a reply is held back exactly when it asks what the last queued one asked. */
  lemma DroppedIffRepeat(fp: Hash, steps: seq<Step>, ask: Ask)
    requires TellsApart(fp) && CanRun(fp, steps) && AllClean(steps) && Clean(ask)
    ensures var g := RunTo(fp, steps);
      Dropped(fp, g, ask) <==> |g.history| > 0 && Repeats(Last(g), Queued(ask))
  {
    RunKeeps(fp, steps);
  }

  // ---- what is delivered, read off the steps ----

  /** The latest ask, unless the fingerprint was cleared since. */
  function Standing(steps: seq<Step>): Option<Ask> {
    if |steps| == 0 then None
    else
      match Final(steps)
      case Ingest(ask, _) => Some(ask)
      case Clear(done) => if done then None else Standing(Front(steps))
      case _ => Standing(Front(steps))
  }

  /** The last step asks something else than what stood before it. */
  predicate AsksAnew(steps: seq<Step>) {
    && |steps| > 0 && Final(steps).Ingest?
    && (Standing(Front(steps)).Some? ==> !SameAsk(Standing(Front(steps)).value, Final(steps).ask))
  }

  /** The last step takes up a text: the sweeper's, or the online path's own. */
  predicate Takes(steps: seq<Step>) {
    |steps| > 0 && (Final(steps).TakeUp? || (AsksAnew(steps) && Final(steps).take))
  }

  predicate EndsHand(step: Step) {
    step.Mark? || step.LoseMark? || step.GiveUp? || step.Revive? || step.Clear? || step.Crash?
  }

  /** The latest new ask; a row written back to pending brings back what was latest when it expired. */
  function Latest(steps: seq<Step>): Option<Ask> {
    if |steps| == 0 then None
    else if AsksAnew(steps) then Some(Final(steps).ask)
    else if Final(steps).Revive? then AtExpiry(Front(steps))
    else Latest(Front(steps))
  }

  /** What was latest at the first expiry since the last take-up. */
  function AtExpiry(steps: seq<Step>): Option<Ask> {
    if |steps| == 0 || Takes(steps) then None
    else if Final(steps).Expire? && AtExpiry(Front(steps)).None? then Latest(Front(steps))
    else AtExpiry(Front(steps))
  }

  /** What was latest when the text in hand was taken up. */
  function AtTakeUp(steps: seq<Step>): Option<Ask> {
    if |steps| == 0 then None
    else if Takes(steps) then Latest(steps)
    else if EndsHand(Final(steps)) then None
    else AtTakeUp(Front(steps))
  }

  /** For each send, what was latest at its take-up. */
  function TakenUp(steps: seq<Step>): seq<Ask> {
    if |steps| == 0 then []
    else
      var before := TakenUp(Front(steps));
      if Final(steps).Send? && AtTakeUp(Front(steps)).Some? then before + [AtTakeUp(Front(steps)).value] else before
  }

  predicate Alike(a: Option<Ask>, b: Option<Ask>) {
    a.Some? && b.Some? && SameAsk(a.value, b.value)
  }

  predicate TracksHand(h: Hand, slot: Option<Ask>, expired: Option<Ask>) {
    h.phase != Buried ==>
      if h.fate.Lapsed? then Alike(Some(h.fate.text), expired) else expired.None? && slot.Some?
  }

  /** The gate's fields in terms of the steps. */
  predicate Tracks(fp: Hash, steps: seq<Step>, g: Gate) {
    && g.last == (if Standing(steps).Some? then fp(Standing(steps).value) else "")
    && (g.slot.Some? ==> Alike(g.slot, Latest(steps)))
    && (g.hand.Some? <==> AtTakeUp(steps).Some?)
    && (g.hand.Some? ==> Alike(Some(g.hand.value.ask), AtTakeUp(steps)))
    && (g.hand.Some? ==> TracksHand(g.hand.value, g.slot, AtExpiry(steps)))
  }

  lemma {:induction false} StandingIsClean(steps: seq<Step>)
    requires AllClean(steps) && Standing(steps).Some?
    ensures Clean(Standing(steps).value)
  {
    if !Final(steps).Ingest? {
      StandingIsClean(Front(steps));
    }
  }

  /** The gate drops exactly the asks that are not new. */
  lemma DropsTheOld(fp: Hash, steps: seq<Step>, g: Gate)
    requires TellsApart(fp) && AllClean(steps) && |steps| > 0 && Final(steps).Ingest?
    requires Tracks(fp, Front(steps), g)
    ensures Dropped(fp, g, Final(steps).ask) <==> !AsksAnew(steps)
  {
    assert Clean(Final(steps).ask);
    if Standing(Front(steps)).Some? {
      StandingIsClean(Front(steps));
    }
  }

  lemma TrackAsk(fp: Hash, steps: seq<Step>, g: Gate)
    requires TellsApart(fp) && AllClean(steps) && |steps| > 0 && Final(steps).Ingest?
    requires Tracks(fp, Front(steps), g) && Enabled(g, Final(steps))
    ensures Tracks(fp, steps, Apply(fp, g, Final(steps)))
  {
    DropsTheOld(fp, steps, g);
  }

  lemma TrackSender(fp: Hash, steps: seq<Step>, g: Gate)
    requires |steps| > 0 && (Final(steps).TakeUp? || Final(steps).Send? || Final(steps).Expire?)
    requires Tracks(fp, Front(steps), g) && Enabled(g, Final(steps))
    ensures Tracks(fp, steps, Apply(fp, g, Final(steps)))
  {
  }

  lemma TrackEnd(fp: Hash, steps: seq<Step>, g: Gate)
    requires |steps| > 0 && (EndsHand(Final(steps)) || Final(steps).Bury?)
    requires Tracks(fp, Front(steps), g) && Enabled(g, Final(steps))
    ensures Tracks(fp, steps, Apply(fp, g, Final(steps)))
  {
  }

  lemma {:induction false} TrackRun(fp: Hash, steps: seq<Step>)
    requires TellsApart(fp) && CanRun(fp, steps) && AllClean(steps)
    ensures Tracks(fp, steps, RunTo(fp, steps))
  {
    if |steps| > 0 {
      var g := RunTo(fp, Front(steps));
      TrackRun(fp, Front(steps));
      if Final(steps).Ingest? {
        TrackAsk(fp, steps, g);
      } else if EndsHand(Final(steps)) || Final(steps).Bury? {
        TrackEnd(fp, steps, g);
      } else {
        TrackSender(fp, steps, g);
      }
    }
  }

  /** A step delivers what is in hand, or nothing. */
  lemma OneDelivery(fp: Hash, steps: seq<Step>, g: Gate)
    requires |steps| > 0 && Tracks(fp, Front(steps), g) && Enabled(g, Final(steps))
    ensures var g' := Apply(fp, g, Final(steps));
      if Final(steps).Send? then
        && AtTakeUp(Front(steps)).Some? && SameAsk(g.hand.value.ask, AtTakeUp(Front(steps)).value)
        && g'.delivered == g.delivered + [g.hand.value.ask]
      else g'.delivered == g.delivered
  {
  }

  /** In every run each delivery asks what was latest when its text was taken up. */
  lemma {:induction false} DeliveredIsTakenUp(fp: Hash, steps: seq<Step>)
    requires TellsApart(fp) && CanRun(fp, steps) && AllClean(steps)
    ensures var delivered, taken := RunTo(fp, steps).delivered, TakenUp(steps);
      |delivered| == |taken| && forall k :: 0 <= k < |taken| ==> SameAsk(delivered[k], taken[k])
  {
    if |steps| > 0 {
      DeliveredIsTakenUp(fp, Front(steps));
      TrackRun(fp, Front(steps));
      OneDelivery(fp, steps, RunTo(fp, Front(steps)));
    }
  }

  /**
  So in every run the broker gets the same request twice in a row exactly when the same ask was
  latest at the two take-ups, whatever was asked, sent, lost, buried or expired in between.
  */
  lemma DeliveredTwiceIff(fp: Hash, steps: seq<Step>, k: nat)
    requires TellsApart(fp) && CanRun(fp, steps) && AllClean(steps)
    requires k + 1 < |RunTo(fp, steps).delivered|
    ensures k + 1 < |TakenUp(steps)|
    ensures var delivered, taken := RunTo(fp, steps).delivered, TakenUp(steps);
      SameAsk(delivered[k], delivered[k + 1]) <==> SameAsk(taken[k], taken[k + 1])
  {
    DeliveredIsTakenUp(fp, steps);
  }

  // ---- when a reply waits ----

  /** The step at which the text in hand was taken up. */
  function TakenAt(steps: seq<Step>): Option<nat> {
    if |steps| == 0 then None
    else if Takes(steps) then Some(|steps| - 1)
    else if EndsHand(Final(steps)) then None
    else TakenAt(Front(steps))
  }

  predicate ExpiredBetween(steps: seq<Step>, t: nat, q: nat)
    requires q <= |steps|
  {
    exists e :: t < e < q && steps[e].Expire?
  }

  /** A reply starts to wait: something new is asked, or an expired row is written back. */
  predicate Starts(steps: seq<Step>, p: nat)
    requires p < |steps|
  {
    AsksAnew(steps[..p + 1]) || steps[p].Revive?
  }

  /**
  A reply that waits since p is settled: it expires, a text taken up no earlier than p is marked, or
  the sender buries its row, which it does unless that has expired.
  */
  predicate Settles(steps: seq<Step>, p: nat, q: nat)
    requires q < |steps|
  {
    var taken := TakenAt(steps[..q]);
    match steps[q]
    case Expire => true
    case Mark => taken.Some? && taken.value >= p
    case Bury(written) => written && taken.Some? && !ExpiredBetween(steps, taken.value, q)
    case _ => false
  }

  predicate Alive(steps: seq<Step>, p: nat)
    requires p < |steps|
  {
    Starts(steps, p) && forall q :: p < q < |steps| ==> !Settles(steps, p, q)
  }

  predicate Waits(steps: seq<Step>) {
    exists p :: 0 <= p < |steps| && Alive(steps, p)
  }

  lemma PrefixOfFront(steps: seq<Step>, q: nat)
    requires |steps| > 0 && q < |steps|
    ensures Front(steps)[..q] == steps[..q]
  {
  }

  lemma SettlesInFront(steps: seq<Step>, p: nat, q: nat)
    requires |steps| > 0 && q < |steps| - 1
    ensures Settles(steps, p, q) <==> Settles(Front(steps), p, q)
  {
    PrefixOfFront(steps, q);
    var taken := TakenAt(steps[..q]);
    if taken.Some? {
      assert forall e :: 0 <= e < q ==> Front(steps)[e] == steps[e];
      assert ExpiredBetween(steps, taken.value, q) <==> ExpiredBetween(Front(steps), taken.value, q);
    }
  }

  lemma StartsInFront(steps: seq<Step>, p: nat)
    requires |steps| > 0 && p < |steps| - 1
    ensures Starts(steps, p) <==> Starts(Front(steps), p)
  {
    PrefixOfFront(steps, p + 1);
  }

  lemma AliveInFront(steps: seq<Step>, p: nat)
    requires |steps| > 0 && p < |steps| - 1
    ensures Alive(steps, p) <==> Alive(Front(steps), p) && !Settles(steps, p, |steps| - 1)
  {
    StartsInFront(steps, p);
    forall q | p < q < |steps| - 1 ensures Settles(steps, p, q) <==> Settles(Front(steps), p, q) {
      SettlesInFront(steps, p, q);
    }
  }

  /** What waits after a step: what it starts, or what waited and is not settled. */
  lemma WaitsAfter(steps: seq<Step>)
    requires |steps| > 0
    ensures Waits(steps) <==>
      || Starts(steps, |steps| - 1)
      || exists p :: 0 <= p < |steps| - 1 && Alive(Front(steps), p) && !Settles(steps, p, |steps| - 1)
  {
    var n := |steps| - 1;
    if Starts(steps, n) {
      assert Alive(steps, n);
    } else if Waits(steps) {
      var p :| 0 <= p < |steps| && Alive(steps, p);
      AliveInFront(steps, p);
    } else {
      forall p | 0 <= p < n && Alive(Front(steps), p) ensures Settles(steps, p, n) {
        AliveInFront(steps, p);
      }
    }
  }

  predicate StartedSince(steps: seq<Step>, t: nat) {
    exists p :: t < p < |steps| && Alive(steps, p)
  }

  /** The row's fate in terms of the steps since its text was taken up at t. */
  predicate TracksFate(steps: seq<Step>, fate: Fate, t: nat) {
    match fate
    case Lapsed(_) => ExpiredBetween(steps, t, |steps|)
    case Current => !ExpiredBetween(steps, t, |steps|) && forall p :: t < p < |steps| ==> !Starts(steps, p)
    case Coalesced => !ExpiredBetween(steps, t, |steps|) && StartedSince(steps, t)
  }

  predicate TracksWait(steps: seq<Step>, g: Gate) {
    && (g.slot.Some? <==> Waits(steps))
    && (g.hand.Some? <==> TakenAt(steps).Some?)
    && (g.hand.Some? ==> TakenAt(steps).value < |steps|)
    && (g.hand.Some? && g.hand.value.phase != Buried ==> TracksFate(steps, g.hand.value.fate, TakenAt(steps).value))
  }

  lemma FinalSettles(steps: seq<Step>, p: nat)
    requires |steps| > 0
    ensures var n, taken := |steps| - 1, TakenAt(Front(steps));
      Settles(steps, p, n) <==>
      match Final(steps)
      case Expire => true
      case Mark => taken.Some? && taken.value >= p
      case Bury(written) => written && taken.Some? && !ExpiredBetween(Front(steps), taken.value, n)
      case _ => false
  {
    var n, taken := |steps| - 1, TakenAt(Front(steps));
    assert steps[..n] == Front(steps);
    if taken.Some? {
      assert forall e :: 0 <= e < n ==> Front(steps)[e] == steps[e];
      assert ExpiredBetween(steps, taken.value, n) <==> ExpiredBetween(Front(steps), taken.value, n);
    }
  }

  lemma FinalStarts(steps: seq<Step>)
    requires |steps| > 0
    ensures Starts(steps, |steps| - 1) <==> AsksAnew(steps) || Final(steps).Revive?
  {
    assert steps[..|steps|] == steps;
  }

  /** The last step neither settles nor starts anything. */
  predicate Idle(steps: seq<Step>) {
    && |steps| > 0 && !AsksAnew(steps)
    && !Final(steps).Expire? && !Final(steps).Mark? && !Final(steps).Bury? && !Final(steps).Revive?
  }

  lemma SameWait(steps: seq<Step>)
    requires Idle(steps)
    ensures Waits(steps) <==> Waits(Front(steps))
  {
    FinalStarts(steps);
    WaitsAfter(steps);
    if Waits(Front(steps)) {
      var p :| 0 <= p < |Front(steps)| && Alive(Front(steps), p);
      FinalSettles(steps, p);
    }
  }

  /** Whatever still waits after an expiry started after it. */
  lemma AliveSinceExpiry(steps: seq<Step>, t: nat, p: nat)
    requires p < |steps| && Alive(steps, p) && ExpiredBetween(steps, t, |steps|)
    ensures p > t
  {
    var e :| t < e < |steps| && steps[e].Expire?;
    assert e > p ==> Settles(steps, p, e);
  }

  lemma ExpiredOn(steps: seq<Step>, t: nat)
    requires |steps| > 0 && t < |steps| - 1
    ensures ExpiredBetween(steps, t, |steps|) <==>
            ExpiredBetween(Front(steps), t, |steps| - 1) || Final(steps).Expire?
  {
    assert forall e :: 0 <= e < |steps| - 1 ==> Front(steps)[e] == steps[e];
    if Final(steps).Expire? {
      assert steps[|steps| - 1].Expire?;
    }
  }

  /** An ask that is no longer new, or a send, leaves the row's fate as it is. */
  lemma SameFate(steps: seq<Step>, fate: Fate, t: nat)
    requires Idle(steps) && t < |steps| - 1 && TracksFate(Front(steps), fate, t)
    ensures TracksFate(steps, fate, t)
  {
    ExpiredOn(steps, t);
    FinalStarts(steps);
    match fate
    case Lapsed(_) =>
    case Current =>
      forall p | t < p < |steps| ensures !Starts(steps, p) {
        if p < |steps| - 1 {
          StartsInFront(steps, p);
        }
      }
    case Coalesced =>
      var p :| t < p < |Front(steps)| && Alive(Front(steps), p);
      FinalSettles(steps, p);
      AliveInFront(steps, p);
  }

  lemma WaitAtNewAsk(fp: Hash, steps: seq<Step>, g: Gate)
    requires |steps| > 0 && AsksAnew(steps) && !Dropped(fp, g, Final(steps).ask)
    requires TracksWait(Front(steps), g) && Enabled(g, Final(steps))
    ensures TracksWait(steps, Apply(fp, g, Final(steps)))
  {
    var n, g' := |steps| - 1, Apply(fp, g, Final(steps));
    FinalStarts(steps);
    WaitsAfter(steps);
    assert Alive(steps, n);
    if Final(steps).take {
      assert !ExpiredBetween(steps, n, |steps|);
    } else if g.hand.Some? {
      var t := TakenAt(Front(steps)).value;
      ExpiredOn(steps, t);
      assert StartedSince(steps, t);
    }
  }

  lemma WaitAtOldAsk(steps: seq<Step>, g: Gate)
    requires Idle(steps) && (Final(steps).Ingest? || Final(steps).Send?) && TracksWait(Front(steps), g)
    ensures TracksWait(steps, g)
  {
    SameWait(steps);
    if g.hand.Some? && g.hand.value.phase != Buried {
      SameFate(steps, g.hand.value.fate, TakenAt(Front(steps)).value);
    }
  }

  lemma WaitAtTakeUp(steps: seq<Step>, g: Gate)
    requires |steps| > 0 && Final(steps).TakeUp? && TracksWait(Front(steps), g) && g.slot.Some?
    ensures TracksWait(steps, g.(hand := Some(Hand(g.slot.value, false, Current, Holding))))
  {
    SameWait(steps);
    assert !ExpiredBetween(steps, |steps| - 1, |steps|);
  }

  lemma WaitAtExpiry(fp: Hash, steps: seq<Step>, g: Gate)
    requires |steps| > 0 && Final(steps).Expire? && TracksWait(Front(steps), g) && Enabled(g, Expire)
    ensures TracksWait(steps, Apply(fp, g, Expire))
  {
    var n := |steps| - 1;
    FinalStarts(steps);
    forall p | 0 <= p < n ensures Settles(steps, p, n) {
      FinalSettles(steps, p);
    }
    WaitsAfter(steps);
    if g.hand.Some? {
      ExpiredOn(steps, TakenAt(Front(steps)).value);
    }
  }

  /** The mark empties the slot exactly when nothing has been written since the take-up. */
  lemma WaitAtMark(steps: seq<Step>, g: Gate)
    requires |steps| > 0 && Final(steps).Mark? && TracksWait(Front(steps), g) && Holds(g, Sent)
    ensures Waits(steps) <==> Waits(Front(steps)) && !g.hand.value.fate.Current?
  {
    var t, n := TakenAt(Front(steps)).value, |steps| - 1;
    FinalStarts(steps);
    WaitsAfter(steps);
    forall p | 0 <= p < n ensures Settles(steps, p, n) <==> t >= p {
      FinalSettles(steps, p);
    }
    match g.hand.value.fate
    case Current =>
      assert forall p :: 0 <= p < n && Alive(Front(steps), p) ==> p <= t;
    case Coalesced =>
      var p :| t < p < n && Alive(Front(steps), p);
      assert !Settles(steps, p, n);
    case Lapsed(_) =>
      forall p | 0 <= p < n && Alive(Front(steps), p) ensures p > t {
        AliveSinceExpiry(Front(steps), t, p);
      }
  }

  lemma WaitAtBurial(steps: seq<Step>, g: Gate)
    requires |steps| > 0 && Final(steps).Bury? && TracksWait(Front(steps), g) && Holds(g, Holding)
    ensures Waits(steps) <==> Waits(Front(steps)) && !(Final(steps).written && !g.hand.value.fate.Lapsed?)
  {
    var t, n := TakenAt(Front(steps)).value, |steps| - 1;
    FinalStarts(steps);
    WaitsAfter(steps);
    forall p | 0 <= p < n ensures Settles(steps, p, n) <==> Final(steps).written && !g.hand.value.fate.Lapsed? {
      FinalSettles(steps, p);
    }
  }

  lemma WaitAtEnd(fp: Hash, steps: seq<Step>, g: Gate)
    requires |steps| > 0 && (EndsHand(Final(steps)) || Final(steps).Bury?)
    requires TracksWait(Front(steps), g) && Enabled(g, Final(steps))
    ensures TracksWait(steps, Apply(fp, g, Final(steps)))
  {
    match Final(steps)
    case Mark => WaitAtMark(steps, g);
    case Bury(_) => WaitAtBurial(steps, g);
    case Revive =>
      FinalStarts(steps);
      WaitsAfter(steps);
    case LoseMark => SameWait(steps);
    case GiveUp => SameWait(steps);
    case Clear(_) => SameWait(steps);
    case Crash => SameWait(steps);
  }

  lemma WaitStep(fp: Hash, steps: seq<Step>, g: Gate)
    requires TellsApart(fp) && AllClean(steps) && |steps| > 0
    requires Tracks(fp, Front(steps), g) && TracksWait(Front(steps), g) && Enabled(g, Final(steps))
    ensures TracksWait(steps, Apply(fp, g, Final(steps)))
  {
    match Final(steps)
    case Ingest(ask, take) =>
      DropsTheOld(fp, steps, g);
      if AsksAnew(steps) {
        WaitAtNewAsk(fp, steps, g);
      } else {
        WaitAtOldAsk(steps, g);
      }
    case Send => WaitAtOldAsk(steps, g);
    case TakeUp => WaitAtTakeUp(steps, g);
    case Expire => WaitAtExpiry(fp, steps, g);
    case _ => WaitAtEnd(fp, steps, g);
  }

  lemma {:induction false} WaitRun(fp: Hash, steps: seq<Step>)
    requires TellsApart(fp) && CanRun(fp, steps) && AllClean(steps)
    ensures TracksWait(steps, RunTo(fp, steps))
  {
    if |steps| > 0 {
      TrackRun(fp, Front(steps));
      WaitRun(fp, Front(steps));
      WaitStep(fp, steps, RunTo(fp, Front(steps)));
    }
  }

  /**
  In every run a reply waits in the outbox exactly when something new was asked, or an expired row
  written back, and since then it has not expired, no text taken up after it was marked, and its row
  was not buried. What waits is the latest new ask.
  */
  lemma WaitingIff(fp: Hash, steps: seq<Step>)
    requires TellsApart(fp) && CanRun(fp, steps) && AllClean(steps)
    ensures var g := RunTo(fp, steps);
      (g.slot.Some? <==> Waits(steps)) && (g.slot.Some? ==> Alike(g.slot, Latest(steps)))
  {
    TrackRun(fp, steps);
    WaitRun(fp, steps);
  }

  // ---- a run of the program in which that happens ----

  const LOSS_RUNS := Checklist.Item("loss_runs", "Loss runs", None)
  const CHECKLISTS: Checklists := map["gl" := [LOSS_RUNS]]
  const PLAIN := Inbound("gl", UNKNOWN, [], 0, false)
  const SPEAKS_OF_ATTACHING := PLAIN.(mentions := true)
  const CREATED := File("gl", [], 0, [])
  const ABSENT := MissingItem("loss_runs", "Loss runs", Absent, NotProvided, 0.0)
  const INCOMPLETE := File("gl", [], 0, [ABSENT])

  const FOR_LOSS_RUNS := Reply(Request, [ABSENT])
  const FOR_ATTACHMENT := Reply(Request, [AttachmentItem()])

  lemma NothingAttached(f: File, e: Inbound)
    requires f.policyType == "gl" && f.documents == [] && f.asks == 0 && e.documents == []
    ensures Evaluated(CHECKLISTS, 0.5, f, e, INCOMPLETE, false)
  {
    assert [LOSS_RUNS][..0] == [];
    assert MissingItems([], [], 0.5) == [];
    assert !Satisfied([], LOSS_RUNS, 0.5);
    assert MissingItems([], [LOSS_RUNS], 0.5) == [LOSS_RUNS];
    assert Reports([], LOSS_RUNS, 0.5, ABSENT);
  }

  lemma TwoDecisions(maxAsks: int)
    ensures Decision(INCOMPLETE, maxAsks, PLAIN, false) == Some(FOR_LOSS_RUNS)
    ensures Decision(INCOMPLETE, maxAsks, SPEAKS_OF_ATTACHING, false) == Some(FOR_ATTACHMENT)
  {
    assert [ABSENT][..0] == [];
    assert BrokerItems([]) == [];
    assert BrokerItems([ABSENT]) == [ABSENT];
  }

  lemma OneWant(kind: Kind, m: MissingItem)
    ensures AskOf(Reply(kind, [m])) == Ask(kind, [WantOf(m)])
  {
    var wants := Map(WantOf, [m]);
    assert |wants| == 1 && wants[0] == WantOf([m][0]);
  }

  lemma OtherId(v: Want, w: Want)
    requires v.id != w.id
    ensures multiset([v]) != multiset([w])
  {
    assert v in multiset([v]) && v !in multiset([w]);
  }

  lemma TwoAsks(fp: Hash)
    requires TellsApart(fp)
    ensures fp(AskOf(FOR_LOSS_RUNS)) != fp(AskOf(FOR_ATTACHMENT))
  {
    AsksAreClean(FOR_LOSS_RUNS);
    AsksAreClean(FOR_ATTACHMENT);
    OneWant(Request, ABSENT);
    OneWant(Request, AttachmentItem());
    assert |"loss_runs"| != |"missing_attachment"|;
    OtherId(WantOf(ABSENT), WantOf(AttachmentItem()));
  }

  lemma OneMore(fp: Hash, steps: seq<Step>, step: Step)
    requires CanRun(fp, steps) && Enabled(RunTo(fp, steps), step)
    ensures CanRun(fp, steps + [step]) && RunTo(fp, steps + [step]) == Apply(fp, RunTo(fp, steps), step)
  {
    assert Front(steps + [step]) == steps;
  }

  /** The online path sends the ask and marks its row. */
  function Online(a: Ask): seq<Step> {
    [Ingest(a, true), Send, Mark]
  }

  /** The sweeper sends what waits and marks its row. */
  const SWEEP := [TakeUp, Send, Mark]

  lemma SendOnline(fp: Hash, a: Ask)
    requires fp(a) != ""
    ensures CanRun(fp, Online(a)) && RunTo(fp, Online(a)) == Gate(fp(a), None, None, [a], [Queued(a)])
  {
    OneMore(fp, [], Ingest(a, true));
    OneMore(fp, [] + [Ingest(a, true)], Send);
    OneMore(fp, [] + [Ingest(a, true)] + [Send], Mark);
    assert [] + [Ingest(a, true)] + [Send] + [Mark] == Online(a);
  }

  lemma Follow(fp: Hash, steps: seq<Step>, b: Ask)
    requires CanRun(fp, steps) && RunTo(fp, steps).last != fp(b)
    ensures CanRun(fp, steps + [Ingest(b, false)])
    ensures RunTo(fp, steps + [Ingest(b, false)]) == Queue(fp, RunTo(fp, steps), b, false)
  {
    OneMore(fp, steps, Ingest(b, false));
  }

  lemma SendSwept(fp: Hash, steps: seq<Step>)
    requires CanRun(fp, steps) && RunTo(fp, steps).hand.None? && RunTo(fp, steps).slot.Some?
    ensures var g := RunTo(fp, steps);
      && CanRun(fp, steps + SWEEP)
      && RunTo(fp, steps + SWEEP) == g.(slot := None, delivered := g.delivered + [g.slot.value])
  {
    OneMore(fp, steps, TakeUp);
    OneMore(fp, steps + [TakeUp], Send);
    OneMore(fp, steps + [TakeUp] + [Send], Mark);
    assert steps + [TakeUp] + [Send] + [Mark] == steps + SWEEP;
  }

  lemma Overtaken(fp: Hash, a: Ask, b: Ask)
    requires fp(a) != fp(b) && fp(a) != ""
    ensures var steps := Online(a) + [Ingest(b, false)] + [Ingest(a, false)] + SWEEP;
      CanRun(fp, steps) && RunTo(fp, steps).delivered == [a, a]
  {
    SendOnline(fp, a);
    Follow(fp, Online(a), b);
    Follow(fp, Online(a) + [Ingest(b, false)], a);
    SendSwept(fp, Online(a) + [Ingest(b, false)] + [Ingest(a, false)]);
  }

  /** A second way: the follow-up comes while the first text waits for a worker, which then sends the older one. */
  lemma OvertakenInTheChannel(fp: Hash, a: Ask, b: Ask)
    requires fp(a) != fp(b) && fp(a) != ""
    ensures var steps := [Ingest(a, true)] + [Ingest(b, false)] + [Send] + [Mark] + [Ingest(a, false)] + SWEEP;
      CanRun(fp, steps) && RunTo(fp, steps).delivered == [a, a]
  {
    OneMore(fp, [], Ingest(a, true));
    var one := [Ingest(a, true)];
    assert [] + one == one;
    Follow(fp, one, b);
    OneMore(fp, one + [Ingest(b, false)], Send);
    OneMore(fp, one + [Ingest(b, false)] + [Send], Mark);
    Follow(fp, one + [Ingest(b, false)] + [Send] + [Mark], a);
    SendSwept(fp, one + [Ingest(b, false)] + [Send] + [Mark] + [Ingest(a, false)]);
  }

  /**
  A submission without documents, three emails without attachments, the second of them speaking
  of one: the loss runs are asked for and sent, the attachment is asked for, and before that goes
  out the loss runs are asked for again. The broker gets the request for the loss runs twice in a row.
  */
  lemma SameRequestTwice(fp: Hash, maxAsks: int)
    requires TellsApart(fp)
    ensures Evaluated(CHECKLISTS, 0.5, CREATED, PLAIN, INCOMPLETE, false)
    ensures Evaluated(CHECKLISTS, 0.5, INCOMPLETE, SPEAKS_OF_ATTACHING, INCOMPLETE, false)
    ensures Evaluated(CHECKLISTS, 0.5, INCOMPLETE, PLAIN, INCOMPLETE, false)
    ensures Decision(INCOMPLETE, maxAsks, PLAIN, false) == Some(FOR_LOSS_RUNS)
    ensures Decision(INCOMPLETE, maxAsks, SPEAKS_OF_ATTACHING, false) == Some(FOR_ATTACHMENT)
    ensures var a, b := AskOf(FOR_LOSS_RUNS), AskOf(FOR_ATTACHMENT);
      var steps := Online(a) + [Ingest(b, false)] + [Ingest(a, false)] + SWEEP;
      CanRun(fp, steps) && RunTo(fp, steps).delivered == [a, a]
  {
    NothingAttached(CREATED, PLAIN);
    NothingAttached(INCOMPLETE, SPEAKS_OF_ATTACHING);
    NothingAttached(INCOMPLETE, PLAIN);
    TwoDecisions(maxAsks);
    TwoAsks(fp);
    Overtaken(fp, AskOf(FOR_LOSS_RUNS), AskOf(FOR_ATTACHMENT));
  }
}
