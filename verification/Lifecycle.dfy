/**
internal/model/submission.go and the calls that move a submission through its states:
ingestEmailInner, persistBounce, escalate and closeQuiet of internal/service/submissions.go.
Times are nanoseconds since 1970.
*/
module Lifecycle {
  import opened Checklist

  type Time = nat

  datatype State = Open | Awaiting | Complete | Escalated | Closed

  predicate Allowed(from: State, to: State) {
    match from
    case Open => to != Open
    case Awaiting => to != Open
    case Complete => to == Awaiting || to == Closed
    case Escalated => to == Awaiting || to == Complete || to == Closed
    case Closed => to == Awaiting || to == Complete
  }

  datatype Stamps = Stamps(
    state: State,
    updatedAt: Time,
    lastActionAt: Time,
    escalatedAt: Option<Time>,
    completedAt: Option<Time>
  )

  function Moved(s: Stamps, next: State, now: Time): Stamps {
    if s.state == next then s.(updatedAt := now)
    else if !Allowed(s.state, next) then s
    else Stamps(
           next, now, now,
           if next == Escalated then Some(now)
           else if next == Complete || next == Awaiting then None
           else s.escalatedAt,
           if next == Complete then Some(now) else if next == Awaiting then None else s.completedAt)
  }

  function Acted(s: Stamps, now: Time): Stamps {
    s.(updatedAt := now, lastActionAt := now)
  }

  class Submission {
    var state: State
    var updatedAt: Time
    var lastActionAt: Time
    var escalatedAt: Option<Time>
    var completedAt: Option<Time>

    function View(): Stamps
      reads this
    {
      Stamps(state, updatedAt, lastActionAt, escalatedAt, completedAt)
    }

    constructor (now: Time)
      ensures View() == Stamps(Open, now, now, None, None)
    {
      state, updatedAt, lastActionAt, escalatedAt, completedAt := Open, now, now, None, None;
    }

    /** A submission as a query returns it. */
    constructor Load(s: Stamps)
      ensures View() == s
    {
      state, updatedAt, lastActionAt := s.state, s.updatedAt, s.lastActionAt;
      escalatedAt, completedAt := s.escalatedAt, s.completedAt;
    }

    /** Reports failure, and changes nothing, exactly when the move is not allowed. */
    method TransitionTo(next: State, now: Time) returns (ok: bool)
      modifies this
      ensures View() == Moved(old(View()), next, now)
      ensures ok <==> old(state) == next || (next != Open && (next == Escalated ==> old(state) in {Open, Awaiting}))
      ensures !ok ==> View() == old(View())
      ensures ok && old(state) == next ==> View() == old(View()).(updatedAt := now)
      ensures ok && old(state) != next ==> state == next && updatedAt == lastActionAt == now
      ensures ok && old(state) != next ==>
        escalatedAt == if next == Escalated then Some(now) else if next == Closed then old(escalatedAt) else None
      ensures ok && old(state) != next ==>
        completedAt == if next == Complete then Some(now) else if next == Awaiting then None else old(completedAt)
    {
      if state == next {
        updatedAt := now;
        return true;
      }
      if !Allowed(state, next) {
        return false;
      }
      state := next;
      updatedAt := now;
      lastActionAt := now;
      ok := true;
      match next {
        case Escalated =>
          escalatedAt := Some(now);
        case Complete =>
          escalatedAt, completedAt := None, Some(now);
        case Awaiting =>
          escalatedAt, completedAt := None, None;
        case _ =>
      }
    }

    method MarkAction(now: Time)
      modifies this
      ensures View() == Acted(old(View()), now)
      ensures View() == old(View()).(updatedAt := now, lastActionAt := now)
    {
      updatedAt := now;
      lastActionAt := now;
    }
  }

  /** A row of the submissions table, as far as the sweeps look at it. */
  datatype Case = Case(
    stamps: Stamps,
    lastEscalatedAt: Option<Time>,
    onHold: bool,
    deliveryFailed: bool,
    policyType: string,
    effectiveDate: Option<Time>,
    missing: seq<MissingItem>
  )

  /** An ingested email: the activity clock, except for automated mail, then complete or awaiting. */
  function Ingested(c: Case, now: Time, mark: bool, missing: seq<MissingItem>): Case {
    var s := if mark then Acted(c.stamps, now) else c.stamps;
    var next := if |missing| == 0 then Complete else Awaiting;
    c.(stamps := Moved(s, next, now), deliveryFailed := false, missing := missing)
  }

  function Nudged(c: Case, now: Time): Case {
    c.(stamps := Moved(c.stamps, Escalated, now), lastEscalatedAt := Some(now))
  }

  function Shut(c: Case, now: Time): Case {
    c.(stamps := Moved(c.stamps, Closed, now))
  }

  /** What the stamps of every reachable submission say about its state. */
  predicate Dated(s: Stamps) {
    && (s.state == Escalated ==> s.escalatedAt == Some(s.lastActionAt))
    && (s.state == Complete ==> s.completedAt.Some?)
    && (s.state == Awaiting || s.state == Open ==> s.escalatedAt.None? && s.completedAt.None?)
  }

  /** Every state accepts an inbound email, and lands in complete or awaiting whatever it was. */
  lemma IngestAlwaysLands(c: Case, now: Time, mark: bool, missing: seq<MissingItem>)
    requires Dated(c.stamps)
    ensures Dated(Ingested(c, now, mark, missing).stamps)
    ensures Ingested(c, now, mark, missing).stamps.state == if |missing| == 0 then Complete else Awaiting
  {
  }

  /**
  In full: a state that does not change keeps its stamps, but for the activity clock of mail that is not
  automated; a new one is dated now, and nothing else of the row changes but the missing items and the
  bounce flag.
  */
  lemma IngestInPlainTerms(c: Case, now: Time, mark: bool, missing: seq<MissingItem>)
    ensures var s, next := c.stamps, if missing == [] then Complete else Awaiting;
      Ingested(c, now, mark, missing) ==
      c.(deliveryFailed := false, missing := missing,
         stamps := if s.state == next
                   then s.(updatedAt := now, lastActionAt := if mark then now else s.lastActionAt)
                   else Stamps(next, now, now, None, if next == Complete then Some(now) else None))
  {
  }
}
