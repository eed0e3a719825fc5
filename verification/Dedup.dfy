/**
Redelivered mail: resolveSubmission and cleanThreadRefs of internal/service/submissions.go
over FindByEmailReference, FindByDeterministicID and upsertEmailRow of
internal/repository/submissions.go. strings.TrimSpace is a parameter.
*/
module Dedup {
  import opened Strings

  type SubId = string
  type EmailId = string

  datatype Email = Email(sub: SubId, messageId: string, inReplyTo: string)

  /** The emails by deterministic id, when each submission was last updated, and all the other rows and columns. */
  datatype Store<R> = Store(emails: map<EmailId, Email>, updatedAt: map<SubId, int>, rest: R)

  datatype Request = Request(emailId: EmailId, messageId: string, inReplyTo: string, references: seq<string>)

  // ---- the email table ----

  /** ON CONFLICT DO NOTHING */
  function InsertIfAbsent(emails: map<EmailId, Email>, id: EmailId, e: Email): map<EmailId, Email> {
    if id in emails then emails else emails[id := e]
  }

  class EmailTable {
    var emails: map<EmailId, Email>

    constructor ()
      ensures emails == map[]
    {
      emails := map[];
    }

    method UpsertEmailRow(id: EmailId, e: Email) returns (duplicate: bool)
      modifies this
      ensures emails == InsertIfAbsent(old(emails), id, e)
      ensures duplicate <==> id in old(emails)
      ensures emails == if duplicate then old(emails) else old(emails)[id := e]
    {
      if id in emails {
        return true;
      }
      emails := emails[id := e];
      return false;
    }
  }

  // ---- the thread lookup ----

  function Cleaned(trim: string -> string, raw: seq<string>): seq<string> {
    if |raw| == 0 then []
    else
      var rest := Cleaned(trim, raw[..|raw| - 1]);
      var v := trim(raw[|raw| - 1]);
      if v == "" || v in rest then rest else rest + [v]
  }

  function RawRefs(r: Request): seq<string> {
    [r.messageId, r.inReplyTo] + r.references
  }

  method CleanThreadRefs(trim: string -> string, r: Request) returns (out: seq<string>)
    ensures out == Cleaned(trim, RawRefs(r))
  {
    var raw := [r.messageId, r.inReplyTo] + r.references;
    var seen: set<string> := {};
    out := [];
    for i := 0 to |raw|
      invariant out == Cleaned(trim, raw[..i])
      invariant forall v :: v in seen <==> v in out
    {
      assert raw[..i + 1][..i] == raw[..i];
      var v := trim(raw[i]);
      if v != "" && v !in seen {
        seen := seen + {v};
        out := out + [v];
      }
    }
    assert raw[..|raw|] == raw;
  }

  /** Every trimmed, non-blank reference once. */
  lemma {:induction false} CleanedExactly(trim: string -> string, raw: seq<string>)
    ensures forall v :: v in Cleaned(trim, raw) <==> v != "" && exists i :: 0 <= i < |raw| && trim(raw[i]) == v
    ensures forall i, j :: 0 <= i < j < |Cleaned(trim, raw)| ==> Cleaned(trim, raw)[i] != Cleaned(trim, raw)[j]
  {
    if |raw| > 0 {
      var n := |raw| - 1;
      CleanedExactly(trim, raw[..n]);
      assert forall i :: 0 <= i < n ==> raw[..n][i] == raw[i];
      forall v | v in Cleaned(trim, raw) ensures v != "" && exists i :: 0 <= i < |raw| && trim(raw[i]) == v {
        if v in Cleaned(trim, raw[..n]) {
          var i :| 0 <= i < n && trim(raw[..n][i]) == v;
          assert trim(raw[i]) == v;
        }
      }
    }
  }

  function Matches(s: Store, refs: seq<string>): set<SubId> {
    set id | id in s.emails && (s.emails[id].messageId in refs || s.emails[id].inReplyTo in refs) :: s.emails[id].sub
  }

  /** ORDER BY updated_at DESC, id DESC puts `a` before `b`. */
  predicate Later(s: Store, a: SubId, b: SubId)
    requires a in s.updatedAt && b in s.updatedAt
  {
    s.updatedAt[b] < s.updatedAt[a] || (s.updatedAt[b] == s.updatedAt[a] && AtMost(b, a))
  }

  predicate LaterThanAll(s: Store, a: SubId, others: set<SubId>) {
    forall other :: other in others ==> a in s.updatedAt && other in s.updatedAt && Later(s, a, other)
  }

  /** Every email belongs to a stored submission. */
  predicate Filed(s: Store) {
    forall id :: id in s.emails ==> s.emails[id].sub in s.updatedAt
  }

  /** The only match, or the first in that order. */
  predicate Picks(s: Store, matches: set<SubId>, best: SubId) {
    best in matches && LaterThanAll(s, best, matches - {best})
  }

  datatype Outcome = Duplicate(sub: SubId) | Attach(sub: SubId) | Create

  predicate OwnedBy(s: Store, id: EmailId, sub: SubId) {
    id in s.emails && s.emails[id].sub == sub
  }

  /** resolveSubmission */
  ghost predicate Resolves(trim: string -> string, s: Store, r: Request, o: Outcome) {
    var matches := Matches(s, Cleaned(trim, RawRefs(r)));
    if matches == {} then
      o == if r.emailId != "" && r.emailId in s.emails then Duplicate(s.emails[r.emailId].sub) else Create
    else
      !o.Create? && Picks(s, matches, o.sub) && (o.Duplicate? <==> OwnedBy(s, r.emailId, o.sub))
  }

  // ---- one outcome for every request ----

  lemma {:induction false} FirstExists(s: Store, matches: set<SubId>) returns (best: SubId)
    requires matches != {} && forall sub :: sub in matches ==> sub in s.updatedAt
    ensures Picks(s, matches, best)
    decreases |matches|
  {
    best :| best in matches;
    if matches != {best} {
      var rival := FirstExists(s, matches - {best});
      AtMostIsTotal(best, rival);
      if Later(s, rival, best) {
        best := rival;
      } else {
        forall other | other in matches && other != best ensures Later(s, best, other) {
          if other != rival {
            LaterIsTransitive(s, best, rival, other);
          }
        }
      }
    }
  }

  lemma LaterIsTransitive(s: Store, a: SubId, b: SubId, c: SubId)
    requires a in s.updatedAt && b in s.updatedAt && c in s.updatedAt && Later(s, a, b) && Later(s, b, c)
    ensures Later(s, a, c)
  {
    if s.updatedAt[a] == s.updatedAt[c] {
      AtMostIsTransitive(c, b, a);
    }
  }

  lemma OneFirst(s: Store, matches: set<SubId>, a: SubId, b: SubId)
    requires Picks(s, matches, a) && Picks(s, matches, b)
    ensures a == b
  {
    if a != b {
      assert b in matches - {a} && a in matches - {b};
      AtMostIsAntisymmetric(a, b);
    }
  }

  lemma MatchesAreFiled(s: Store, refs: seq<string>)
    requires Filed(s)
    ensures forall sub :: sub in Matches(s, refs) ==> sub in s.updatedAt
  {
  }

  /** Every request has an outcome. */
  lemma Resolved(trim: string -> string, s: Store, r: Request) returns (o: Outcome)
    requires Filed(s)
    ensures Resolves(trim, s, r, o)
  {
    var refs := Cleaned(trim, RawRefs(r));
    var matches := Matches(s, refs);
    if matches == {} {
      o := if r.emailId != "" && r.emailId in s.emails then Duplicate(s.emails[r.emailId].sub) else Create;
    } else {
      MatchesAreFiled(s, refs);
      var best := FirstExists(s, matches);
      o := if OwnedBy(s, r.emailId, best) then Duplicate(best) else Attach(best);
    }
  }

  // ---- in terms of the headers ----

  /** The request speaks of this Message-ID: in its own, as what it answers, or among its references. */
  predicate Mentions(trim: string -> string, r: Request, v: string) {
    v != "" && (v == trim(r.messageId) || v == trim(r.inReplyTo) || exists ref :: ref in r.references && v == trim(ref))
  }

  /** The submission has an email the request mentions, or one that answers what the request mentions. */
  predicate Related(trim: string -> string, s: Store, r: Request, sub: SubId) {
    exists id :: id in s.emails && s.emails[id].sub == sub &&
      (Mentions(trim, r, s.emails[id].messageId) || Mentions(trim, r, s.emails[id].inReplyTo))
  }

  lemma MentionsAreRefs(trim: string -> string, r: Request, v: string)
    ensures Mentions(trim, r, v) <==> v in Cleaned(trim, RawRefs(r))
  {
    var raw := RawRefs(r);
    CleanedExactly(trim, raw);
    assert raw[0] == r.messageId && raw[1] == r.inReplyTo;
    assert forall i :: 0 <= i < |r.references| ==> raw[i + 2] == r.references[i];
    if Mentions(trim, r, v) && v != trim(r.messageId) && v != trim(r.inReplyTo) {
      var ref :| ref in r.references && v == trim(ref);
      var i :| 0 <= i < |r.references| && r.references[i] == ref;
      assert trim(raw[i + 2]) == v;
    }
  }

  lemma RelatedAreMatches(trim: string -> string, s: Store, r: Request, sub: SubId)
    ensures Related(trim, s, r, sub) <==> sub in Matches(s, Cleaned(trim, RawRefs(r)))
  {
    forall v ensures Mentions(trim, r, v) <==> v in Cleaned(trim, RawRefs(r)) {
      MentionsAreRefs(trim, r, v);
    }
  }

  /**
  An email goes to a submission it is related to by its headers, the one updated last, ties going to the
  greater id, and is reported as a duplicate exactly when it is stored there already. Related to none, it
  is a duplicate if it is stored anywhere, else it makes a new submission.
  */
  lemma ResolvedInPlainTerms(trim: string -> string, s: Store, r: Request, o: Outcome, sub: SubId)
    requires Filed(s) && Resolves(trim, s, r, o)
    ensures Related(trim, s, r, sub) ==>
      && !o.Create? && Related(trim, s, r, o.sub) && sub in s.updatedAt && o.sub in s.updatedAt
      && (s.updatedAt[sub] < s.updatedAt[o.sub] || (s.updatedAt[sub] == s.updatedAt[o.sub] && AtMost(sub, o.sub)))
      && (o.Duplicate? <==> r.emailId in s.emails && s.emails[r.emailId].sub == o.sub)
    ensures (forall other :: !Related(trim, s, r, other)) ==>
      o == if r.emailId != "" && r.emailId in s.emails then Duplicate(s.emails[r.emailId].sub) else Create
  {
    var refs := Cleaned(trim, RawRefs(r));
    var matches := Matches(s, refs);
    MatchesAreFiled(s, refs);
    forall other ensures Related(trim, s, r, other) <==> other in matches {
      RelatedAreMatches(trim, s, r, other);
    }
    AtMostIsTotal(sub, sub);
    if sub in matches && sub != o.sub {
      assert sub in matches - {o.sub};
    }
  }

  // ---- redelivery ----

  /**
  An email already stored is reported as a duplicate exactly when no thread matches, or its own
  matches and was updated later than every other match, ties going to the greater id.
  */
  lemma DuplicateIff(trim: string -> string, s: Store, r: Request, o: Outcome)
    requires Filed(s) && r.emailId != "" && r.emailId in s.emails && Resolves(trim, s, r, o)
    ensures var matches, owner := Matches(s, Cleaned(trim, RawRefs(r))), s.emails[r.emailId].sub;
      o == Duplicate(owner) <==>
      matches == {} || (owner in matches && LaterThanAll(s, owner, matches - {owner}))
  {
    var refs := Cleaned(trim, RawRefs(r));
    var matches, owner := Matches(s, refs), s.emails[r.emailId].sub;
    MatchesAreFiled(s, refs);
    if matches != {} && Picks(s, matches, owner) {
      OneFirst(s, matches, owner, o.sub);
    }
  }

  lemma OwnThreadMatches(trim: string -> string, s: Store, r: Request)
    requires r.emailId in s.emails && s.emails[r.emailId].messageId == r.messageId
    requires r.messageId != "" && trim(r.messageId) == r.messageId
    ensures s.emails[r.emailId].sub in Matches(s, Cleaned(trim, RawRefs(r)))
  {
    CleanedExactly(trim, RawRefs(r));
    assert RawRefs(r)[0] == r.messageId;
    assert r.messageId in Cleaned(trim, RawRefs(r));
  }

  lemma OnlyMatch(matches: set<SubId>, a: SubId, b: SubId)
    requires |matches| == 1 && a in matches && b in matches
    ensures a == b
  {
    assert |matches - {a}| == 0;
  }

  /** With a trimmed, non-blank Message-ID and an unambiguous lookup it is. */
  lemma UnambiguousIsDuplicate(trim: string -> string, s: Store, r: Request, o: Outcome)
    requires r.emailId in s.emails && s.emails[r.emailId].messageId == r.messageId
    requires r.messageId != "" && trim(r.messageId) == r.messageId
    requires |Matches(s, Cleaned(trim, RawRefs(r)))| <= 1 && Resolves(trim, s, r, o)
    ensures o == Duplicate(s.emails[r.emailId].sub)
  {
    OwnThreadMatches(trim, s, r);
    var matches := Matches(s, Cleaned(trim, RawRefs(r)));
    assert |matches| > 0 by {
      assert s.emails[r.emailId].sub in matches;
    }
    OnlyMatch(matches, o.sub, s.emails[r.emailId].sub);
  }

  // ---- runs ----

  /** Submissions are never deleted. */
  ghost predicate KeepsSubmissions(s: Store, s': Store) {
    s.updatedAt.Keys <= s'.updatedAt.Keys
  }

  /**
  An ingest: nothing at all for a duplicate. Else the email goes to the submission found, or to
  a new one or one found by content, and any other row may change.
  */
  ghost predicate IngestStep(trim: string -> string, s: Store, r: Request, o: Outcome, sub: SubId, s': Store) {
    && Resolves(trim, s, r, o)
    && if o.Duplicate? then s' == s
       else
         && (o.Attach? ==> sub == o.sub)
         && s'.emails == InsertIfAbsent(s.emails, r.emailId, Email(sub, r.messageId, r.inReplyTo))
         && sub in s'.updatedAt && KeepsSubmissions(s, s')
  }

  /** An email that is new goes, with its headers, to the submission it was resolved to, and every other stays. */
  lemma NewEmailIsFiled(trim: string -> string, s: Store, r: Request, o: Outcome, sub: SubId, s': Store)
    requires IngestStep(trim, s, r, o, sub, s') && r.emailId !in s.emails && !o.Duplicate?
    ensures s'.emails == s.emails[r.emailId := Email(if o.Attach? then o.sub else sub, r.messageId, r.inReplyTo)]
  {
  }

  datatype Step =
    | Ingest(r: Request, o: Outcome, sub: SubId)
    | Record(id: EmailId, e: Email)   // an outbound email
    | Touch                           // a sweep

  ghost predicate Next(trim: string -> string, s: Store, step: Step, s': Store) {
    match step
    case Ingest(r, o, sub) => IngestStep(trim, s, r, o, sub, s')
    case Record(id, e) => e.sub in s.updatedAt && s' == s.(emails := InsertIfAbsent(s.emails, id, e))
    case Touch => s'.emails == s.emails && KeepsSubmissions(s, s')
  }

  ghost predicate IsRun(trim: string -> string, stores: seq<Store>, steps: seq<Step>) {
    && |stores| == |steps| + 1
    && stores[0].emails == map[] && stores[0].updatedAt == map[]
    && forall i :: 0 <= i < |steps| ==> Next(trim, stores[i], steps[i], stores[i + 1])
  }

  /** In every run each email belongs to a stored submission. */
  lemma {:induction false} FiledAt(trim: string -> string, stores: seq<Store>, steps: seq<Step>, i: nat)
    requires IsRun(trim, stores, steps) && i < |stores|
    ensures Filed(stores[i])
  {
    if i > 0 {
      FiledAt(trim, stores, steps, i - 1);
      assert Next(trim, stores[i - 1], steps[i - 1], stores[i]);
    }
  }

  /** What is stored stays, under the same owner. */
  lemma {:induction false} EmailsStay(trim: string -> string, stores: seq<Store>, steps: seq<Step>, i: nat, j: nat,
                                      id: EmailId)
    requires IsRun(trim, stores, steps) && i <= j < |stores| && id in stores[i].emails
    ensures id in stores[j].emails && stores[j].emails[id] == stores[i].emails[id]
  {
    if i < j {
      EmailsStay(trim, stores, steps, i, j - 1, id);
      assert Next(trim, stores[j - 1], steps[j - 1], stores[j]);
    }
  }

  /**
  After every run, an email ingested before and delivered again is reported as a duplicate of the
  same owner and changes nothing, unless its lookup has become ambiguous.
  */
  lemma RedeliveryChangesNothing(trim: string -> string, stores: seq<Store>, steps: seq<Step>, i: nat, j: nat,
                                 r: Request, o: Outcome, sub: SubId, s': Store)
    requires IsRun(trim, stores, steps) && i <= j < |stores|
    requires r.emailId in stores[i].emails && stores[i].emails[r.emailId].messageId == r.messageId
    requires r.messageId != "" && trim(r.messageId) == r.messageId
    requires |Matches(stores[j], Cleaned(trim, RawRefs(r)))| <= 1
    requires IngestStep(trim, stores[j], r, o, sub, s')
    ensures o == Duplicate(stores[i].emails[r.emailId].sub) && s' == stores[j]
  {
    EmailsStay(trim, stores, steps, i, j, r.emailId);
    UnambiguousIsDuplicate(trim, stores[j], r, o);
  }

  // ---- a run after which a redelivered email is taken for a new one ----

  const FIRST := Request("d1", "m1", "", [])
  const SECOND := Request("d2", "m2", "", [])
  const BOTH := Request("d3", "m3", "m1", ["m2"])   // answers the first and refers to the second

  function E1(): map<EmailId, Email> {
    map["d1" := Email("s1", "m1", "")]
  }

  function E2(): map<EmailId, Email> {
    E1()["d2" := Email("s2", "m2", "")]
  }

  function E3(): map<EmailId, Email> {
    E2()["d3" := Email("s2", "m3", "m1")]
  }

  function STORES(): seq<Store<()>> {
    [ Store(map[], map[], ()), Store(E1(), map["s1" := 1], ()), Store(E2(), map["s1" := 1, "s2" := 2], ()),
      Store(E3(), map["s1" := 1, "s2" := 3], ()) ]
  }

  function STEPS(): seq<Step> {
    [Ingest(FIRST, Create, "s1"), Ingest(SECOND, Create, "s2"), Ingest(BOTH, Attach("s2"), "s2")]
  }

  /** A trimming that leaves these references alone. */
  predicate Leaves(trim: string -> string) {
    trim("") == "" && trim("m1") == "m1" && trim("m2") == "m2" && trim("m3") == "m3"
  }

  lemma RefsOf(trim: string -> string, r: Request)
    requires Leaves(trim) && r in {FIRST, SECOND, BOTH}
    ensures forall v :: v in Cleaned(trim, RawRefs(r)) <==> v != "" && v in RawRefs(r)
  {
    CleanedExactly(trim, RawRefs(r));
    assert forall v :: v in RawRefs(r) ==> trim(v) == v;
  }

  lemma FirstTwo(trim: string -> string)
    requires Leaves(trim)
    ensures Next(trim, STORES()[0], STEPS()[0], STORES()[1]) && Next(trim, STORES()[1], STEPS()[1], STORES()[2])
  {
    RefsOf(trim, FIRST);
    RefsOf(trim, SECOND);
    assert Matches(STORES()[0], Cleaned(trim, RawRefs(FIRST))) == {};
    assert Matches(STORES()[1], Cleaned(trim, RawRefs(SECOND))) == {};
  }

  lemma Third(trim: string -> string)
    requires Leaves(trim)
    ensures Next(trim, STORES()[2], STEPS()[2], STORES()[3])
  {
    RefsOf(trim, BOTH);
    var s := STORES()[2];
    assert s.emails["d1"].sub == "s1" && s.emails["d2"].sub == "s2";
    assert Matches(s, Cleaned(trim, RawRefs(BOTH))) == {"s1", "s2"};
  }

  lemma FirstAgain(trim: string -> string, o: Outcome)
    requires Leaves(trim)
    ensures Resolves(trim, STORES()[3], FIRST, o) <==> o == Attach("s2")
  {
    RefsOf(trim, FIRST);
    var s := STORES()[3];
    var matches: set<SubId> := {"s1", "s2"};
    assert "s1"[1] != "s2"[1];
    assert s.emails["d1"].sub == "s1" && s.emails["d3"].sub == "s2";
    assert Matches(s, Cleaned(trim, RawRefs(FIRST))) == matches;
    assert "s2" in matches - {"s1"} && !Picks(s, matches, "s1");
    assert matches - {"s2"} == {"s1"} && Picks(s, matches, "s2");
  }

  lemma ThreeEmails(trim: string -> string)
    requires Leaves(trim)
    ensures IsRun(trim, STORES(), STEPS())
  {
    FirstTwo(trim);
    Third(trim);
    forall i | 0 <= i < |STEPS()| ensures Next(trim, STORES()[i], STEPS()[i], STORES()[i + 1]) {
      assert i == 0 || i == 1 || i == 2;
    }
  }

  /**
  Three emails: the third answers the first and refers to the second, and goes to the second's
  submission, updated last. The first is then found under both submissions, and delivered again
  it is attached to the wrong one instead of being reported as a duplicate.
  */
  lemma AmbiguousIsNotDuplicate(trim: string -> string)
    requires Leaves(trim)
    ensures IsRun(trim, STORES(), STEPS())
    ensures STORES()[3].emails["d1"].sub == "s1"
    ensures forall o :: Resolves(trim, STORES()[3], FIRST, o) <==> o == Attach("s2")
  {
    ThreeEmails(trim);
    forall o ensures Resolves(trim, STORES()[3], FIRST, o) <==> o == Attach("s2") {
      FirstAgain(trim, o);
    }
  }
}
