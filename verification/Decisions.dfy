/**
What an ingested email leads to: evaluate, resolvePolicyType, contentMatch, buildReply and the
review flag of internal/service/submissions.go. What a subject or a body says about the policy type, and
what a body says about attachments, are parameters: they come out of string searches. So is
whether a named insured can be read from the documents, and whether two of them are the same.
*/
module Decisions {
  import opened Checklist
  import opened ChecklistLaws
  import opened Fingerprint
  import opened Lifecycle

  const UNKNOWN := "unknown"

  /** Checklists by policy type. */
  type Checklists = map<string, seq<Item>>

  function PolicyUnknownItem(): MissingItem {
    MissingItem("policy_unknown", "Policy type not yet determined", NoReason, PolicyUnknown, 0.0)
  }

  function AttachmentItem(): MissingItem {
    MissingItem("missing_attachment", "", NoReason, MissingAttachment, 0.0)
  }

  /**
  What the email says: the types inferred from subject and body, its documents, and whether it speaks
  of attaching.
  */
  datatype Inbound = Inbound(subjectType: string, bodyType: string, documents: seq<Document>, attachments: nat,
                             mentions: bool)

  datatype File = File(policyType: string, documents: seq<Document>, asks: nat, missing: seq<MissingItem>)

  function ResolvedType(known: Checklists, policyType: string, e: Inbound): string {
    if policyType in known then policyType
    else if e.subjectType != UNKNOWN then e.subjectType
    else if e.bodyType != UNKNOWN then e.bodyType
    else policyType
  }

  ghost predicate Evaluated(known: Checklists, floor: real, f: File, e: Inbound, f': File, policyUnknown: bool) {
    var policy := ResolvedType(known, f.policyType, e);
    && policyUnknown == (policy !in known)
    && if policyUnknown then
         f' == File(UNKNOWN, f.documents, f.asks + 1, [PolicyUnknownItem()])
       else
         && f' == File(policy, f.documents + e.documents, f.asks, f'.missing)
         && IsEvaluation(f'.documents, known[policy], floor, f'.missing)
  }

  /** An email merged by content: only a known policy type is evaluated again, else the stored items stand. */
  ghost predicate Merged(known: Checklists, floor: real, f: File, documents: seq<Document>, f': File,
                         policyUnknown: bool) {
    && policyUnknown == (f.policyType == UNKNOWN)
    && f' == File(f.policyType, f.documents + documents, f.asks, f'.missing)
    && if f.policyType in known then IsEvaluation(f'.documents, known[f.policyType], floor, f'.missing)
       else f'.missing == f.missing
  }

  /** A stored case: its record, whether a named insured is on it, and its state. */
  datatype CaseFile = CaseFile(file: File, insured: bool, state: State)

  datatype Reply = Reply(kind: Kind, items: seq<MissingItem>)

  function CodeText(code: ReasonCode): string {
    match code
    case NotProvided => "not_provided"
    case LowConfidence => "low_confidence"
    case Unreadable => "unreadable"
    case FieldShortfall => "field_shortfall"
    case Encrypted => "encrypted"
    case MissingAttachment => "missing_attachment"
    case PolicyUnknown => "policy_unknown"
    case Legacy => ""
  }

  function WantOf(m: MissingItem): Want {
    Want(m.id, CodeText(m.code))
  }

  /** What the fingerprint of a reply is taken of. */
  function AskOf(r: Reply): Ask {
    Ask(r.kind, Map(WantOf, r.items))
  }

  lemma CodesAreClean(code: ReasonCode)
    ensures ZERO !in CodeText(code) && UNIT !in CodeText(code)
  {
  }

  /** The codes are told apart by their texts, which is what the fingerprint is taken of. */
  lemma CodesAreDistinct(a: ReasonCode, b: ReasonCode)
    requires CodeText(a) == CodeText(b)
    ensures a == b
  {
  }

  lemma WantAt(items: seq<MissingItem>, w: Want) returns (m: MissingItem)
    requires w in Map(WantOf, items)
    ensures m in items && w == WantOf(m)
  {
    var i :| 0 <= i < |items| && Map(WantOf, items)[i] == w;
    m := items[i];
  }

  /** Only the ids of the checklists can hold an octet the fingerprint trips over. */
  lemma AsksAreClean(r: Reply)
    requires forall m :: m in r.items ==> ZERO !in m.id
    ensures Clean(AskOf(r))
  {
    forall w | w in AskOf(r).wants ensures ZERO !in w.id && ZERO !in w.code && UNIT !in w.code {
      var m := WantAt(r.items, w);
      CodesAreClean(m.code);
    }
  }

  predicate Exhausted(maxAsks: int, asks: nat) {
    maxAsks > 0 && asks > maxAsks
  }

  predicate LooksUnattached(e: Inbound, broker: seq<MissingItem>) {
    e.attachments == 0 && |broker| > 0 && e.mentions
  }

  /** The submission record an ingest works on. */
  class Triage {
    var policyType: string
    var documents: seq<Document>
    var asks: nat
    var missing: seq<MissingItem>
    var insured: bool
    var state: State
    var needsReview: bool

    function View(): File
      reads this
    {
      File(policyType, documents, asks, missing)
    }

    constructor (c: CaseFile)
      ensures View() == c.file && insured == c.insured && state == c.state
    {
      policyType, documents, asks, missing := c.file.policyType, c.file.documents, c.file.asks, c.file.missing;
      insured, state, needsReview := c.insured, c.state, false;
    }

    method ResolvePolicyType(known: Checklists, e: Inbound)
      modifies this`policyType
      ensures policyType == ResolvedType(known, old(policyType), e)
      ensures policyType == old(policyType) ||
        (old(policyType) !in known && policyType != UNKNOWN && policyType in {e.subjectType, e.bodyType})
      ensures old(policyType) !in known && e.subjectType != UNKNOWN ==> policyType == e.subjectType
      ensures old(policyType) !in known && e.subjectType == UNKNOWN && e.bodyType != UNKNOWN ==>
        policyType == e.bodyType
    {
      if policyType in known {
        return;
      }
      var resolved := e.subjectType;
      if resolved == UNKNOWN {
        resolved := e.bodyType;
      }
      if resolved == UNKNOWN {
        return;
      }
      policyType := resolved;
    }

    method Evaluate(known: Checklists, floor: real, e: Inbound) returns (policyUnknown: bool)
      modifies this`policyType, this`documents, this`asks, this`missing
      ensures Evaluated(known, floor, old(View()), e, View(), policyUnknown)
      ensures policyUnknown ==>
        policyType == UNKNOWN && documents == old(documents) && asks == old(asks) + 1 && |missing| == 1
      ensures !policyUnknown ==>
        policyType in known && documents == old(documents) + e.documents && asks == old(asks)
    {
      ResolvePolicyType(known, e);
      policyUnknown := policyType !in known;
      if policyUnknown {
        policyType := UNKNOWN;
        asks := asks + 1;
        missing := [PolicyUnknownItem()];
      } else {
        documents := documents + e.documents;
        missing := EvaluateChecklist(documents, known[policyType], floor);
      }
    }

    /** The named insured is looked for once, and only after an evaluation. */
    method ExtractIdentity(policyUnknown: bool, found: bool)
      modifies this`insured
      ensures insured == (old(insured) || (!policyUnknown && found))
    {
      if policyUnknown || insured || !found {
        return;
      }
      insured := true;
    }

    /**
    Takes over the documents of a new submission if that gave a named insured and this case has the
    same one and is open or awaiting; else nothing changes.
    */
    method ContentMatch(known: Checklists, floor: real, same: bool, added: seq<Document>)
      returns (matched: bool, policyUnknown: bool)
      modifies this`documents, this`missing
      ensures matched <==> same && insured && (state == Open || state == Awaiting)
      ensures matched ==> Merged(known, floor, old(View()), added, View(), policyUnknown)
      ensures matched ==> documents == old(documents) + added && (policyUnknown <==> policyType == "unknown")
      ensures matched && policyType !in known ==> missing == old(missing)
      ensures !matched ==> View() == old(View())
    {
      policyUnknown := policyType == UNKNOWN;
      matched := same && insured && (state == Open || state == Awaiting);
      if !matched {
        return;
      }
      documents := documents + added;
      if policyType in known {
        missing := EvaluateChecklist(documents, known[policyType], floor);
      }
    }

    /**
    A completion note exactly when nothing is missing; a request names what the broker can act on, or
    asks for the attachment.
    */
    method BuildReply(maxAsks: int, e: Inbound, policyUnknown: bool) returns (reply: Option<Reply>)
      ensures reply == Decision(View(), maxAsks, e, policyUnknown)
      ensures (reply.Some? && reply.value.kind == Done) <==> !policyUnknown && missing == []
      ensures (reply.Some? && reply.value.kind == Question) <==> policyUnknown && !Exhausted(maxAsks, asks)
      ensures (reply.Some? && reply.value.kind == Request) <==>
              !policyUnknown && exists m :: m in missing && ForBroker(m.code)
    {
      NoBrokerItems(missing);
      if policyUnknown {
        if Exhausted(maxAsks, asks) {
          return None;
        }
        return Some(Reply(Question, missing));
      }
      if |missing| == 0 {
        return Some(Reply(Done, []));
      }
      var broker := BrokerActionable(missing);
      if |broker| == 0 {
        return None;
      }
      if LooksUnattached(e, broker) {
        broker := [AttachmentItem()];
      }
      return Some(Reply(Request, broker));
    }

    method FlagReview(maxAsks: int)
      modifies this`needsReview
      ensures needsReview == Flagged(View(), maxAsks)
    {
      var review := RequiresReview(missing);
      needsReview := review || Exhausted(maxAsks, asks);
    }
  }

  function Decision(f: File, maxAsks: int, e: Inbound, policyUnknown: bool): Option<Reply> {
    if policyUnknown then
      if Exhausted(maxAsks, f.asks) then None else Some(Reply(Question, f.missing))
    else if |f.missing| == 0 then Some(Reply(Done, []))
    else
      var broker := BrokerItems(f.missing);
      if |broker| == 0 then None
      else Some(Reply(Request, if LooksUnattached(e, broker) then [AttachmentItem()] else broker))
  }

  predicate Flagged(f: File, maxAsks: int) {
    (exists m :: m in f.missing && ForAgency(m.code)) || Exhausted(maxAsks, f.asks)
  }

  /** Nobody is asked and nobody is told. */
  predicate Silent(f: File, maxAsks: int, e: Inbound, policyUnknown: bool) {
    Decision(f, maxAsks, e, policyUnknown).None? && !Flagged(f, maxAsks)
  }

  lemma NoBrokerItems(missing: seq<MissingItem>)
    ensures BrokerItems(missing) == [] <==> forall m :: m in missing ==> !ForBroker(m.code)
  {
  }

  /**
  For any record whatever: silence exactly when something is missing, every code is one nobody acts
  on, and the asks are not spent.
  */
  lemma SilentIff(f: File, maxAsks: int, e: Inbound, policyUnknown: bool)
    ensures Silent(f, maxAsks, e, policyUnknown) <==>
      && !policyUnknown && f.missing != [] && !Exhausted(maxAsks, f.asks)
      && forall m :: m in f.missing ==> !ForBroker(m.code) && !ForAgency(m.code)
  {
    NoBrokerItems(f.missing);
  }

  /** After an evaluation there is always a reply or a flag, and a completion note exactly when the checklist is met. */
  lemma NeverSilentAfterEvaluation(known: Checklists, floor: real, f: File, e: Inbound, f': File, policyUnknown: bool,
                                   maxAsks: int)
    requires Evaluated(known, floor, f, e, f', policyUnknown)
    ensures !Silent(f', maxAsks, e, policyUnknown)
    ensures var d := Decision(f', maxAsks, e, policyUnknown);
      d == Some(Reply(Done, [])) <==>
        !policyUnknown && forall item :: item in known[f'.policyType] ==> Satisfied(f'.documents, item, floor)
  {
    SilentIff(f', maxAsks, e, policyUnknown);
    if !policyUnknown {
      CompleteIffAllSatisfied(f'.documents, known[f'.policyType], floor, f'.missing);
      if f'.missing != [] {
        EvaluatorCodes(f'.documents, known[f'.policyType], floor, f'.missing, f'.missing[0]);
      }
    }
  }

  /**
  A request names items of this evaluation the broker can act on, or the attachment; every broker item
  is named or the attachment is asked for.
  */
  lemma RequestNamesBrokerItems(f: File, maxAsks: int, e: Inbound, policyUnknown: bool, items: seq<MissingItem>)
    requires Decision(f, maxAsks, e, policyUnknown) == Some(Reply(Request, items))
    ensures items != []
    ensures items == [AttachmentItem()] || forall m :: m in items <==> m in f.missing && ForBroker(m.code)
  {
    BrokerItemsAreForBroker(f.missing);
  }

  /**
  What a request says instead, exactly when the email brought no attachment, spoke of one, and something
  is the broker's to do.
  */
  lemma AttachmentIsAskedFor(f: File, maxAsks: int, e: Inbound)
    requires forall m :: m in f.missing ==> !m.code.MissingAttachment?
    ensures Decision(f, maxAsks, e, false) == Some(Reply(Request, [AttachmentItem()])) <==>
      e.attachments == 0 && e.mentions && exists m :: m in f.missing && ForBroker(m.code)
    ensures WantOf(AttachmentItem()) == Want("missing_attachment", "missing_attachment")
  {
    NoBrokerItems(f.missing);
    BrokerItemsAreForBroker(f.missing);
    var broker := BrokerItems(f.missing);
    if broker != [] {
      assert broker[0] in broker;
    }
  }

  // ---- one item, one document: who hears what ----

  const SOME_MAIL := Inbound(UNKNOWN, UNKNOWN, [], 1, false)

  /** What the broker is asked for, and whether the agency is told. */
  predicate Answers(f: File, maxAsks: int, items: seq<MissingItem>, flagged: bool) {
    && Decision(f, maxAsks, SOME_MAIL, false) == (if items == [] then None else Some(Reply(Request, items)))
    && (Flagged(f, maxAsks) <==> flagged)
  }

  lemma AnswerToOne(f: File, maxAsks: int, m: MissingItem)
    requires f.missing == [m] && !Exhausted(maxAsks, f.asks)
    ensures Answers(f, maxAsks, if ForBroker(m.code) then [m] else [], ForAgency(m.code))
  {
    assert [m][..0] == [] && BrokerItems([]) == [];
    assert BrokerItems([m]) == if ForBroker(m.code) then [m] else [];
    assert m in f.missing;
  }

  /**
  A document that is locked is the broker's to send again, one that is scanned or not confidently
  identified is the agency's to look at, and one that is not there, or falls short, the broker's to send.
  */
  lemma WhoIsTold(f: File, maxAsks: int, item: Item, floor: real, d: Document)
    requires IsEvaluation(f.documents, [item], floor, f.missing) && item.id != "" && (maxAsks <= 0 || f.asks <= maxAsks)
    ensures OnlyDocument(f.documents, item, d) && d.encrypted ==>
      f.missing != [] && Answers(f, maxAsks, f.missing, false)
    ensures OnlyDocument(f.documents, item, d) && !d.encrypted && (d.unreadable || d.confidence < floor) ==>
      Answers(f, maxAsks, [], true)
    ensures (forall e :: e in f.documents ==> e.classifiedAs != item.id) ==>
      f.missing != [] && Answers(f, maxAsks, f.missing, false)
    ensures f.missing != [] && f.missing[0].code.FieldShortfall? ==> Answers(f, maxAsks, f.missing, false)
  {
    OneItem(f.documents, item, floor, f.missing);
    if f.missing != [] {
      AnswerToOne(f, maxAsks, f.missing[0]);
    }
    if forall e :: e in f.documents ==> e.classifiedAs != item.id {
      NoDocument(f.documents, item, floor, f.missing);
    } else if OnlyDocument(f.documents, item, d) && (d.encrypted || d.unreadable || d.confidence < floor) {
      UnusableDocument(f.documents, item, floor, f.missing, d);
    }
  }

  // ---- evaluated emails one after the other ----

  predicate Unresolved(known: Checklists, f: File, e: Inbound) {
    ResolvedType(known, f.policyType, e) !in known
  }

  /** Evaluated emails one after the other, under the same checklists and floor. */
  ghost predicate IsHistory(known: Checklists, floor: real, files: seq<File>, mail: seq<Inbound>) {
    && |files| == |mail| + 1
    && forall i :: 0 <= i < |mail| ==>
         Evaluated(known, floor, files[i], mail[i], files[i + 1], Unresolved(known, files[i], mail[i]))
  }

  /** The documents of the emails whose policy type was known, in order; the others' are not kept. */
  function Collected(known: Checklists, files: seq<File>, mail: seq<Inbound>, n: nat): seq<Document>
    requires n <= |mail| && |files| == |mail| + 1
  {
    if n == 0 then []
    else Collected(known, files, mail, n - 1)
         + if Unresolved(known, files[n - 1], mail[n - 1]) then [] else mail[n - 1].documents
  }

  /** In every run of emails the documents of a submission are those it had and those it collected. */
  lemma {:induction false} DocumentsAccumulate(known: Checklists, floor: real, files: seq<File>, mail: seq<Inbound>,
                                               n: nat)
    requires IsHistory(known, floor, files, mail) && n <= |mail|
    ensures files[n].documents == files[0].documents + Collected(known, files, mail, n)
  {
    if n > 0 {
      DocumentsAccumulate(known, floor, files, mail, n - 1);
    }
  }

  // ---- how often the policy type is asked for ----

  lemma {:induction false} AsksAreCounted(known: Checklists, floor: real, files: seq<File>, mail: seq<Inbound>, n: nat)
    requires IsHistory(known, floor, files, mail) && n < |files|
    requires forall i :: 0 <= i < n ==> Unresolved(known, files[i], mail[i])
    ensures files[n].asks == files[0].asks + n
  {
    if n > 0 {
      AsksAreCounted(known, floor, files, mail, n - 1);
    }
  }

  /**
  In every run of emails that do not tell the policy type of a new submission, the n-th is answered with
  the question, and not flagged, as long as n is within the limit; after that nothing is asked and the
  submission is flagged. Without a limit the question is asked every time.
  */
  lemma QuestionsAreLimited(known: Checklists, floor: real, files: seq<File>, mail: seq<Inbound>, n: nat, maxAsks: int)
    requires IsHistory(known, floor, files, mail) && 0 < n < |files| && files[0].asks == 0
    requires forall i :: 0 <= i < n ==> Unresolved(known, files[i], mail[i])
    ensures var asked := maxAsks <= 0 || n <= maxAsks;
      && Decision(files[n], maxAsks, mail[n - 1], true) ==
         (if asked then Some(Reply(Question, files[n].missing)) else None)
      && |files[n].missing| == 1 && WantOf(files[n].missing[0]) == Want("policy_unknown", "policy_unknown")
      && (Flagged(files[n], maxAsks) <==> !asked)
  {
    AsksAreCounted(known, floor, files, mail, n);
    assert Evaluated(known, floor, files[n - 1], mail[n - 1], files[n], true);
  }

  // ---- complete for good ----

  /** A known policy type, every item of whose checklist some document affirms. */
  predicate AllAffirmed(known: Checklists, floor: real, f: File) {
    && f.policyType in known
    && forall item :: item in known[f.policyType] ==> ChecklistLaws.Affirmed(f.documents, item, floor)
  }

  lemma AffirmedStays(known: Checklists, floor: real, f: File, e: Inbound, f': File, policyUnknown: bool)
    requires AllAffirmed(known, floor, f) && Evaluated(known, floor, f, e, f', policyUnknown)
    ensures AllAffirmed(known, floor, f') && f'.policyType == f.policyType && f'.missing == [] && !policyUnknown
  {
    forall item | item in known[f.policyType]
      ensures ChecklistLaws.Affirmed(f'.documents, item, floor) && Satisfied(f'.documents, item, floor)
    {
      AffirmedForGood(f.documents, e.documents, item, floor);
    }
    CompleteIffAllSatisfied(f'.documents, known[f.policyType], floor, f'.missing);
  }

  /** From then on, whatever arrives, every evaluation comes out complete under the same policy type. */
  lemma {:induction false} CompleteForGood(known: Checklists, floor: real, files: seq<File>, mail: seq<Inbound>, n: nat)
    requires IsHistory(known, floor, files, mail) && n < |files| && AllAffirmed(known, floor, files[0])
    ensures AllAffirmed(known, floor, files[n]) && files[n].policyType == files[0].policyType
    ensures n > 0 ==> files[n].missing == []
  {
    if n > 0 {
      CompleteForGood(known, floor, files, mail, n - 1);
      AffirmedStays(known, floor, files[n - 1], mail[n - 1], files[n], Unresolved(known, files[n - 1], mail[n - 1]));
    }
  }

  /** And so the submission is complete again after it, whatever state the sweeps had put it in. */
  lemma ReturnsToComplete(known: Checklists, floor: real, files: seq<File>, mail: seq<Inbound>, n: nat, c: Case,
                          now: Time, mark: bool)
    requires IsHistory(known, floor, files, mail) && 0 < n < |files| && AllAffirmed(known, floor, files[0])
    requires Dated(c.stamps)
    ensures Ingested(c, now, mark, files[n].missing).stamps.state == Complete
  {
    CompleteForGood(known, floor, files, mail, n);
    IngestAlwaysLands(c, now, mark, files[n].missing);
  }

  // ---- every ingest of every run ----

  /** What can happen to a stored case; the registry and the floor may change between restarts. */
  datatype Event =
    | Mail(known: Checklists, floor: real, e: Inbound, found: bool)
    | Match(known: Checklists, floor: real, e: Inbound)
    | Sweep(state: State)   // escalated or closed

  function Landed(missing: seq<MissingItem>): State {
    if missing == [] then Complete else Awaiting
  }

  /** `policyUnknown` is what the ingest goes on with. */
  ghost predicate Happens(c: CaseFile, ev: Event, c': CaseFile, policyUnknown: bool) {
    match ev
    case Mail(known, floor, e, found) =>
      && Evaluated(known, floor, c.file, e, c'.file, policyUnknown)
      && c'.insured == (c.insured || (!policyUnknown && found))
      && c'.state == Landed(c'.file.missing)
    case Match(known, floor, e) =>
      && c.insured && (c.state == Open || c.state == Awaiting)
      && Merged(known, floor, c.file, e.documents, c'.file, policyUnknown)
      && c'.insured == c.insured
      && c'.state == Landed(c'.file.missing)
    case Sweep(state) =>
      && (state == Escalated || state == Closed)
      && c' == c.(state := state)
  }

  /** A new submission, or one stored before named insured and reason codes were. */
  predicate IsStart(c: CaseFile) {
    !c.insured
  }

  predicate Actionable(missing: seq<MissingItem>) {
    forall m :: m in missing ==> ForBroker(m.code) || ForAgency(m.code)
  }

  /** A case that content matching can find carries codes somebody acts on, and while it awaits, at least one. */
  predicate Matchable(c: CaseFile) {
    c.insured ==> Actionable(c.file.missing) && c.state != Open && (c.state == Awaiting ==> c.file.missing != [])
  }

  ghost predicate IsCase(cases: seq<CaseFile>, events: seq<Event>, unknowns: seq<bool>) {
    && |cases| == |events| + 1 && |unknowns| == |events| && IsStart(cases[0])
    && forall i :: 0 <= i < |events| ==> Happens(cases[i], events[i], cases[i + 1], unknowns[i])
  }

  lemma EvaluationIsActed(docs: seq<Document>, items: seq<Item>, floor: real, missing: seq<MissingItem>)
    requires IsEvaluation(docs, items, floor, missing)
    ensures Actionable(missing)
  {
    forall m | m in missing ensures ForBroker(m.code) || ForAgency(m.code) {
      EvaluatorCodes(docs, items, floor, missing, m);
    }
  }

  lemma MailKeepsMatchable(c: CaseFile, ev: Event, c': CaseFile, policyUnknown: bool)
    requires ev.Mail? && Happens(c, ev, c', policyUnknown)
    ensures Matchable(c') && Actionable(c'.file.missing)
  {
    if !policyUnknown {
      EvaluationIsActed(c'.file.documents, ev.known[c'.file.policyType], ev.floor, c'.file.missing);
    }
  }

  lemma MatchKeepsMatchable(c: CaseFile, ev: Event, c': CaseFile, policyUnknown: bool)
    requires ev.Match? && Matchable(c) && Happens(c, ev, c', policyUnknown)
    ensures Matchable(c') && Actionable(c'.file.missing)
    ensures c.file.policyType !in ev.known ==> c'.file.missing != []
  {
    if c.file.policyType in ev.known {
      EvaluationIsActed(c'.file.documents, ev.known[c.file.policyType], ev.floor, c'.file.missing);
    }
  }

  lemma {:induction false} MatchableAt(cases: seq<CaseFile>, events: seq<Event>, unknowns: seq<bool>, i: nat)
    requires IsCase(cases, events, unknowns) && i < |cases|
    ensures Matchable(cases[i])
  {
    if i > 0 {
      MatchableAt(cases, events, unknowns, i - 1);
      var c, ev, c', u := cases[i - 1], events[i - 1], cases[i], unknowns[i - 1];
      match ev
      case Mail(_, _, _, _) => MailKeepsMatchable(c, ev, c', u);
      case Match(_, _, _) => MatchKeepsMatchable(c, ev, c', u);
      case Sweep(_) =>
    }
  }

  /**
  In every run a case has a named insured exactly when one was found by an email whose policy type was
  known: only such a case can be matched by content.
  */
  lemma {:induction false} InsuredIff(cases: seq<CaseFile>, events: seq<Event>, unknowns: seq<bool>, n: nat)
    requires IsCase(cases, events, unknowns) && n < |cases|
    ensures cases[n].insured <==> exists i :: 0 <= i < n && events[i].Mail? && events[i].found && !unknowns[i]
  {
    if n > 0 {
      InsuredIff(cases, events, unknowns, n - 1);
      assert Happens(cases[n - 1], events[n - 1], cases[n], unknowns[n - 1]);
    }
  }

  /** Every required item of the case's checklist is satisfied. */
  predicate Met(known: Checklists, floor: real, f: File) {
    f.policyType in known && forall item :: item in known[f.policyType] ==> Satisfied(f.documents, item, floor)
  }

  lemma MatchIsHeard(c: CaseFile, ev: Event, c': CaseFile, policyUnknown: bool, maxAsks: int)
    requires ev.Match? && Matchable(c) && Happens(c, ev, c', policyUnknown)
    ensures !Silent(c'.file, maxAsks, ev.e, policyUnknown)
    ensures Decision(c'.file, maxAsks, ev.e, policyUnknown) == Some(Reply(Done, [])) ==>
      Met(ev.known, ev.floor, c'.file)
  {
    MatchKeepsMatchable(c, ev, c', policyUnknown);
    SilentIff(c'.file, maxAsks, ev.e, policyUnknown);
    if c'.file.missing != [] {
      assert c'.file.missing[0] in c'.file.missing;
    }
    if c.file.policyType in ev.known {
      CompleteIffAllSatisfied(c'.file.documents, ev.known[c.file.policyType], ev.floor, c'.file.missing);
    }
  }

  /**
  In every run of a case, from a new one or one stored without codes, through evaluated and merged
  emails, sweeps and changes of the registry: every ingest leads to a reply or a flag, and a
  completion note means that every required item is satisfied.
  */
  lemma EveryIngestIsHeard(cases: seq<CaseFile>, events: seq<Event>, unknowns: seq<bool>, i: nat, maxAsks: int)
    requires IsCase(cases, events, unknowns) && i < |events| && !events[i].Sweep?
    ensures var ev, f := events[i], cases[i + 1].file;
      && !Silent(f, maxAsks, ev.e, unknowns[i])
      && (Decision(f, maxAsks, ev.e, unknowns[i]) == Some(Reply(Done, [])) ==> Met(ev.known, ev.floor, f))
  {
    var c, ev, c', u := cases[i], events[i], cases[i + 1], unknowns[i];
    if ev.Mail? {
      NeverSilentAfterEvaluation(ev.known, ev.floor, c.file, ev.e, c'.file, u, maxAsks);
    } else {
      MatchableAt(cases, events, unknowns, i);
      MatchIsHeard(c, ev, c', u, maxAsks);
    }
  }
}
