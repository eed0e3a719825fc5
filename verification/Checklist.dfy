/**
internal/model/checklist.go: which required items a submission is still missing.

Confidences and field values are reals. A field's value is what numericValue makes of
it: a finite number, a value that is no finite number, or an explicit null.
*/
module Checklist {

  datatype Option<+T> = None | Some(value: T)

  datatype ReasonCode =
    | NotProvided | LowConfidence | Unreadable | FieldShortfall | Encrypted | MissingAttachment | PolicyUnknown
    | Legacy   // a stored item without a code

  /** What the reply tells the broker; the wording itself is not modelled. */
  datatype Reason =
    | NoReason
    | Absent | Unidentified | Scanned | Locked | Unclear
    | Unconfirmed(unit: string)                        // extraction ran without a usable value
    | Shortfall(unit: string, have: real, need: real)  // a value below the minimum

  datatype MissingItem = MissingItem(id: string, description: string, reason: Reason, code: ReasonCode,
                                     confidence: real)

  datatype FieldValue = Null | Number(value: real) | NotANumber

  datatype FieldRule = FieldRule(name: string, isNumber: bool, minValue: Option<real>, unit: string)

  datatype Item = Item(id: string, description: string, rule: Option<FieldRule>)

  datatype Document = Document(
    classifiedAs: string,
    confidence: real,
    unreadable: bool,
    encrypted: bool,
    fields: Option<map<string, FieldValue>>
  )

  // ---- one document against one rule ----

  datatype Outcome =
    | SoftPass             // extraction did not run
    | Affirmed
    | Failing(reason: Reason)

  function EvaluateField(rule: FieldRule, doc: Document): Outcome {
    if doc.fields.None? || rule.name !in doc.fields.value then
      SoftPass
    else
      match doc.fields.value[rule.name]
      case Null => Failing(Unconfirmed(rule.unit))
      case NotANumber =>
        if rule.minValue.Some? || rule.isNumber then Failing(Unconfirmed(rule.unit)) else Affirmed
      case Number(v) =>
        if rule.minValue.Some? && v < rule.minValue.value
        then Failing(Shortfall(rule.unit, v, rule.minValue.value))
        else Affirmed
  }

  // ---- what a document counts for ----

  predicate Counts(d: Document, id: string) {
    d.classifiedAs != "" && d.classifiedAs == id
  }

  predicate Qualifies(d: Document, id: string, floor: real) {
    Counts(d, id) && !d.encrypted && !d.unreadable && d.confidence >= floor
  }

  predicate BelowFloor(d: Document, id: string, floor: real) {
    Counts(d, id) && !d.encrypted && !d.unreadable && d.confidence < floor
  }

  // ---- the declarative definition, one item at a time ----

  predicate SomeQualifies(docs: seq<Document>, id: string, floor: real) {
    exists d :: d in docs && Qualifies(d, id, floor)
  }

  predicate SomeAffirms(docs: seq<Document>, id: string, rule: FieldRule, floor: real) {
    exists d :: d in docs && Qualifies(d, id, floor) && EvaluateField(rule, d).Affirmed?
  }

  predicate SomeFails(docs: seq<Document>, id: string, rule: FieldRule, floor: real) {
    exists d :: d in docs && Qualifies(d, id, floor) && EvaluateField(rule, d).Failing?
  }

  /**
  An item is satisfied by a readable document at or above the floor, unless its rule fails and nothing
  affirms it.
  */
  predicate Satisfied(docs: seq<Document>, item: Item, floor: real) {
    && SomeQualifies(docs, item.id, floor)
    && (item.rule.Some? ==>
          SomeAffirms(docs, item.id, item.rule.value, floor) || !SomeFails(docs, item.id, item.rule.value, floor))
  }

  /** Why an item is missing, most specific cause first. */
  function Cause(docs: seq<Document>, id: string, floor: real): ReasonCode {
    if SomeQualifies(docs, id, floor) then FieldShortfall
    else if exists d :: d in docs && Counts(d, id) && d.encrypted then Encrypted
    else if exists d :: d in docs && Counts(d, id) && d.unreadable && !d.encrypted then Unreadable
    else if exists d :: d in docs && BelowFloor(d, id, floor) then LowConfidence
    else NotProvided
  }

  /** The highest below-floor confidence, never under zero. */
  ghost predicate IsTopConfidence(docs: seq<Document>, id: string, floor: real, top: real) {
    && (forall d :: d in docs && BelowFloor(d, id, floor) ==> d.confidence <= top)
    && 0.0 <= top
    && (top == 0.0 || exists d :: d in docs && BelowFloor(d, id, floor) && d.confidence == top)
  }

  function CauseReason(code: ReasonCode): Reason {
    match code
    case NotProvided => Absent
    case LowConfidence => Unidentified
    case Unreadable => Scanned
    case Encrypted => Locked
    case _ => NoReason
  }

  predicate FailsAt(docs: seq<Document>, k: int, id: string, rule: FieldRule, floor: real) {
    0 <= k < |docs| && Qualifies(docs[k], id, floor) && EvaluateField(rule, docs[k]).Failing?
  }

  /** The reason given is that of the last qualifying document that fails the rule. */
  ghost predicate LastFailure(docs: seq<Document>, id: string, rule: FieldRule, floor: real, reason: Reason) {
    exists k ::
      && FailsAt(docs, k, id, rule, floor)
      && EvaluateField(rule, docs[k]).reason == reason
      && forall j :: k < j ==> !FailsAt(docs, j, id, rule, floor)
  }

  /** `m` reports the missing item as the definition says. */
  ghost predicate Reports(docs: seq<Document>, item: Item, floor: real, m: MissingItem) {
    && m.id == item.id && m.description == item.description
    && m.code == Cause(docs, item.id, floor)
    && (if m.code.LowConfidence? then IsTopConfidence(docs, item.id, floor, m.confidence) else m.confidence == 0.0)
    && (if m.code.FieldShortfall? then item.rule.Some? && LastFailure(docs, item.id, item.rule.value, floor, m.reason)
        else m.reason == CauseReason(m.code))
  }

  function MissingItems(docs: seq<Document>, items: seq<Item>, floor: real): seq<Item> {
    if |items| == 0 then []
    else
      var rest := MissingItems(docs, items[..|items| - 1], floor);
      var item := items[|items| - 1];
      if Satisfied(docs, item, floor) then rest else rest + [item]
  }

  /** The evaluation's result: one report per missing item, in checklist order. */
  ghost predicate IsEvaluation(docs: seq<Document>, items: seq<Item>, floor: real, missing: seq<MissingItem>) {
    var gaps := MissingItems(docs, items, floor);
    |missing| == |gaps| && forall i :: 0 <= i < |gaps| ==> Reports(docs, gaps[i], floor, missing[i])
  }

  // ---- the evaluator ----

  /** The documents classified to one item, sorted by what they are good for. */
  datatype Bucket = Bucket(qualifying: seq<Document>, unreadable: bool, encrypted: bool, lowConfidence: bool,
                           topConfidence: real)

  function Qualifying(docs: seq<Document>, id: string, floor: real): seq<Document> {
    if |docs| == 0 then []
    else
      var rest := Qualifying(docs[..|docs| - 1], id, floor);
      if Qualifies(docs[|docs| - 1], id, floor) then rest + [docs[|docs| - 1]] else rest
  }

  ghost predicate IsBucket(docs: seq<Document>, id: string, floor: real, b: Bucket) {
    && b.qualifying == Qualifying(docs, id, floor)
    && (b.encrypted <==> exists d :: d in docs && Counts(d, id) && d.encrypted)
    && (b.unreadable <==> exists d :: d in docs && Counts(d, id) && d.unreadable && !d.encrypted)
    && (b.lowConfidence <==> exists d :: d in docs && BelowFloor(d, id, floor))
    && IsTopConfidence(docs, id, floor, b.topConfidence)
  }

  const EMPTY_BUCKET := Bucket([], false, false, false, 0.0)

  function Lookup(byItem: map<string, Bucket>, id: string): Bucket {
    if id in byItem then byItem[id] else EMPTY_BUCKET
  }

  /** How one more document changes its bucket. */
  function AddTo(b: Bucket, d: Document, floor: real): Bucket {
    if d.encrypted then b.(encrypted := true)
    else if d.unreadable then b.(unreadable := true)
    else if d.confidence < floor then
      b.(lowConfidence := true,
         topConfidence := if d.confidence > b.topConfidence then d.confidence else b.topConfidence)
    else b.(qualifying := b.qualifying + [d])
  }

  lemma AddedToBucket(docs: seq<Document>, d: Document, id: string, floor: real, b: Bucket)
    requires IsBucket(docs, id, floor, b)
    ensures IsBucket(docs + [d], id, floor, if Counts(d, id) then AddTo(b, d, floor) else b)
  {
    var more := docs + [d];
    assert more[..|docs|] == docs;
    assert d in more && forall e :: e in docs ==> e in more;
    assert forall e :: e in more ==> e in docs || e == d;
  }

  /** The first loop of EvaluateChecklist. */
  method FillBuckets(docs: seq<Document>, floor: real) returns (byItem: map<string, Bucket>)
    ensures forall id :: IsBucket(docs, id, floor, Lookup(byItem, id))
  {
    byItem := map[];
    for i := 0 to |docs|
      invariant forall id :: IsBucket(docs[..i], id, floor, Lookup(byItem, id))
    {
      var d := docs[i];
      ghost var before := byItem;
      if d.classifiedAs != "" {
        byItem := byItem[d.classifiedAs := AddTo(Lookup(byItem, d.classifiedAs), d, floor)];
      }
      assert docs[..i + 1] == docs[..i] + [d];
      forall id ensures IsBucket(docs[..i + 1], id, floor, Lookup(byItem, id)) {
        AddedToBucket(docs[..i], d, id, floor, Lookup(before, id));
      }
    }
    assert docs[..|docs|] == docs;
  }

  lemma {:induction false} QualifyingIsFilter(docs: seq<Document>, id: string, floor: real)
    ensures forall d :: d in Qualifying(docs, id, floor) <==> d in docs && Qualifies(d, id, floor)
  {
    if |docs| > 0 {
      QualifyingIsFilter(docs[..|docs| - 1], id, floor);
      assert docs == docs[..|docs| - 1] + [docs[|docs| - 1]];
    }
  }

  /** The reason of the last failing document, read off a list from its end. */
  function LastReason(docs: seq<Document>, id: string, rule: FieldRule, floor: real): Option<Reason> {
    if |docs| == 0 then None
    else if FailsAt(docs, |docs| - 1, id, rule, floor) then Some(EvaluateField(rule, docs[|docs| - 1]).reason)
    else LastReason(docs[..|docs| - 1], id, rule, floor)
  }

  lemma {:induction false} LastReasonIsLastFailure(docs: seq<Document>, id: string, rule: FieldRule, floor: real)
    ensures match LastReason(docs, id, rule, floor)
            case Some(reason) => LastFailure(docs, id, rule, floor, reason)
            case None => forall k :: !FailsAt(docs, k, id, rule, floor)
  {
    if |docs| > 0 && !FailsAt(docs, |docs| - 1, id, rule, floor) {
      var front := docs[..|docs| - 1];
      LastReasonIsLastFailure(front, id, rule, floor);
      forall k ensures FailsAt(docs, k, id, rule, floor) <==> FailsAt(front, k, id, rule, floor) {
        if 0 <= k < |front| {
          assert front[k] == docs[k];
        }
      }
      match LastReason(docs, id, rule, floor)
      case Some(reason) =>
        var k :| && FailsAt(front, k, id, rule, floor) && EvaluateField(rule, front[k]).reason == reason
                 && forall j :: k < j ==> !FailsAt(front, j, id, rule, floor);
        assert front[k] == docs[k];
      case None =>
    } else if |docs| > 0 {
      assert FailsAt(docs, |docs| - 1, id, rule, floor);
      assert forall j :: |docs| - 1 < j ==> !FailsAt(docs, j, id, rule, floor);
    }
  }

  /** Dropping the documents that do not qualify does not change the last failure. */
  lemma {:induction false} LastReasonOfQualifying(docs: seq<Document>, id: string, rule: FieldRule, floor: real)
    ensures LastReason(Qualifying(docs, id, floor), id, rule, floor) == LastReason(docs, id, rule, floor)
  {
    if |docs| > 0 {
      var front := docs[..|docs| - 1];
      LastReasonOfQualifying(front, id, rule, floor);
      var q := Qualifying(docs, id, floor);
      if Qualifies(docs[|docs| - 1], id, floor) {
        assert q[..|q| - 1] == Qualifying(front, id, floor);
        assert q[|q| - 1] == docs[|docs| - 1];
      }
    }
  }

  lemma FailsAtIsSomeFails(docs: seq<Document>, id: string, rule: FieldRule, floor: real)
    ensures SomeFails(docs, id, rule, floor) <==> exists k :: FailsAt(docs, k, id, rule, floor)
  {
    if SomeFails(docs, id, rule, floor) {
      var d :| d in docs && Qualifies(d, id, floor) && EvaluateField(rule, d).Failing?;
      var k :| 0 <= k < |docs| && docs[k] == d;
      assert FailsAt(docs, k, id, rule, floor);
    }
  }

  /** The inner loop: affirmed by the first document that passes the rule, else the last failure wins. */
  method CheckRule(qualifying: seq<Document>, id: string, rule: FieldRule, floor: real)
    returns (affirmed: bool, failed: bool, failReason: Reason)
    requires forall d :: d in qualifying ==> Qualifies(d, id, floor)
    ensures affirmed <==> exists d :: d in qualifying && EvaluateField(rule, d).Affirmed?
    ensures !affirmed ==> LastReason(qualifying, id, rule, floor) == if failed then Some(failReason) else None
  {
    affirmed, failed, failReason := false, false, NoReason;
    for i := 0 to |qualifying|
      invariant !affirmed
      invariant forall d :: d in qualifying[..i] ==> !EvaluateField(rule, d).Affirmed?
      invariant LastReason(qualifying[..i], id, rule, floor) == if failed then Some(failReason) else None
    {
      var doc := qualifying[i];
      var outcome := EvaluateField(rule, doc);
      assert qualifying[..i + 1][..i] == qualifying[..i];
      assert qualifying[..i + 1][i] == doc;
      assert doc in qualifying;
      if outcome.Affirmed? {
        affirmed := true;
        break;
      }
      if outcome.Failing? {
        failed, failReason := true, outcome.reason;
      }
    }
    if !affirmed {
      assert qualifying[..|qualifying|] == qualifying;
    }
  }

  /** The report for an item that has no qualifying document. */
  function UnsatisfiedItem(item: Item, b: Bucket): MissingItem {
    if b.encrypted then MissingItem(item.id, item.description, CauseReason(Encrypted), Encrypted, 0.0)
    else if b.unreadable then MissingItem(item.id, item.description, CauseReason(Unreadable), Unreadable, 0.0)
    else if b.lowConfidence then
      MissingItem(item.id, item.description, CauseReason(LowConfidence), LowConfidence, b.topConfidence)
    else MissingItem(item.id, item.description, CauseReason(NotProvided), NotProvided, 0.0)
  }

  /** The body of the second loop: the verdict on one item. */
  method JudgeItem(docs: seq<Document>, item: Item, b: Bucket, floor: real) returns (m: Option<MissingItem>)
    requires IsBucket(docs, item.id, floor, b)
    ensures m.None? <==> Satisfied(docs, item, floor)
    ensures m.Some? ==> Reports(docs, item, floor, m.value)
  {
    QualifyingIsFilter(docs, item.id, floor);
    if |b.qualifying| == 0 {
      return Some(UnsatisfiedItem(item, b));
    }
    assert b.qualifying[0] in b.qualifying;
    if item.rule.None? {
      return None;
    }
    var rule := item.rule.value;
    var affirmed, failed, failReason := CheckRule(b.qualifying, item.id, rule, floor);
    assert affirmed <==> SomeAffirms(docs, item.id, rule, floor);
    LastReasonOfQualifying(docs, item.id, rule, floor);
    LastReasonIsLastFailure(docs, item.id, rule, floor);
    FailsAtIsSomeFails(docs, item.id, rule, floor);
    if !affirmed && failed {
      m := Some(MissingItem(item.id, item.description, failReason, FieldShortfall, 0.0));
    } else {
      m := None;
    }
  }

  /** EvaluateChecklist: the loops compute the declarative evaluation. */
  method EvaluateChecklist(docs: seq<Document>, items: seq<Item>, floor: real) returns (missing: seq<MissingItem>)
    ensures IsEvaluation(docs, items, floor, missing)
  {
    var byItem := FillBuckets(docs, floor);
    missing := [];
    for i := 0 to |items|
      invariant IsEvaluation(docs, items[..i], floor, missing)
    {
      assert items[..i + 1][..i] == items[..i];
      var m := JudgeItem(docs, items[i], Lookup(byItem, items[i].id), floor);
      if m.Some? {
        missing := missing + [m.value];
      }
    }
    assert items[..|items|] == items;
  }

  // ---- who acts on a missing item ----

  predicate ForBroker(code: ReasonCode) {
    code.NotProvided? || code.FieldShortfall? || code.Encrypted? || code.MissingAttachment? || code.PolicyUnknown?
  }

  predicate ForAgency(code: ReasonCode) {
    code.Unreadable? || code.LowConfidence?
  }

  function BrokerItems(missing: seq<MissingItem>): seq<MissingItem> {
    if |missing| == 0 then []
    else
      var rest := BrokerItems(missing[..|missing| - 1]);
      if ForBroker(missing[|missing| - 1].code) then rest + [missing[|missing| - 1]] else rest
  }

  lemma {:induction false} BrokerItemsAreForBroker(missing: seq<MissingItem>)
    ensures forall m :: m in BrokerItems(missing) <==> m in missing && ForBroker(m.code)
  {
    if |missing| > 0 {
      BrokerItemsAreForBroker(missing[..|missing| - 1]);
      assert missing == missing[..|missing| - 1] + [missing[|missing| - 1]];
    }
  }

  method BrokerActionable(missing: seq<MissingItem>) returns (broker: seq<MissingItem>)
    ensures broker == BrokerItems(missing)
    ensures forall m :: m in broker <==> m in missing && ForBroker(m.code)
  {
    broker := [];
    for i := 0 to |missing|
      invariant broker == BrokerItems(missing[..i])
    {
      assert missing[..i + 1][..i] == missing[..i];
      if ForBroker(missing[i].code) {
        broker := broker + [missing[i]];
      }
    }
    assert missing[..|missing|] == missing;
    BrokerItemsAreForBroker(missing);
  }

  method RequiresReview(missing: seq<MissingItem>) returns (review: bool)
    ensures review <==> exists m :: m in missing && ForAgency(m.code)
  {
    for i := 0 to |missing|
      invariant forall j :: 0 <= j < i ==> !ForAgency(missing[j].code)
    {
      if ForAgency(missing[i].code) {
        assert missing[i] in missing;
        return true;
      }
    }
    return false;
  }
}
