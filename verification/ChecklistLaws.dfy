/** What the checklist evaluation promises over whole sets and sequences of documents. */
module ChecklistLaws {
  import opened Checklist

  ghost predicate SameDocuments(docs: seq<Document>, docs': seq<Document>) {
    forall d :: d in docs <==> d in docs'
  }

  lemma PermutationsHaveSameDocuments(docs: seq<Document>, docs': seq<Document>)
    requires multiset(docs) == multiset(docs')
    ensures SameDocuments(docs, docs')
  {
    forall d ensures d in docs <==> d in docs' {
      assert d in docs <==> d in multiset(docs);
      assert d in docs' <==> d in multiset(docs');
    }
  }

  lemma SameVerdict(docs: seq<Document>, docs': seq<Document>, item: Item, floor: real)
    requires SameDocuments(docs, docs')
    ensures Satisfied(docs, item, floor) <==> Satisfied(docs', item, floor)
    ensures Cause(docs, item.id, floor) == Cause(docs', item.id, floor)
  {
  }

  lemma SameTop(docs: seq<Document>, docs': seq<Document>, id: string, floor: real, top: real, top': real)
    requires SameDocuments(docs, docs') && IsTopConfidence(docs, id, floor, top) &&
      IsTopConfidence(docs', id, floor, top')
    ensures top == top'
  {
  }

  lemma {:induction false} SameGaps(docs: seq<Document>, docs': seq<Document>, items: seq<Item>, floor: real)
    requires SameDocuments(docs, docs')
    ensures MissingItems(docs, items, floor) == MissingItems(docs', items, floor)
  {
    if |items| > 0 {
      SameGaps(docs, docs', items[..|items| - 1], floor);
      SameVerdict(docs, docs', items[|items| - 1], floor);
    }
  }

  /** Neither the order nor a repetition of documents changes which items are missing, why, or with what confidence. */
  lemma OrderDoesNotMatter(docs: seq<Document>, docs': seq<Document>, items: seq<Item>, floor: real,
                           missing: seq<MissingItem>, missing': seq<MissingItem>)
    requires multiset(docs) == multiset(docs') || SameDocuments(docs, docs')
    requires IsEvaluation(docs, items, floor, missing) && IsEvaluation(docs', items, floor, missing')
    ensures |missing| == |missing'|
    ensures forall i :: 0 <= i < |missing| ==>
              missing[i].id == missing'[i].id && missing[i].code == missing'[i].code &&
                missing[i].confidence == missing'[i].confidence
  {
    if multiset(docs) == multiset(docs') {
      PermutationsHaveSameDocuments(docs, docs');
    }
    SameGaps(docs, docs', items, floor);
    var gaps := MissingItems(docs, items, floor);
    forall i | 0 <= i < |missing|
      ensures missing[i].id == missing'[i].id && missing[i].code == missing'[i].code &&
        missing[i].confidence == missing'[i].confidence
    {
      assert Reports(docs, gaps[i], floor, missing[i]) && Reports(docs', gaps[i], floor, missing'[i]);
      SameVerdict(docs, docs', gaps[i], floor);
      if missing[i].code.LowConfidence? {
        SameTop(docs, docs', gaps[i].id, floor, missing[i].confidence, missing'[i].confidence);
      }
    }
  }

  /** The result is a function of its inputs, reasons included. */
  lemma EvaluationIsUnique(docs: seq<Document>, items: seq<Item>, floor: real, missing: seq<MissingItem>,
                           missing': seq<MissingItem>)
    requires IsEvaluation(docs, items, floor, missing) && IsEvaluation(docs, items, floor, missing')
    ensures missing == missing'
  {
  }

  lemma {:induction false} GapsAreUnsatisfied(docs: seq<Document>, items: seq<Item>, floor: real)
    ensures forall item :: item in MissingItems(docs, items, floor) <==> item in items && !Satisfied(docs, item, floor)
  {
    if |items| > 0 {
      GapsAreUnsatisfied(docs, items[..|items| - 1], floor);
      assert items == items[..|items| - 1] + [items[|items| - 1]];
    }
  }

  /** Nothing is missing exactly when every required item is satisfied. */
  lemma CompleteIffAllSatisfied(docs: seq<Document>, items: seq<Item>, floor: real, missing: seq<MissingItem>)
    requires IsEvaluation(docs, items, floor, missing)
    ensures missing == [] <==> forall item :: item in items ==> Satisfied(docs, item, floor)
  {
    GapsAreUnsatisfied(docs, items, floor);
    var gaps := MissingItems(docs, items, floor);
    if missing != [] {
      assert gaps[0] in gaps;
    }
  }

  /** The evaluator's codes, all of which somebody acts on. */
  lemma EvaluatorCodes(docs: seq<Document>, items: seq<Item>, floor: real, missing: seq<MissingItem>, m: MissingItem)
    requires IsEvaluation(docs, items, floor, missing) && m in missing
    ensures ForBroker(m.code) || ForAgency(m.code)
  {
  }

  // ---- the verdict on one item, in terms of the documents' own columns ----

  lemma {:induction false} GapsOfBoth(docs: seq<Document>, a: seq<Item>, b: seq<Item>, floor: real)
    ensures MissingItems(docs, a + b, floor) == MissingItems(docs, a, floor) + MissingItems(docs, b, floor)
  {
    if |b| == 0 {
      assert a + b == a;
    } else {
      var front, last := b[..|b| - 1], b[|b| - 1];
      GapsOfBoth(docs, a, front, floor);
      assert (a + b)[..|a + b| - 1] == a + front && (a + b)[|a + b| - 1] == last;
    }
  }

  /** A checklist is evaluated item by item: the reports on its parts, one after the other. */
  lemma EvaluatesItemByItem(docs: seq<Document>, a: seq<Item>, b: seq<Item>, floor: real, ma: seq<MissingItem>,
                            mb: seq<MissingItem>)
    requires IsEvaluation(docs, a, floor, ma) && IsEvaluation(docs, b, floor, mb)
    ensures IsEvaluation(docs, a + b, floor, ma + mb)
  {
    GapsOfBoth(docs, a, b, floor);
  }

  lemma OneItem(docs: seq<Document>, item: Item, floor: real, missing: seq<MissingItem>)
    requires IsEvaluation(docs, [item], floor, missing)
    ensures if Satisfied(docs, item, floor) then missing == []
            else |missing| == 1 && Reports(docs, item, floor, missing[0])
  {
    assert [item][..0] == [];
    assert MissingItems(docs, [], floor) == [];
  }

  /** With no document classified to it, or no id to classify to, an item is missing as not provided. */
  lemma NoDocument(docs: seq<Document>, item: Item, floor: real, missing: seq<MissingItem>)
    requires IsEvaluation(docs, [item], floor, missing)
    requires item.id == "" || forall d :: d in docs ==> d.classifiedAs != item.id
    ensures missing == [MissingItem(item.id, item.description, Absent, NotProvided, 0.0)]
  {
    OneItem(docs, item, floor, missing);
  }

  /** The only document classified to the item. */
  ghost predicate OnlyDocument(docs: seq<Document>, item: Item, d: Document) {
    item.id != "" && d in docs && forall e :: e in docs ==> (e.classifiedAs == item.id <==> e == d)
  }

  /** One that cannot be used: locked, then scanned, then not confidently identified. */
  lemma UnusableDocument(docs: seq<Document>, item: Item, floor: real, missing: seq<MissingItem>, d: Document)
    requires IsEvaluation(docs, [item], floor, missing) && OnlyDocument(docs, item, d)
    requires d.encrypted || d.unreadable || d.confidence < floor
    ensures missing ==
      [if d.encrypted then MissingItem(item.id, item.description, Locked, Encrypted, 0.0)
       else if d.unreadable then MissingItem(item.id, item.description, Scanned, Unreadable, 0.0)
       else MissingItem(item.id, item.description, Unidentified, LowConfidence,
                        if d.confidence > 0.0 then d.confidence else 0.0)]
  {
    OneItem(docs, item, floor, missing);
  }

  function FieldOf(d: Document, name: string): Option<FieldValue> {
    if d.fields.Some? && name in d.fields.value then Some(d.fields.value[name]) else None
  }

  /** The item is reported for its field, with this reason. */
  ghost predicate Short(item: Item, missing: seq<MissingItem>, reason: Reason) {
    missing == [MissingItem(item.id, item.description, reason, FieldShortfall, 0.0)]
  }

  /**
  One that can, and no other: without a rule, or with the field not extracted, the item is not missing.
  A null is unconfirmed; so is a value that is no number, where a number is called for; a number falls
  short exactly when it is below the minimum.
  */
  lemma UsableDocument(docs: seq<Document>, item: Item, floor: real, missing: seq<MissingItem>, d: Document)
    requires IsEvaluation(docs, [item], floor, missing) && item.id != "" && d in docs && d.classifiedAs == item.id
    requires forall e :: e in docs && e.classifiedAs == item.id ==>
               (!e.encrypted && !e.unreadable && e.confidence >= floor <==> e == d)
    ensures item.rule.None? ==> missing == []
    ensures item.rule.Some? ==>
      var rule := item.rule.value;
      match FieldOf(d, rule.name)
      case None => missing == []
      case Some(Null) => Short(item, missing, Unconfirmed(rule.unit))
      case Some(NotANumber) =>
        if rule.minValue.Some? || rule.isNumber then Short(item, missing, Unconfirmed(rule.unit)) else missing == []
      case Some(Number(v)) =>
        if rule.minValue.Some? && v < rule.minValue.value
        then Short(item, missing, Shortfall(rule.unit, v, rule.minValue.value)) else missing == []
  {
    OneItem(docs, item, floor, missing);
    assert Qualifies(d, item.id, floor);
    if item.rule.Some? {
      var rule := item.rule.value;
      assert SomeFails(docs, item.id, rule, floor) <==> EvaluateField(rule, d).Failing?;
      assert SomeAffirms(docs, item.id, rule, floor) <==> EvaluateField(rule, d).Affirmed?;
    }
  }

  /** Of several usable documents the last failing one gives the reason, unless some document affirms the rule. */
  lemma LastShortfallIsNamed(docs: seq<Document>, item: Item, floor: real, missing: seq<MissingItem>, d: Document,
                             v: real)
    requires IsEvaluation(docs + [d], [item], floor, missing) && missing != []
    requires item.id != "" && d.classifiedAs == item.id && !d.encrypted && !d.unreadable && d.confidence >= floor
    requires item.rule.Some? && FieldOf(d, item.rule.value.name) == Some(Number(v))
    ensures item.rule.value.minValue.Some? && v < item.rule.value.minValue.value
    ensures Short(item, missing, Shortfall(item.rule.value.unit, v, item.rule.value.minValue.value))
  {
    var rule, all, n := item.rule.value, docs + [d], |docs|;
    OneItem(all, item, floor, missing);
    assert all[n] == d && d in all && Qualifies(d, item.id, floor);
    assert FailsAt(all, n, item.id, rule, floor) <==> EvaluateField(rule, d).Failing?;
  }

  /**
  Of several unusable ones the code is the most specific, and the confidence the highest of those below
  the floor.
  */
  lemma MostSpecificCause(docs: seq<Document>, item: Item, floor: real, missing: seq<MissingItem>)
    requires IsEvaluation(docs, [item], floor, missing) && item.id != ""
    requires forall d :: d in docs && d.classifiedAs == item.id ==> d.encrypted || d.unreadable || d.confidence < floor
    ensures |missing| == 1
    ensures missing[0].code.Encrypted? <==> exists d :: d in docs && d.classifiedAs == item.id && d.encrypted
    ensures missing[0].code.Unreadable? <==>
      && (exists d :: d in docs && d.classifiedAs == item.id && d.unreadable)
      && (forall d :: d in docs && d.classifiedAs == item.id ==> !d.encrypted)
    ensures missing[0].code.LowConfidence? <==>
      && (exists d :: d in docs && d.classifiedAs == item.id)
      && (forall d :: d in docs && d.classifiedAs == item.id ==> !d.encrypted && !d.unreadable)
    ensures missing[0].code.LowConfidence? ==>
      && (forall d :: d in docs && d.classifiedAs == item.id ==> d.confidence <= missing[0].confidence)
      && (missing[0].confidence == 0.0 ||
          exists d :: d in docs && d.classifiedAs == item.id && d.confidence == missing[0].confidence)
  {
    OneItem(docs, item, floor, missing);
  }

  /** A document settles the item for good: it affirms the rule, or there is no rule. */
  predicate Affirmed(docs: seq<Document>, item: Item, floor: real) {
    if item.rule.Some? then SomeAffirms(docs, item.id, item.rule.value, floor) else SomeQualifies(docs, item.id, floor)
  }

  /** Once affirmed, no further documents make the item missing. */
  lemma AffirmedForGood(docs: seq<Document>, more: seq<Document>, item: Item, floor: real)
    requires Affirmed(docs, item, floor)
    ensures Affirmed(docs + more, item, floor) && Satisfied(docs + more, item, floor)
  {
  }

  /**
  Satisfaction alone is not for good. A satisfied item becomes missing with one more
  document exactly when that document qualifies, fails the rule, and nothing so far affirms it.
  */
  lemma WhenSatisfactionIsUndone(docs: seq<Document>, d: Document, item: Item, floor: real)
    requires Satisfied(docs, item, floor)
    ensures !Satisfied(docs + [d], item, floor) <==>
            (item.rule.Some? && Qualifies(d, item.id, floor) && EvaluateField(item.rule.value, d).Failing? &&
              !Affirmed(docs, item, floor))
  {
  }

  /** A soft pass undone by a three-year loss run where five years are required. */
  lemma ShortDocumentUndoesSoftPass()
    ensures var item := Item("loss_runs", "Loss runs", Some(FieldRule("years_covered", true, Some(5.0), "years")));
            var soft := Document("loss_runs", 0.9, false, false, None);
            var short := Document("loss_runs", 0.9, false, false, Some(map["years_covered" := Number(3.0)]));
            Satisfied([soft], item, 0.5) && !Satisfied([soft, short], item, 0.5)
  {
    var item := Item("loss_runs", "Loss runs", Some(FieldRule("years_covered", true, Some(5.0), "years")));
    var soft := Document("loss_runs", 0.9, false, false, None);
    var short := Document("loss_runs", 0.9, false, false, Some(map["years_covered" := Number(3.0)]));
    assert soft in [soft];
    assert Satisfied([soft], item, 0.5);
    WhenSatisfactionIsUndone([soft], short, item, 0.5);
    assert [soft] + [short] == [soft, short];
  }
}
