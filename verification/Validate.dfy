/** From extracted fields to a document's result and status: src/ocr_engine/extraction/validate.py. */
module Validate {
  import opened Prelude
  import opened Statuses
  import opened Lines
  import opened Extract
  import opened Reading

  datatype FieldStatus = Extracted | LowConfidence | NotFound

  datatype FieldResult = FieldResult(name: string, confidence: real, status: FieldStatus, amount: Option<int>,
                                     currency: Option<string>, value: Option<string>,
                                     box: Option<(int, int, int, int)>, page: Option<int>)

  datatype Issue = ValidationFailed(field: string) | LowConfidenceIssue(field: string, confidence: real, threshold: real)

  datatype DocumentResult = DocumentResult(schemaVersion: string, avgConfidence: real, fields: seq<FieldResult>,
                                           issues: seq<Issue>)

  const SCHEMA_VERSION := "1.0"

  // ----- one field -----

  predicate Low(f: FieldSchema, item: ExtractedField) {
    item.HasValue() && item.confidence < f.threshold
  }

  /** A field that keeps the document from being completed. */
  predicate Flawed(f: FieldSchema, item: ExtractedField) {
    (f.required && !item.HasValue()) || Low(f, item)
  }

  function ExtractedResult(f: FieldSchema, item: ExtractedField): FieldResult {
    var at := item.source;
    FieldResult(f.name, item.confidence, Extracted,
                if f.fieldType == MoneyField then item.amount else None,
                if f.fieldType == MoneyField then item.currency else None,
                if f.fieldType == MoneyField then None else item.value,
                if at.Some? then Some((at.value.x1, at.value.y1, at.value.x2, at.value.y2)) else None,
                if at.Some? then Some(at.value.page) else None)
  }

  function MissingResult(f: FieldSchema): FieldResult {
    FieldResult(f.name, 0.0, NotFound,
                if f.fieldType == MoneyField then Some(0) else None,
                if f.fieldType == MoneyField then Some(f.currency) else None,
                if f.fieldType == MoneyField then None else Some(""), None, None)
  }

  function ResultField(f: FieldSchema, item: ExtractedField): FieldResult {
    if !item.HasValue() then MissingResult(f)
    else if Low(f, item) then ExtractedResult(f, item).(status := LowConfidence)
    else ExtractedResult(f, item)
  }

  function FieldIssue(f: FieldSchema, item: ExtractedField): Issue {
    if item.HasValue() then LowConfidenceIssue(f.name, item.confidence, f.threshold) else ValidationFailed(f.name)
  }

  // ----- the whole document, as a specification -----

  ghost function Issues(fields: seq<FieldSchema>, items: seq<ExtractedField>): seq<Issue>
    requires |fields| == |items|
  {
    if fields == [] then []
    else
      var n := |fields| - 1;
      Issues(fields[..n], items[..n]) + if Flawed(fields[n], items[n]) then [FieldIssue(fields[n], items[n])] else []
  }

  ghost function Confidences(items: seq<ExtractedField>): seq<real> {
    if items == [] then []
    else
      var n := |items| - 1;
      Confidences(items[..n]) + if items[n].HasValue() then [items[n].confidence] else []
  }

  function Sum(s: seq<real>): real {
    if s == [] then 0.0 else Sum(s[..|s| - 1]) + s[|s| - 1]
  }

  function Average(s: seq<real>): real {
    if s == [] then 0.0 else Sum(s) / |s| as real
  }

  ghost function ResultOf(fields: seq<FieldSchema>, items: seq<ExtractedField>): DocumentResult
    requires |fields| == |items|
  {
    DocumentResult(SCHEMA_VERSION, Average(Confidences(items)),
                   seq(|fields|, i requires 0 <= i < |fields| => ResultField(fields[i], items[i])),
                   Issues(fields, items))
  }

  ghost function StatusOf(fields: seq<FieldSchema>, items: seq<ExtractedField>): Status
    requires |fields| == |items|
  {
    if exists i :: 0 <= i < |fields| && Flawed(fields[i], items[i]) then NeedsReview else Completed
  }

  // ----- the code -----

  /** What a result field tells of the item extracted for it. */
  predicate Reports(r: FieldResult, f: FieldSchema, item: ExtractedField) {
    var present := item.value.Some? || item.amount.Some?;
    var money := f.fieldType == MoneyField;
    && r.name == f.name
    && (present ==>
          && r.confidence == item.confidence
          && r.status == (if item.confidence < f.threshold then LowConfidence else Extracted)
          && (money ==> r.amount == item.amount && r.currency == item.currency && r.value == None)
          && (!money ==> r.value == item.value && r.amount == None && r.currency == None)
          && match item.source
             case None => r.box == None && r.page == None
             case Some(l) => r.box == Some((l.x1, l.y1, l.x2, l.y2)) && r.page == Some(l.page))
    && (!present ==>
          && r.confidence == 0.0 && r.status == NotFound && r.box == None && r.page == None
          && (money ==> r.amount == Some(0) && r.currency == Some(f.currency) && r.value == None)
          && (!money ==> r.value == Some("") && r.amount == None && r.currency == None))
  }

  /** None is the ValueError of a strict zip over sequences of different lengths. */
  method BuildResult(schema: Schema, extracted: seq<ExtractedField>) returns (r: Option<(DocumentResult, Status)>)
    ensures r.None? <==> |schema.fields| != |extracted|
    ensures r.Some? ==> r.value.0 == ResultOf(schema.fields, extracted)
    ensures r.Some? ==> r.value.1 == StatusOf(schema.fields, extracted)
    ensures r.Some? ==> |r.value.0.fields| == |extracted| && r.value.0.schemaVersion == "1.0"
    ensures r.Some? ==> forall i :: 0 <= i < |extracted| ==> Reports(r.value.0.fields[i], schema.fields[i], extracted[i])
  {
    var fields: seq<FieldResult>, issues: seq<Issue>, confidences: seq<real> := [], [], [];
    if |schema.fields| != |extracted| {
      return None;
    }
    for i := 0 to |extracted|
      invariant |fields| == i && forall j :: 0 <= j < i ==> fields[j] == ResultField(schema.fields[j], extracted[j])
      invariant issues == Issues(schema.fields[..i], extracted[..i])
      invariant confidences == Confidences(extracted[..i])
    {
      var f, item := schema.fields[i], extracted[i];
      OneMore(schema.fields, extracted, i);
      if !item.HasValue() {
        fields := fields + [MissingResult(f)];
        if f.required {
          issues := issues + [ValidationFailed(f.name)];
        }
        continue;
      }
      if item.confidence < f.threshold {
        fields := fields + [ExtractedResult(f, item).(status := LowConfidence)];
        confidences := confidences + [item.confidence];
        issues := issues + [LowConfidenceIssue(f.name, item.confidence, f.threshold)];
        continue;
      }
      fields := fields + [ExtractedResult(f, item)];
      confidences := confidences + [item.confidence];
    }
    var n := |schema.fields|;
    assert schema.fields[..n] == schema.fields && extracted[..n] == extracted;
    var avg := Average(confidences);
    var blocking := exists i :: 0 <= i < n && fields[i].status in {NotFound, LowConfidence} && schema.fields[i].required;
    var status := if blocking || issues != [] then NeedsReview else Completed;
    BlockingHasIssue(schema.fields, extracted, fields);
    assert fields == ResultOf(schema.fields, extracted).fields;
    FieldsReport(schema.fields, extracted);
    return Some((DocumentResult(SCHEMA_VERSION, avg, fields, issues), status));
  }

  lemma OneMore(fields: seq<FieldSchema>, items: seq<ExtractedField>, i: nat)
    requires i < |fields| == |items|
    ensures Issues(fields[..i + 1], items[..i + 1])
         == Issues(fields[..i], items[..i]) + (if Flawed(fields[i], items[i]) then [FieldIssue(fields[i], items[i])] else [])
    ensures Confidences(items[..i + 1])
         == Confidences(items[..i]) + (if items[i].HasValue() then [items[i].confidence] else [])
  {
    assert fields[..i + 1][..i] == fields[..i] && items[..i + 1][..i] == items[..i];
  }

  /** Every result field reports its item. */
  lemma {:induction false} FieldsReport(fields: seq<FieldSchema>, items: seq<ExtractedField>)
    requires |fields| == |items|
    ensures var r := ResultOf(fields, items).fields;
      |r| == |items| && forall i :: 0 <= i < |items| ==> Reports(r[i], fields[i], items[i])
  {
    forall i | 0 <= i < |items| ensures Reports(ResultOf(fields, items).fields[i], fields[i], items[i]) {
      assert ResultOf(fields, items).fields[i] == ResultField(fields[i], items[i]);
    }
  }

  /** A required field that is missing or low blocks completion, and always has an issue. */
  lemma BlockingHasIssue(fields: seq<FieldSchema>, items: seq<ExtractedField>, results: seq<FieldResult>)
    requires |fields| == |items| == |results|
    requires forall j :: 0 <= j < |fields| ==> results[j] == ResultField(fields[j], items[j])
    ensures (exists j :: 0 <= j < |fields| && results[j].status in {NotFound, LowConfidence} && fields[j].required)
            ==> Issues(fields, items) != []
    ensures StatusOf(fields, items) == if Issues(fields, items) != [] then NeedsReview else Completed
  {
    CompletedIffNoIssues(fields, items);
    if j :| 0 <= j < |fields| && results[j].status in {NotFound, LowConfidence} && fields[j].required {
      assert Flawed(fields[j], items[j]);
    }
  }

  // ----- what the result says -----

  /** Missing although required, or present below the threshold. */
  predicate Wrong(f: FieldSchema, item: ExtractedField) {
    if item.value.None? && item.amount.None? then f.required else item.confidence < f.threshold
  }

  /** An issue names its field and says what is wrong with it. */
  predicate Names(issue: Issue, f: FieldSchema, item: ExtractedField) {
    issue == if item.value.None? && item.amount.None? then ValidationFailed(f.name)
             else LowConfidenceIssue(f.name, item.confidence, f.threshold)
  }

  /** Issues name exactly the flawed fields, once each and in schema order. */
  lemma {:induction false} IssuesInSchemaOrder(fields: seq<FieldSchema>, items: seq<ExtractedField>)
    returns (at: seq<nat>)
    requires |fields| == |items|
    ensures |at| == |Issues(fields, items)|
    ensures forall i, j :: 0 <= i < j < |at| ==> at[i] < at[j]
    ensures forall i :: 0 <= i < |at| ==> at[i] < |fields|
    ensures forall i :: 0 <= i < |at| ==> Names(Issues(fields, items)[i], fields[at[i]], items[at[i]])
    ensures forall i :: 0 <= i < |fields| ==> (i in at <==> Wrong(fields[i], items[i]))
  {
    at := [];
    if fields != [] {
      var n := |fields| - 1;
      var before := IssuesInSchemaOrder(fields[..n], items[..n]);
      at := before + if Flawed(fields[n], items[n]) then [n] else [];
      forall i | 0 <= i < n ensures i in before <==> Wrong(fields[i], items[i]) {
        assert fields[..n][i] == fields[i] && items[..n][i] == items[i];
      }
      forall i | 0 <= i < |before| ensures Names(Issues(fields, items)[i], fields[before[i]], items[before[i]]) {
        assert Issues(fields, items)[i] == Issues(fields[..n], items[..n])[i];
      }
    }
  }

  /** A document is completed exactly when it has no issues. */
  lemma CompletedIffNoIssues(fields: seq<FieldSchema>, items: seq<ExtractedField>)
    requires |fields| == |items|
    ensures StatusOf(fields, items) == Completed <==> Issues(fields, items) == []
  {
    var at := IssuesInSchemaOrder(fields, items);
    if Issues(fields, items) != [] {
      assert at[0] in at;
    }
  }

  lemma OneMoreTimes(x: real, k: nat)
    requires k > 0
    ensures x * k as real == x * (k - 1) as real + x
  {
    assert k as real == (k - 1) as real + 1.0;
  }

  lemma QuotientBounds(sum: real, n: real, low: real, high: real)
    requires n > 0.0 && low * n <= sum <= high * n
    ensures low <= sum / n <= high
  {
    var q := sum / n;
    assert q * n == sum;
    if q < low {
      ProductPositive(low - q, n);
      assert false;
    }
    if q > high {
      ProductPositive(q - high, n);
      assert false;
    }
  }

  lemma {:induction false} SumBounds(s: seq<real>, low: real, high: real)
    requires forall x <- s :: low <= x <= high
    ensures low * |s| as real <= Sum(s) <= high * |s| as real
  {
    if s != [] {
      var n := |s| - 1;
      forall x | x in s[..n] ensures low <= x <= high {
        assert x in s;
      }
      SumBounds(s[..n], low, high);
      assert s[n] in s;
      OneMoreTimes(low, |s|);
      OneMoreTimes(high, |s|);
    }
  }

  lemma {:induction false} ConfidencesArePresent(items: seq<ExtractedField>)
    ensures forall x <- Confidences(items) :: exists i :: 0 <= i < |items| && items[i].HasValue() && items[i].confidence == x
    ensures Confidences(items) == [] <==> forall i :: 0 <= i < |items| ==> !items[i].HasValue()
  {
    if items != [] {
      var n := |items| - 1;
      ConfidencesArePresent(items[..n]);
      forall x | x in Confidences(items) ensures exists i :: 0 <= i < |items| && items[i].HasValue() && items[i].confidence == x {
        if x in Confidences(items[..n]) {
          var i :| 0 <= i < n && items[..n][i].HasValue() && items[..n][i].confidence == x;
          assert items[i].HasValue();
        }
      }
      assert Confidences(items) == [] ==> forall i :: 0 <= i < n ==> items[i] == items[..n][i];
    }
  }

  // ----- the average is the mean of the confidences present -----

  /** A sum is additive, and a single number is its own sum. */
  lemma {:induction false} SumAdds(a: seq<real>, b: seq<real>, x: real)
    ensures Sum(a + b) == Sum(a) + Sum(b) && Sum([x]) == x
  {
    assert [x][..0] == [];
    if b == [] {
      assert a + b == a;
    } else {
      var n := |b| - 1;
      assert (a + b)[..|a + b| - 1] == a + b[..n];
      SumAdds(a, b[..n], x);
    }
  }

  lemma {:induction false} PresentInOrder(items: seq<ExtractedField>) returns (at: seq<nat>)
    ensures |at| == |Confidences(items)| && forall i, j :: 0 <= i < j < |at| ==> at[i] < at[j]
    ensures forall i :: 0 <= i < |at| ==> at[i] < |items| && Confidences(items)[i] == items[at[i]].confidence
    ensures forall i :: 0 <= i < |items| ==> (i in at <==> items[i].value.Some? || items[i].amount.Some?)
  {
    at := [];
    if items != [] {
      var n := |items| - 1;
      var before := PresentInOrder(items[..n]);
      at := before + if items[n].HasValue() then [n] else [];
      forall i | 0 <= i < n ensures i in before <==> items[i].value.Some? || items[i].amount.Some? {
        assert items[..n][i] == items[i];
      }
      forall i | 0 <= i < |before| ensures Confidences(items)[i] == items[before[i]].confidence {
        assert Confidences(items)[i] == Confidences(items[..n])[i];
      }
    }
  }

  /** The average, times the number of fields present, is the sum of their confidences; without any it is 0. */
  lemma {:induction false} AverageIsMean(fields: seq<FieldSchema>, items: seq<ExtractedField>) returns (at: seq<nat>)
    requires |fields| == |items|
    ensures forall i, j :: 0 <= i < j < |at| ==> at[i] < at[j]
    ensures forall i :: 0 <= i < |at| ==> at[i] < |items|
    ensures forall i :: 0 <= i < |items| ==> (i in at <==> items[i].value.Some? || items[i].amount.Some?)
    ensures var avg := ResultOf(fields, items).avgConfidence;
      if at == [] then avg == 0.0
      else avg * |at| as real == Sum(seq(|at|, i requires 0 <= i < |at| => items[at[i]].confidence))
  {
    at := PresentInOrder(items);
    var c := seq(|at|, i requires 0 <= i < |at| => items[at[i]].confidence);
    assert c == Confidences(items);
    if at != [] {
      QuotientTimes(Sum(c), |c| as real);
    }
  }

  lemma QuotientTimes(sum: real, n: real)
    requires n != 0.0
    ensures (sum / n) * n == sum
  {
  }

  lemma AverageBounds(s: seq<real>, low: real, high: real)
    requires s != [] && forall x <- s :: low <= x <= high
    ensures low <= Average(s) <= high
  {
    SumBounds(s, low, high);
    QuotientBounds(Sum(s), |s| as real, low, high);
  }

  /** The average lies between any bounds on the confidences of the fields present; without any it is 0. */
  lemma AverageWithinBounds(fields: seq<FieldSchema>, items: seq<ExtractedField>, low: real, high: real)
    requires |fields| == |items|
    requires forall i :: 0 <= i < |items| && items[i].HasValue() ==> low <= items[i].confidence <= high
    ensures var avg := ResultOf(fields, items).avgConfidence;
      if exists i :: 0 <= i < |items| && items[i].HasValue() then low <= avg <= high else avg == 0.0
  {
    ConfidencesArePresent(items);
    if Confidences(items) != [] {
      AverageBounds(Confidences(items), low, high);
    }
  }

  /** End to end: a document is completed exactly when every required field can be read somewhere, and every
    * field that is read comes from a line scored at least at the field's threshold. */
  lemma CompletedIff(o: Oracles, fields: seq<FieldSchema>, lines: seq<Line>)
    ensures StatusOf(fields, Extractions(o, fields, Rank(lines))) == Completed <==>
      forall i :: 0 <= i < |fields| ==> ReadWell(o, fields[i], Rank(lines))
  {
    var items := Extractions(o, fields, Rank(lines));
    forall i | 0 <= i < |fields| ensures Flawed(fields[i], items[i]) <==> !ReadWell(o, fields[i], Rank(lines)) {
      FlawedIff(o, fields[i], Rank(lines));
    }
  }

  /** The field's least attempt reads a line scored at least at its threshold; or there is none, and no need. */
  ghost predicate ReadWell(o: Oracles, f: FieldSchema, ranked: seq<Line>) {
    if k: Key :| Least(o, f, ranked, k)
    then ranked[Attempt(o, f, ranked, k).value.line].score >= f.threshold
    else !f.required
  }

  lemma FlawedIff(o: Oracles, f: FieldSchema, ranked: seq<Line>)
    ensures Flawed(f, Extraction(o, f, ranked)) <==> !ReadWell(o, f, ranked)
  {
  }

  /** End to end: a result field delivers what the first combination read, an amount in the field's own currency, with the
    * place it was read at; if nothing was read it reports the field missing. */
  lemma {:induction false} DeliversFirst(o: Oracles, fields: seq<FieldSchema>, lines: seq<Line>, i: nat)
    requires i < |fields|
    ensures var f := fields[i];
      var ranked := Rank(lines);
      var r := ResultOf(fields, Extractions(o, fields, ranked)).fields[i];
      && r.name == f.name
      && ((forall k, found :: !Yields(o, f, ranked, k, found)) ==> r.status == NotFound && r.confidence == 0.0)
      && forall k, found :: YieldsFirst(o, f, ranked, k, found) ==> Delivers(r, f, ranked[found.line], found.value)
  {
    var f, ranked := fields[i], Rank(lines);
    FieldsReport(fields, Extractions(o, fields, ranked));
    FieldIs(o, f, ranked);
    forall k, found | YieldsFirst(o, f, ranked, k, found) ensures f.fieldType == MoneyField <==> found.value.Amount? {
      YieldsOfType(o, f, ranked, k, found);
    }
    forall k, found | YieldsFirst(o, f, ranked, k, found)
      ensures Delivers(ResultOf(fields, Extractions(o, fields, ranked)).fields[i], f, ranked[found.line], found.value)
    {
      TellsDelivers(ResultOf(fields, Extractions(o, fields, ranked)).fields[i], Extraction(o, f, ranked), f,
                    ranked[found.line], found.value);
    }
  }

  lemma {:induction false} TellsDelivers(r: FieldResult, item: ExtractedField, f: FieldSchema, line: Line, v: Value)
    requires Reports(r, f, item) && Tells(item, f, line, v) && (f.fieldType == MoneyField <==> v.Amount?)
    ensures Delivers(r, f, line, v)
  {
  }

  predicate Delivers(r: FieldResult, f: FieldSchema, line: Line, v: Value) {
    && r.confidence == line.score && r.status == (if line.score < f.threshold then LowConfidence else Extracted)
    && r.box == Some((line.x1, line.y1, line.x2, line.y2)) && r.page == Some(line.page)
    && match v
       case Amount(a) => r.amount == Some(a) && r.currency == Some(f.currency) && r.value == None
       case Words(w) => r.value == Some(w) && r.amount == None && r.currency == None
  }
}
