/** What extraction reads, told of lines and schemas alone: which combinations yield a value, and the field that comes of
  * the first one. */
module Reading {
  import opened Prelude
  import opened PyText
  import opened Lines
  import opened Extract

  /** `lines[:n]` keeps the first `n` lines; of a negative `n`, all but the last ones. */
  predicate InTop(m: Matcher, i: nat, count: nat) {
    i < count && (m.maxTopN.Some? ==> i < if m.maxTopN.value >= 0 then m.maxTopN.value else count + m.maxTopN.value)
  }

  /** The rightmost edge of the lines a matcher looks at; 1 without lines. */
  ghost predicate EdgeOf(m: Matcher, ranked: seq<Line>, w: int) {
    if forall i :: 0 <= i < |ranked| ==> !InTop(m, i, |ranked|) then w == 1
    else
      && (exists i: nat :: InTop(m, i, |ranked|) && ranked[i].x2 == w)
      && (forall i: nat :: InTop(m, i, |ranked|) ==> ranked[i].x2 <= w)
  }

  /** `b` starts right of `a`, and the middle of `a` lies on its height. */
  predicate Right(a: Line, b: Line) {
    a.x2 <= b.x1 && 2 * b.y1 <= a.y1 + a.y2 && a.y1 + a.y2 <= 2 * b.y2
  }

  /** Of the other lines right of the i-th, the j-th starts leftmost, the first such in reading order. */
  predicate NearestRight(ranked: seq<Line>, i: nat, j: nat) {
    && i < |ranked| && j < |ranked| && j != i && Right(ranked[i], ranked[j])
    && forall k :: 0 <= k < |ranked| && k != i && Right(ranked[i], ranked[k]) ==>
         ranked[j].x1 < ranked[k].x1 || (ranked[j].x1 == ranked[k].x1 && j <= k)
  }

  /** The combination `k` reads the value from the line found. */
  ghost predicate Yields(o: Oracles, f: FieldSchema, ranked: seq<Line>, k: Key, found: Found) {
    && k.matcher < |f.matchers| && found.line < |ranked|
    && var m := f.matchers[k.matcher];
    && InTop(m, k.line, |ranked|)
    && match m.kind
       case Positional =>
         && k.labelIndex == 0 && k.slot == 0 && found.line == k.line && ParsesTo(o, f, ranked[k.line].text, found.value)
         && (m.xMinRatio.Some? ==>
               exists w: int :: EdgeOf(m, ranked, w) && ranked[k.line].x1 as real >= m.xMinRatio.value * w as real)
       case Regex =>
         && k.labelIndex == 0 && k.slot == 0 && found.line == k.line
         && (match o.search(m.pattern, ranked[k.line].text)
             case Hit(Some(raw)) => ParsesTo(o, f, raw, found.value)
             case _ => false)
       case Label =>
         && k.labelIndex < |m.labels| && o.partialRatio(m.labels[k.labelIndex], o.lower(ranked[k.line].text)) >= m.labelFuzzyMin as real
         && ((k.slot == 0 && found.line == k.line
              && exists part :: AfterLabel(o, ranked[k.line].text, m.labels[k.labelIndex], part) && ParsesTo(o, f, part, found.value))
             || (k.slot == 1 && m.nearRight && NearestRight(ranked, k.line, found.line)
                 && ParsesTo(o, f, ranked[found.line].text, found.value)))
  }

  // ----- the search tries exactly these -----

  lemma {:induction false} TopIs(m: Matcher, ranked: seq<Line>)
    ensures forall i: nat :: i < |Candidates(m, ranked)| <==> InTop(m, i, |ranked|)
  {
  }

  lemma {:induction false} WidthBounds(lines: seq<Line>)
    ensures lines == [] ==> PageWidth(lines) == 1
    ensures lines != [] ==> exists i :: 0 <= i < |lines| && lines[i].x2 == PageWidth(lines)
    ensures forall i :: 0 <= i < |lines| ==> lines[i].x2 <= PageWidth(lines)
  {
    if |lines| == 1 {
      assert lines[0].x2 == PageWidth(lines);
    }
    if |lines| > 1 {
      WidthBounds(lines[1..]);
      var i :| 0 <= i < |lines[1..]| && lines[1..][i].x2 == PageWidth(lines[1..]);
      assert lines[i + 1] == lines[1..][i];
      assert lines[0].x2 == PageWidth(lines) || lines[i + 1].x2 == PageWidth(lines);
      forall j | 0 <= j < |lines| ensures lines[j].x2 <= PageWidth(lines) {
        assert j > 0 ==> lines[j] == lines[1..][j - 1];
      }
    }
  }

  lemma {:induction false} WidthIs(m: Matcher, ranked: seq<Line>, w: int)
    ensures EdgeOf(m, ranked, w) <==> w == PageWidth(Candidates(m, ranked))
  {
    var pool := Candidates(m, ranked);
    TopIs(m, ranked);
    WidthBounds(pool);
    assert forall i :: 0 <= i < |pool| ==> pool[i] == ranked[i];
    if pool != [] {
      var i :| 0 <= i < |pool| && pool[i].x2 == PageWidth(pool);
      assert InTop(m, i, |ranked|) && ranked[i].x2 == PageWidth(pool);
    }
  }

  lemma {:induction false} NearestIs(ranked: seq<Line>, i: nat, j: nat)
    ensures NearestRight(ranked, i, j) <==> IsNearest(ranked, i, j)
  {
    forall k | 0 <= k < |ranked| && i < |ranked| ensures RightOf(ranked, i, k) <==> k != i && Right(ranked[i], ranked[k]) {
    }
  }

  lemma {:induction false} NeighbourIs(ranked: seq<Line>, i: nat, j: nat)
    ensures Neighbour(ranked, i) == Some(j) <==> NearestRight(ranked, i, j)
  {
    NearestIs(ranked, i, j);
    if Neighbour(ranked, i).Some? {
      NearestIs(ranked, i, Neighbour(ranked, i).value);
    }
  }

  lemma {:induction false} PositionalIs(o: Oracles, f: FieldSchema, ranked: seq<Line>, k: Key, found: Found)
    requires k.matcher < |f.matchers| && f.matchers[k.matcher].kind == Positional
    ensures (InRange(f, ranked, k) && Attempt(o, f, ranked, k) == Some(found)) <==> Yields(o, f, ranked, k, found)
  {
    var m := f.matchers[k.matcher];
    TopIs(m, ranked);
    WidthIs(m, ranked, PageWidth(Candidates(m, ranked)));
    forall w: int | EdgeOf(m, ranked, w) ensures w == PageWidth(Candidates(m, ranked)) {
      WidthIs(m, ranked, w);
    }
    if k.line < |ranked| {
      ParseTypedIs(o, f, ranked[k.line].text, found.value);
    }
  }

  lemma {:induction false} RegexIs(o: Oracles, f: FieldSchema, ranked: seq<Line>, k: Key, found: Found)
    requires k.matcher < |f.matchers| && f.matchers[k.matcher].kind == Regex
    ensures (InRange(f, ranked, k) && Attempt(o, f, ranked, k) == Some(found)) <==> Yields(o, f, ranked, k, found)
  {
    var m := f.matchers[k.matcher];
    TopIs(m, ranked);
    NothingInNothing(o, f);
    if k.line < |ranked| {
      match o.search(m.pattern, ranked[k.line].text)
      case Hit(Some(raw)) => ParseTypedIs(o, f, raw, found.value);
      case _ =>
    }
  }

  lemma {:induction false} LabelIs(o: Oracles, f: FieldSchema, ranked: seq<Line>, k: Key, found: Found)
    requires k.matcher < |f.matchers| && f.matchers[k.matcher].kind == Label
    ensures (InRange(f, ranked, k) && Attempt(o, f, ranked, k) == Some(found)) <==> Yields(o, f, ranked, k, found)
  {
    var m := f.matchers[k.matcher];
    TopIs(m, ranked);
    if k.line < |ranked| && k.labelIndex < |m.labels| {
      if k.slot == 0 {
        OwnPartIs(o, f, ranked[k.line].text, m.labels[k.labelIndex], found.value);
      } else if found.line < |ranked| {
        NeighbourIs(ranked, k.line, found.line);
        ParseTypedIs(o, f, ranked[found.line].text, found.value);
      }
    }
  }

  lemma {:induction false} OwnPartIs(o: Oracles, f: FieldSchema, text: string, caption: string, v: Value)
    ensures ParseTyped(o, f, ValueAfterLabel(o, text, caption)) == Some(v) <==>
      exists part :: AfterLabel(o, text, caption, part) && ParsesTo(o, f, part, v)
  {
    var own := ValueAfterLabel(o, text, caption);
    SkipsLabel(o, text, caption);
    ParseTypedIs(o, f, own, v);
    forall part | AfterLabel(o, text, caption, part) ensures part == own {
      AfterLabelOnce(o, text, caption, part, own);
    }
  }

  lemma {:induction false} AttemptIs(o: Oracles, f: FieldSchema, ranked: seq<Line>, k: Key, found: Found)
    ensures (InRange(f, ranked, k) && Attempt(o, f, ranked, k) == Some(found)) <==> Yields(o, f, ranked, k, found)
  {
    if k.matcher < |f.matchers| {
      match f.matchers[k.matcher].kind
      case Positional => PositionalIs(o, f, ranked, k, found);
      case Regex => RegexIs(o, f, ranked, k, found);
      case Label => LabelIs(o, f, ranked, k, found);
    }
  }

  // ----- the field that comes of it -----

  /** Matchers first, then lines, then labels; the line's own text before its neighbour's. */
  predicate Earlier(j: Key, k: Key) {
    if j.matcher != k.matcher then j.matcher < k.matcher
    else if j.line != k.line then j.line < k.line
    else if j.labelIndex != k.labelIndex then j.labelIndex < k.labelIndex
    else j.slot < k.slot
  }

  ghost predicate YieldsFirst(o: Oracles, f: FieldSchema, ranked: seq<Line>, k: Key, found: Found) {
    && Yields(o, f, ranked, k, found)
    && forall j, other :: Earlier(j, k) ==> !Yields(o, f, ranked, j, other)
  }

  /** The field tells the value, with the schema's currency if it is an amount, and the line with its score. */
  predicate Tells(r: ExtractedField, f: FieldSchema, line: Line, v: Value) {
    && r.name == f.name && r.confidence == line.score && r.source == Some(line)
    && match v
       case Amount(a) => r.amount == Some(a) && r.currency == Some(f.currency) && r.value == None
       case Words(w) => r.value == Some(w) && r.amount == None && r.currency == None
  }

  lemma {:induction false} LeastYieldsFirst(o: Oracles, f: FieldSchema, ranked: seq<Line>, k: Key, found: Found)
    requires YieldsFirst(o, f, ranked, k, found)
    ensures Least(o, f, ranked, k) && Attempt(o, f, ranked, k) == Some(found)
  {
    AttemptIs(o, f, ranked, k, found);
    forall j | Before(j, k) ensures !Succeeds(o, f, ranked, j) {
      if Succeeds(o, f, ranked, j) {
        AttemptIs(o, f, ranked, j, Attempt(o, f, ranked, j).value);
        assert Earlier(j, k);
      }
    }
  }

  /** The field extracted tells what the first combination yields, from the line it was read on; if none yields anything
    * it is empty, with no source and no confidence. */
  lemma {:induction false} FieldIs(o: Oracles, f: FieldSchema, ranked: seq<Line>)
    ensures var r := Extraction(o, f, ranked);
      && (forall k, found :: YieldsFirst(o, f, ranked, k, found) ==> Tells(r, f, ranked[found.line], found.value))
      && ((forall k, found :: !Yields(o, f, ranked, k, found)) ==>
            r == ExtractedField(f.name, None, None, None, 0.0, None))
      && ((exists k, found :: Yields(o, f, ranked, k, found)) ==> exists k, found :: YieldsFirst(o, f, ranked, k, found))
  {
    var r := Extraction(o, f, ranked);
    forall k, found | YieldsFirst(o, f, ranked, k, found) ensures Tells(r, f, ranked[found.line], found.value) {
      LeastYieldsFirst(o, f, ranked, k, found);
      LeastIsExtracted(o, f, ranked, k);
    }
    if k, found :| Yields(o, f, ranked, k, found) {
      AttemptIs(o, f, ranked, k, found);
      LeastExists(o, f, ranked, k);
      var l: Key :| Least(o, f, ranked, l);
      FirstOfLeast(o, f, ranked, l);
    } else {
      forall k: Key ensures !Succeeds(o, f, ranked, k) {
        if Succeeds(o, f, ranked, k) {
          AttemptIs(o, f, ranked, k, Attempt(o, f, ranked, k).value);
        }
      }
    }
  }

  lemma {:induction false} FirstOfLeast(o: Oracles, f: FieldSchema, ranked: seq<Line>, k: Key)
    requires Least(o, f, ranked, k)
    ensures YieldsFirst(o, f, ranked, k, Attempt(o, f, ranked, k).value)
  {
    AttemptIs(o, f, ranked, k, Attempt(o, f, ranked, k).value);
    forall j, other | Earlier(j, k) ensures !Yields(o, f, ranked, j, other) {
      AttemptIs(o, f, ranked, j, other);
      assert Before(j, k);
    }
  }

  /** Amounts are read for money fields and only for them. */
  lemma {:induction false} YieldsOfType(o: Oracles, f: FieldSchema, ranked: seq<Line>, k: Key, found: Found)
    requires Yields(o, f, ranked, k, found)
    ensures f.fieldType == MoneyField <==> found.value.Amount?
  {
  }
}
