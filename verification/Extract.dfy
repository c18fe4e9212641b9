/** Field extraction: the search of src/ocr_engine/extraction/extract.py over matchers, lines and labels. */
module Extract {
  import opened Prelude
  import opened PyText
  import opened Lines

  // ----- schemas -----

  datatype Kind = Label | Regex | Positional

  datatype Matcher = Matcher(kind: Kind, labels: seq<string>, pattern: string, nearRight: bool,
                             xMinRatio: Option<real>, maxTopN: Option<int>, labelFuzzyMin: int)

  datatype FieldType = MoneyField | DateField | TextField

  datatype FieldSchema = FieldSchema(name: string, fieldType: FieldType, required: bool, threshold: real,
                                     currency: string, matchers: seq<Matcher>)

  datatype Schema = Schema(schemaId: string, docType: string, fields: seq<FieldSchema>)

  /** `compiled.search(text)`: no match, or the raw text of its first group, which may not have taken part. */
  datatype RegexHit = Miss | Hit(raw: Option<string>)

  /** The pure functions the search calls: case folding, fuzzy scoring, schema patterns, date parsing and
    * money parsing. The search is proved for all of them; `Money.ParseMoney` is the money parser in use. */
  datatype Oracles = Oracles(lower: string -> string, partialRatio: (string, string) -> real,
                             search: (string, string) -> RegexHit, parseDate: string -> Option<string>,
                             parseMoney: string -> Option<int>)

  // ----- one candidate -----

  datatype Value = Amount(amount: int) | Words(text: string)

  datatype ExtractedField = ExtractedField(name: string, value: Option<string>, amount: Option<int>,
                                           currency: Option<string>, confidence: real, source: Option<Line>)
  {
    predicate HasValue() {
      value.Some? || amount.Some?
    }
  }

  function ParseTyped(o: Oracles, f: FieldSchema, text: string): Option<Value> {
    var stripped := Strip(text);
    if stripped == "" then None
    else
      match f.fieldType
      case MoneyField =>
        (match o.parseMoney(stripped) case None => None case Some(a) => Some(Amount(a)))
      case DateField =>
        (match o.parseDate(stripped) case None => None case Some(d) => Some(Words(d)))
      case TextField => Some(Words(stripped))
  }

  /** `w` read as the field's type is `v`. */
  predicate ReadsAs(o: Oracles, f: FieldSchema, w: string, v: Value) {
    match v
    case Amount(n) => f.fieldType == MoneyField && o.parseMoney(w) == Some(n)
    case Words(x) =>
      (f.fieldType == DateField && o.parseDate(w) == Some(x)) || (f.fieldType == TextField && w == x)
  }

  /** `text` without the white space at its ends, read as the field's type, is `v`; nothing is read of white space. */
  ghost predicate ParsesTo(o: Oracles, f: FieldSchema, text: string, v: Value) {
    exists a: nat, b: nat :: Trimmed(text, a, b) && a < b && ReadsAs(o, f, text[a..b], v)
  }

  lemma {:induction false} ParseTypedIs(o: Oracles, f: FieldSchema, text: string, v: Value)
    ensures ParseTyped(o, f, text) == Some(v) <==> ParsesTo(o, f, text, v)
  {
    var a, b := StripTrims(text);
    if ParsesTo(o, f, text, v) {
      var c: nat, d: nat :| Trimmed(text, c, d) && c < d && ReadsAs(o, f, text[c..d], v);
      TrimmedOnce(text, c, d, a, b);
    }
    if ParseTyped(o, f, text) == Some(v) {
      assert a < b && ReadsAs(o, f, text[a..b], v);
    }
  }

  /** The characters stripped between a label and its value. */
  predicate Separates(c: char) {
    c in {' ', '\U{FF1A}', ':', '=', '-'}
  }

  function ValueAfterLabel(o: Oracles, text: string, caption: string): string {
    match Find(o.lower(text), caption[..if |caption| < 6 then |caption| else 6])
    case None => text
    case Some(i) => LStripFrom(text, i + |caption|, Separates)
  }

  predicate Gap(c: char) {
    c == ' ' || c == ':' || c == '=' || c == '-' || c == '\U{FF1A}'
  }

  /** A gap reaches from `from` to `g`, and no further. */
  predicate GapTo(text: string, from: nat, g: nat) {
    from <= g <= |text| && (forall i :: from <= i < g ==> Gap(text[i])) && (g < |text| ==> !Gap(text[g]))
  }

  /** `part` is what follows the gap that starts at `from`. */
  ghost predicate PastGap(text: string, from: nat, part: string) {
    exists g: nat :: GapTo(text, from, g) && part == text[g..]
  }

  function HeadOf(caption: string): string {
    caption[..if |caption| < 6 then |caption| else 6]
  }

  /** From the first place where the label's first six characters occur, in lower case, `part` is what follows the whole
    * length of the label and the gap after it; if they occur nowhere, it is all the text. */
  ghost predicate AfterLabel(o: Oracles, text: string, caption: string, part: string) {
    FollowsIn(o.lower(text), HeadOf(caption), text, |caption|, part)
  }

  ghost predicate FollowsIn(lowered: string, head: string, text: string, width: nat, part: string) {
    || (exists k: nat :: FirstAt(lowered, head, k) && Skips(text, k + width, part))
    || ((forall k: nat :: !Occurs(lowered, head, k)) && part == text)
  }

  ghost predicate Skips(text: string, from: nat, part: string) {
    if from >= |text| then part == "" else PastGap(text, from, part)
  }

  lemma {:induction false} PartFrom(o: Oracles, text: string, caption: string)
    ensures ValueAfterLabel(o, text, caption) ==
      match Find(o.lower(text), HeadOf(caption))
      case None => text
      case Some(i) => LStripFrom(text, i + |caption|, Separates)
  {
  }

  lemma {:induction false} SkipsIn(lowered: string, head: string, text: string, width: nat, part: string)
    requires part == match Find(lowered, head) case None => text case Some(i) => LStripFrom(text, i + width, Separates)
    ensures FollowsIn(lowered, head, text, width, part)
  {
    FindIs(lowered, head);
    var found := Find(lowered, head);
    if found.Some? {
      FollowsAt(lowered, head, text, width, part, found.value);
    } else {
      FollowsNowhere(lowered, head, text, width);
    }
  }

  /** What is taken for the value skips the label. */
  lemma {:induction false} SkipsLabel(o: Oracles, text: string, caption: string)
    ensures AfterLabel(o, text, caption, ValueAfterLabel(o, text, caption))
  {
    PartFrom(o, text, caption);
    SkipsIn(o.lower(text), HeadOf(caption), text, |caption|, ValueAfterLabel(o, text, caption));
  }

  lemma {:induction false} FollowsNowhere(lowered: string, head: string, text: string, width: nat)
    requires forall k: nat :: !Occurs(lowered, head, k)
    ensures FollowsIn(lowered, head, text, width, text)
  {
  }

  lemma {:induction false} FollowsAt(lowered: string, head: string, text: string, width: nat, part: string, k: nat)
    requires FirstAt(lowered, head, k) && part == LStripFrom(text, k + width, Separates)
    ensures FollowsIn(lowered, head, text, width, part)
  {
    SkipsGap(text, k + width, part);
  }

  lemma {:induction false} SkipsGap(text: string, from: nat, part: string)
    requires part == LStripFrom(text, from, Separates)
    ensures Skips(text, from, part)
  {
    if from < |text| {
      PastIs(text, from, Separates);
      assert GapTo(text, from, Past(text, from, Separates));
    }
  }

  /** Only one part is that. */
  lemma {:induction false} AfterLabelOnce(o: Oracles, text: string, caption: string, a: string, b: string)
    requires AfterLabel(o, text, caption, a) && AfterLabel(o, text, caption, b)
    ensures a == b
  {
    FollowsOnce(o.lower(text), HeadOf(caption), text, |caption|, a, b);
  }

  lemma {:induction false} FollowsOnce(lowered: string, head: string, text: string, width: nat, a: string, b: string)
    requires FollowsIn(lowered, head, text, width, a) && FollowsIn(lowered, head, text, width, b)
    ensures a == b
  {
    if j: nat :| FirstAt(lowered, head, j) && Skips(text, j + width, a) {
      var k: nat :| FirstAt(lowered, head, k) && Skips(text, k + width, b);
      assert j == k;
      if j + width < |text| {
        GapOnce(text, j + width, a, b);
      }
    }
  }

  lemma {:induction false} GapOnce(text: string, from: nat, a: string, b: string)
    requires PastGap(text, from, a) && PastGap(text, from, b)
    ensures a == b
  {
    var g: nat :| GapTo(text, from, g) && a == text[g..];
    var h: nat :| GapTo(text, from, h) && b == text[h..];
    assert !(g < h);
    assert !(h < g);
  }

  predicate LabelMatches(o: Oracles, text: string, caption: string, least: int) {
    o.partialRatio(caption, text) >= least as real
  }

  predicate VerticallyOverlaps(a: Line, b: Line) {
    var mid := (a.y1 + a.y2) as real / 2.0;
    b.y1 as real <= mid <= b.y2 as real
  }

  /** `ranked[j]` lies to the right of `ranked[i]`, on its height. */
  predicate RightOf(ranked: seq<Line>, i: nat, j: nat) {
    && i < |ranked| && j < |ranked| && j != i
    && ranked[j].x1 >= ranked[i].x2 && VerticallyOverlaps(ranked[i], ranked[j])
  }

  function Candidates(m: Matcher, ranked: seq<Line>): (r: seq<Line>)
    ensures r <= ranked
  {
    if m.maxTopN.Some? then SliceTo(ranked, m.maxTopN.value) else ranked
  }

  function PageWidth(lines: seq<Line>): int {
    if lines == [] then 1
    else if |lines| == 1 then lines[0].x2
    else
      var rest := PageWidth(lines[1..]);
      if lines[0].x2 > rest then lines[0].x2 else rest
  }

  function FieldOf(f: FieldSchema, source: Line, value: Value): ExtractedField {
    match value
    case Amount(a) => ExtractedField(f.name, None, Some(a), Some(f.currency), source.score, Some(source))
    case Words(w) => ExtractedField(f.name, Some(w), None, None, source.score, Some(source))
  }

  function Missing(f: FieldSchema): ExtractedField {
    ExtractedField(f.name, None, None, None, 0.0, None)
  }

  // ----- the reference: the least success -----

  /** One combination the search may try: a matcher, a ranked line, one of the matcher's labels, and
    * slot 0 (the line's own text) or 1 (the line to its right). */
  datatype Key = Key(matcher: nat, line: nat, labelIndex: nat, slot: nat)

  /** Lexicographic order. */
  predicate Before(a: Key, b: Key) {
    || a.matcher < b.matcher
    || (a.matcher == b.matcher && a.line < b.line)
    || (a.matcher == b.matcher && a.line == b.line && a.labelIndex < b.labelIndex)
    || (a.matcher == b.matcher && a.line == b.line && a.labelIndex == b.labelIndex && a.slot < b.slot)
  }

  predicate InRange(f: FieldSchema, ranked: seq<Line>, k: Key) {
    && k.matcher < |f.matchers|
    && var m := f.matchers[k.matcher];
    && k.line < |Candidates(m, ranked)|
    && k.labelIndex < (if m.kind == Label then |m.labels| else 1)
    && k.slot < (if m.kind == Label && m.nearRight then 2 else 1)
  }

  /** The line to the right that starts leftmost; the first in reading order among those. */
  predicate IsNearest(ranked: seq<Line>, i: nat, j: nat) {
    && RightOf(ranked, i, j)
    && forall k :: 0 <= k < |ranked| && RightOf(ranked, i, k) ==>
         ranked[j].x1 < ranked[k].x1 || (ranked[j].x1 == ranked[k].x1 && j <= k)
  }

  ghost function Neighbour(ranked: seq<Line>, i: nat): (r: Option<nat>)
    ensures r.Some? ==> IsNearest(ranked, i, r.value)
    ensures r.None? ==> forall j :: !IsNearest(ranked, i, j)
  {
    if exists j :: IsNearest(ranked, i, j) then
      var j :| IsNearest(ranked, i, j);
      Some(j)
    else None
  }

  datatype Found = Found(value: Value, line: nat)

  ghost function At(value: Option<Value>, line: nat): Option<Found> {
    match value
    case None => None
    case Some(v) => Some(Found(v, line))
  }

  /** What one combination yields, and from which line. */
  ghost function Attempt(o: Oracles, f: FieldSchema, ranked: seq<Line>, k: Key): (r: Option<Found>)
    requires InRange(f, ranked, k)
    ensures r.Some? ==> r.value.line < |ranked|
  {
    var m := f.matchers[k.matcher];
    var pool := Candidates(m, ranked);
    var line := ranked[k.line];
    match m.kind
    case Positional =>
      if m.xMinRatio.None? || line.x1 as real >= m.xMinRatio.value * PageWidth(pool) as real
      then At(ParseTyped(o, f, line.text), k.line) else None
    case Regex =>
      (match o.search(m.pattern, line.text)
       case Miss => None
       case Hit(raw) => At(ParseTyped(o, f, if raw.Some? then raw.value else ""), k.line))
    case Label =>
      var caption := m.labels[k.labelIndex];
      if !LabelMatches(o, o.lower(line.text), caption, m.labelFuzzyMin) then None
      else if k.slot == 0 then At(ParseTyped(o, f, ValueAfterLabel(o, line.text, caption)), k.line)
      else
        match Neighbour(ranked, k.line)
        case None => None
        case Some(j) => At(ParseTyped(o, f, ranked[j].text), j)
  }

  ghost predicate Succeeds(o: Oracles, f: FieldSchema, ranked: seq<Line>, k: Key) {
    InRange(f, ranked, k) && Attempt(o, f, ranked, k).Some?
  }

  /** `k` succeeds and nothing before it does. */
  ghost predicate Least(o: Oracles, f: FieldSchema, ranked: seq<Line>, k: Key) {
    && Succeeds(o, f, ranked, k)
    && forall j :: Before(j, k) ==> !Succeeds(o, f, ranked, j)
  }

  /** The field a schema entry extracts from ranked lines: that of the least success, if any. */
  ghost function Extraction(o: Oracles, f: FieldSchema, ranked: seq<Line>): ExtractedField {
    if exists k :: Least(o, f, ranked, k) then
      var k :| Least(o, f, ranked, k);
      var found := Attempt(o, f, ranked, k).value;
      FieldOf(f, ranked[found.line], found.value)
    else Missing(f)
  }

  lemma LeastIsUnique(o: Oracles, f: FieldSchema, ranked: seq<Line>, j: Key, k: Key)
    requires Least(o, f, ranked, j) && Least(o, f, ranked, k)
    ensures j == k
  {
    assert j == k || Before(j, k) || Before(k, j);
  }

  lemma {:induction false} LeastExists(o: Oracles, f: FieldSchema, ranked: seq<Line>, k: Key)
    requires Succeeds(o, f, ranked, k)
    ensures exists j :: Least(o, f, ranked, j)
    decreases k.matcher, k.line, k.labelIndex, k.slot
  {
    if !Least(o, f, ranked, k) {
      var j :| Before(j, k) && Succeeds(o, f, ranked, j);
      LeastExists(o, f, ranked, j);
    }
  }

  /** A field comes out empty exactly when no combination succeeds. */
  lemma EmptyIffNothingSucceeds(o: Oracles, f: FieldSchema, ranked: seq<Line>)
    ensures !Extraction(o, f, ranked).HasValue() <==> forall k :: !Succeeds(o, f, ranked, k)
    ensures Extraction(o, f, ranked).name == f.name
  {
    if k :| Succeeds(o, f, ranked, k) {
      LeastExists(o, f, ranked, k);
    }
  }

  // ----- the search as the code runs it -----

  method LineToTheRight(ranked: seq<Line>, i: nat) returns (best: Option<nat>)
    requires i < |ranked|
    ensures best == Neighbour(ranked, i)
  {
    best := None;
    var j := 0;
    while j < |ranked|
      invariant 0 <= j <= |ranked|
      invariant best.None? ==> forall k :: 0 <= k < j ==> !RightOf(ranked, i, k)
      invariant best.Some? ==> best.value < j && RightOf(ranked, i, best.value)
      invariant best.Some? ==> forall k :: 0 <= k < j && RightOf(ranked, i, k) ==>
        ranked[best.value].x1 < ranked[k].x1 || (ranked[best.value].x1 == ranked[k].x1 && best.value <= k)
    {
      if j != i {
        if ranked[j].x1 >= ranked[i].x2 && VerticallyOverlaps(ranked[i], ranked[j]) {
          if best.None? || ranked[j].x1 < ranked[best.value].x1 {
            best := Some(j);
          }
        }
      }
      j := j + 1;
    }
    assert best.Some? ==> IsNearest(ranked, i, best.value);
  }

  /** The field a successful combination yields. */
  ghost function FieldAt(o: Oracles, f: FieldSchema, ranked: seq<Line>, k: Key): ExtractedField
    requires Succeeds(o, f, ranked, k)
  {
    var found := Attempt(o, f, ranked, k).value;
    FieldOf(f, ranked[found.line], found.value)
  }

  /** The text after the label, then the text to the right: each is attributed to the line it comes from. */
  method TryBoth(parse: string -> Option<Value>, f: FieldSchema, line: Line, valuePart: string, right: Option<Line>)
    returns (r: Option<ExtractedField>)
    requires parse("").None?
    ensures parse(valuePart).Some? ==> r == Some(FieldOf(f, line, parse(valuePart).value))
    ensures parse(valuePart).None? && right.Some? && parse(right.value.text).Some? ==>
      r == Some(FieldOf(f, right.value, parse(right.value.text).value))
    ensures parse(valuePart).None? && (right.Some? ==> parse(right.value.text).None?) ==> r.None?
  {
    var texts := [Some(valuePart), if right.Some? then Some(right.value.text) else None];
    for s := 0 to 2
      invariant s > 0 ==> parse(valuePart).None?
      invariant s > 1 && right.Some? ==> parse(right.value.text).None?
    {
      var value := parse(if texts[s].Some? then texts[s].value else "");
      if value.Some? {
        var source := if texts[s] == Some(valuePart) then line else right.value;
        return Some(FieldOf(f, source, value.value));
      }
    }
    return None;
  }

  lemma NothingInNothing(o: Oracles, f: FieldSchema)
    ensures ParseTyped(o, f, "").None?
  {
    assert Strip("") == "";
  }

  lemma LabelAttempts(o: Oracles, f: FieldSchema, ranked: seq<Line>, k: Key)
    requires InRange(f, ranked, k) && f.matchers[k.matcher].kind == Label
    requires LabelMatches(o, o.lower(ranked[k.line].text), f.matchers[k.matcher].labels[k.labelIndex],
                          f.matchers[k.matcher].labelFuzzyMin)
    ensures k.slot == 0 ==>
      var part := ValueAfterLabel(o, ranked[k.line].text, f.matchers[k.matcher].labels[k.labelIndex]);
      Attempt(o, f, ranked, k) == At(ParseTyped(o, f, part), k.line)
    ensures k.slot == 1 ==>
      match Neighbour(ranked, k.line)
      case None => Attempt(o, f, ranked, k).None?
      case Some(j) => Attempt(o, f, ranked, k) == At(ParseTyped(o, f, ranked[j].text), j)
  {
  }

  /** `r` is the field of the first success of label `l` on line `i`, which is at `at`. */
  ghost predicate FirstOfLabel(o: Oracles, f: FieldSchema, ranked: seq<Line>, mi: nat, i: nat, l: nat,
                               r: Option<ExtractedField>, at: Key) {
    match r
    case None => forall s :: !Succeeds(o, f, ranked, Key(mi, i, l, s))
    case Some(field) =>
      && at == Key(mi, i, l, at.slot) && Succeeds(o, f, ranked, at) && field == FieldAt(o, f, ranked, at)
      && forall s :: 0 <= s < at.slot ==> !Succeeds(o, f, ranked, Key(mi, i, l, s))
  }

  lemma OtherLabel(o: Oracles, f: FieldSchema, ranked: seq<Line>, mi: nat, i: nat, l: nat)
    requires InRange(f, ranked, Key(mi, i, l, 0)) && f.matchers[mi].kind == Label
    requires !LabelMatches(o, o.lower(ranked[i].text), f.matchers[mi].labels[l], f.matchers[mi].labelFuzzyMin)
    ensures FirstOfLabel(o, f, ranked, mi, i, l, None, Key(mi, i, l, 0))
  {
  }

  /** The first of a label's at most two attempts decides. */
  lemma FirstAttempt(o: Oracles, f: FieldSchema, ranked: seq<Line>, mi: nat, i: nat, l: nat, r: Option<ExtractedField>)
    requires InRange(f, ranked, Key(mi, i, l, 0)) && f.matchers[mi].kind == Label
    requires var a := Attempt(o, f, ranked, Key(mi, i, l, 0));
      if a.Some? then r == Some(FieldOf(f, ranked[a.value.line], a.value.value))
      else if !f.matchers[mi].nearRight then r.None?
      else
        var b := Attempt(o, f, ranked, Key(mi, i, l, 1));
        if b.Some? then r == Some(FieldOf(f, ranked[b.value.line], b.value.value)) else r.None?
    ensures FirstOfLabel(o, f, ranked, mi, i, l, r,
                         Key(mi, i, l, if Attempt(o, f, ranked, Key(mi, i, l, 0)).Some? then 0 else 1))
  {
    var a := Attempt(o, f, ranked, Key(mi, i, l, 0));
    if a.Some? {
      Hits(o, f, ranked, Key(mi, i, l, 0), a.value);
    } else {
      Fails(o, f, ranked, Key(mi, i, l, 0));
      if f.matchers[mi].nearRight {
        var b := Attempt(o, f, ranked, Key(mi, i, l, 1));
        if b.Some? {
          Hits(o, f, ranked, Key(mi, i, l, 1), b.value);
        } else {
          Fails(o, f, ranked, Key(mi, i, l, 1));
        }
      }
    }
  }

  lemma Hits(o: Oracles, f: FieldSchema, ranked: seq<Line>, k: Key, found: Found)
    requires InRange(f, ranked, k) && Attempt(o, f, ranked, k) == Some(found)
    ensures found.line < |ranked| && Succeeds(o, f, ranked, k)
    ensures FieldAt(o, f, ranked, k) == FieldOf(f, ranked[found.line], found.value)
  {
  }

  lemma Fails(o: Oracles, f: FieldSchema, ranked: seq<Line>, k: Key)
    requires InRange(f, ranked, k) && Attempt(o, f, ranked, k).None?
    ensures !Succeeds(o, f, ranked, k)
  {
  }

  /** One label against one line. */
  method ApplyLabel(o: Oracles, f: FieldSchema, mi: nat, ranked: seq<Line>, i: nat, l: nat)
    returns (r: Option<ExtractedField>, ghost at: Key)
    requires InRange(f, ranked, Key(mi, i, l, 0)) && f.matchers[mi].kind == Label
    ensures FirstOfLabel(o, f, ranked, mi, i, l, r, at)
  {
    var m, line := f.matchers[mi], ranked[i];
    var text := o.lower(line.text);
    if !LabelMatches(o, text, m.labels[l], m.labelFuzzyMin) {
      OtherLabel(o, f, ranked, mi, i, l);
      return None, Key(mi, i, l, 0);
    }
    var valuePart := ValueAfterLabel(o, line.text, m.labels[l]);
    var value := ParseTyped(o, f, valuePart);
    LabelAttempts(o, f, ranked, Key(mi, i, l, 0));
    if m.nearRight {
      var right := LineToTheRight(ranked, i);
      LabelAttempts(o, f, ranked, Key(mi, i, l, 1));
      NothingInNothing(o, f);
      r := TryBoth(t => ParseTyped(o, f, t), f, line, valuePart, if right.Some? then Some(ranked[right.value]) else None);
    } else {
      r := if value.Some? then Some(FieldOf(f, line, value.value)) else None;
    }
    at := Key(mi, i, l, if value.Some? then 0 else 1);
    FirstAttempt(o, f, ranked, mi, i, l, r);
  }

  /** All labels of a label matcher against one line. */
  method ApplyLabels(o: Oracles, f: FieldSchema, mi: nat, ranked: seq<Line>, i: nat)
    returns (r: Option<ExtractedField>, ghost at: Key)
    requires mi < |f.matchers| && f.matchers[mi].kind == Label && i < |Candidates(f.matchers[mi], ranked)|
    ensures FirstOfLine(o, f, ranked, mi, i, r, at)
  {
    at := Key(mi, i, 0, 0);
    for l := 0 to |f.matchers[mi].labels|
      invariant forall k: Key :: k.matcher == mi && k.line == i && k.labelIndex < l ==> !Succeeds(o, f, ranked, k)
    {
      r, at := ApplyLabel(o, f, mi, ranked, i, l);
      if r.Some? {
        return;
      }
      forall k: Key | k.matcher == mi && k.line == i && k.labelIndex == l ensures !Succeeds(o, f, ranked, k) {
        assert k == Key(mi, i, l, k.slot);
      }
    }
    r := None;
  }

  /** `r` is the field of the first success on line `i`, which is at `at`; None when the line has none. */
  ghost predicate FirstOfLine(o: Oracles, f: FieldSchema, ranked: seq<Line>, mi: nat, i: nat,
                              r: Option<ExtractedField>, at: Key) {
    match r
    case None => forall k: Key :: k.matcher == mi && k.line == i ==> !Succeeds(o, f, ranked, k)
    case Some(field) =>
      && at.matcher == mi && at.line == i && Succeeds(o, f, ranked, at) && field == FieldAt(o, f, ranked, at)
      && forall k: Key :: k.matcher == mi && k.line == i && Before(k, at) ==> !Succeeds(o, f, ranked, k)
  }

  /** The same for all lines of matcher `mi`. */
  ghost predicate FirstOfMatcher(o: Oracles, f: FieldSchema, ranked: seq<Line>, mi: nat,
                                 r: Option<ExtractedField>, at: Key) {
    match r
    case None => forall k: Key :: k.matcher == mi ==> !Succeeds(o, f, ranked, k)
    case Some(field) =>
      && at.matcher == mi && Succeeds(o, f, ranked, at) && field == FieldAt(o, f, ranked, at)
      && forall k: Key :: k.matcher == mi && Before(k, at) ==> !Succeeds(o, f, ranked, k)
  }

  /** A positional or regular-expression matcher against one line. */
  method ApplyToLine(o: Oracles, f: FieldSchema, mi: nat, ranked: seq<Line>, i: nat)
    returns (r: Option<ExtractedField>, ghost at: Key)
    requires mi < |f.matchers| && f.matchers[mi].kind != Label && i < |Candidates(f.matchers[mi], ranked)|
    ensures FirstOfLine(o, f, ranked, mi, i, r, at)
  {
    var m := f.matchers[mi];
    var candidates := Candidates(m, ranked);
    at := Key(mi, i, 0, 0);
    r := None;
    if m.kind == Positional {
      if m.xMinRatio.None? || candidates[i].x1 as real >= m.xMinRatio.value * PageWidth(candidates) as real {
        var value := ParseTyped(o, f, candidates[i].text);
        if value.Some? {
          r := Some(FieldOf(f, candidates[i], value.value));
        }
      }
    } else {
      var hit := o.search(m.pattern, candidates[i].text);
      if hit.Hit? {
        var value := ParseTyped(o, f, if hit.raw.Some? then hit.raw.value else "");
        if value.Some? {
          r := Some(FieldOf(f, candidates[i], value.value));
        }
      }
    }
    forall k: Key | k.matcher == mi && k.line == i && InRange(f, ranked, k) ensures k == at {
    }
  }

  method ApplyMatcher(o: Oracles, f: FieldSchema, mi: nat, ranked: seq<Line>)
    returns (r: Option<ExtractedField>, ghost at: Key)
    requires mi < |f.matchers|
    ensures FirstOfMatcher(o, f, ranked, mi, r, at)
    ensures r.Some? <==> exists k: Key :: k.matcher == mi && Succeeds(o, f, ranked, k)
  {
    at := Key(mi, 0, 0, 0);
    for i := 0 to |Candidates(f.matchers[mi], ranked)|
      invariant forall k: Key :: k.matcher == mi && k.line < i ==> !Succeeds(o, f, ranked, k)
    {
      if f.matchers[mi].kind == Label {
        r, at := ApplyLabels(o, f, mi, ranked, i);
      } else {
        r, at := ApplyToLine(o, f, mi, ranked, i);
      }
      if r.Some? {
        return;
      }
    }
    r := None;
  }

  method ExtractOne(o: Oracles, f: FieldSchema, ranked: seq<Line>) returns (r: ExtractedField)
    ensures r == Extraction(o, f, ranked)
  {
    for mi := 0 to |f.matchers|
      invariant forall k: Key :: k.matcher < mi ==> !Succeeds(o, f, ranked, k)
    {
      var found, at := ApplyMatcher(o, f, mi, ranked);
      if found.Some? {
        LeastIsExtracted(o, f, ranked, at);
        return found.value;
      }
    }
    EmptyIffNothingSucceeds(o, f, ranked);
    return Missing(f);
  }

  lemma LeastIsExtracted(o: Oracles, f: FieldSchema, ranked: seq<Line>, k: Key)
    requires Least(o, f, ranked, k)
    ensures Extraction(o, f, ranked) == FieldAt(o, f, ranked, k)
  {
    forall j | Least(o, f, ranked, j) ensures j == k {
      LeastIsUnique(o, f, ranked, j, k);
    }
  }

  /** What extraction yields for every field of a schema, in schema order. */
  ghost function Extractions(o: Oracles, fields: seq<FieldSchema>, ranked: seq<Line>): (r: seq<ExtractedField>)
    ensures |r| == |fields| && forall i :: 0 <= i < |r| ==> r[i] == Extraction(o, fields[i], ranked)
  {
    seq(|fields|, i requires 0 <= i < |fields| => Extraction(o, fields[i], ranked))
  }

  method ExtractFields(o: Oracles, schema: Schema, lines: seq<Line>) returns (results: seq<ExtractedField>)
    ensures results == Extractions(o, schema.fields, Rank(lines))
  {
    results := [];
    var ranked := Rank(lines);
    ghost var all := Extractions(o, schema.fields, ranked);
    for i := 0 to |schema.fields|
      invariant results == all[..i]
    {
      var field := ExtractOne(o, schema.fields[i], ranked);
      results := results + [field];
      assert all[..i + 1] == all[..i] + [all[i]];
    }
    assert all[..|schema.fields|] == all;
  }

  // ----- what extraction depends on, and where values come from -----

  /** Lines at pairwise different places may be emitted in any order. */
  lemma EmissionOrderIrrelevant(o: Oracles, schema: Schema, a: seq<Line>, b: seq<Line>)
    requires Distinct(a) && multiset(a) == multiset(b)
    ensures Extractions(o, schema.fields, Rank(a)) == Extractions(o, schema.fields, Rank(b))
  {
    RankIgnoresOrder(a, b);
  }

  /** `v` is read from the line's own text: all of it, what follows a label, or what a pattern captured. */
  ghost predicate FromOwnText(o: Oracles, f: FieldSchema, line: Line, v: Value) {
    || ParsesTo(o, f, line.text, v)
    || (exists m, l, part :: m in f.matchers && l in m.labels && AfterLabel(o, line.text, l, part) && ParsesTo(o, f, part, v))
    || (exists m :: m in f.matchers && o.search(m.pattern, line.text).Hit?
                    && var raw := o.search(m.pattern, line.text).raw;
                       raw.Some? && ParsesTo(o, f, raw.value, v))
  }

  lemma AttemptReadsOwnText(o: Oracles, f: FieldSchema, ranked: seq<Line>, k: Key)
    requires Succeeds(o, f, ranked, k)
    ensures var found := Attempt(o, f, ranked, k).value;
      && found.line < |ranked| && FromOwnText(o, f, ranked[found.line], found.value)
      && (k.slot == 0 ==> found.line == k.line)
      && (k.slot == 1 ==> IsNearest(ranked, k.line, found.line))
  {
    NothingInNothing(o, f);
    var m := f.matchers[k.matcher];
    assert m in f.matchers;
    var found := Attempt(o, f, ranked, k).value;
    ParseTypedIs(o, f, ranked[found.line].text, found.value);
    if m.kind == Label {
      assert m.labels[k.labelIndex] in m.labels;
      SkipsLabel(o, ranked[k.line].text, m.labels[k.labelIndex]);
      ParseTypedIs(o, f, ValueAfterLabel(o, ranked[k.line].text, m.labels[k.labelIndex]), found.value);
      LabelAttempts(o, f, ranked, k);
    } else if m.kind == Regex && o.search(m.pattern, ranked[k.line].text).raw.Some? {
      ParseTypedIs(o, f, o.search(m.pattern, ranked[k.line].text).raw.value, found.value);
    }
  }

  /** A field with a value names one of the document's lines, carries that line's score and is read from its text;
    * a field without one has no source and no confidence. */
  lemma Provenance(o: Oracles, f: FieldSchema, lines: seq<Line>)
    ensures var r := Extraction(o, f, Rank(lines));
      if r.HasValue() then
        && r.source.Some? && r.source.value in lines && r.confidence == r.source.value.score
        && exists v :: FromOwnText(o, f, r.source.value, v) && r == FieldOf(f, r.source.value, v)
      else r == Missing(f)
  {
    var ranked := Rank(lines);
    EmptyIffNothingSucceeds(o, f, ranked);
    if k :| Least(o, f, ranked, k) {
      LeastIsExtracted(o, f, ranked, k);
      AttemptReadsOwnText(o, f, ranked, k);
      var found := Attempt(o, f, ranked, k).value;
      assert ranked[found.line] in multiset(ranked);
    }
  }
}
