/** The OCR provider's answers: normalization into lines, and the polling of an asynchronous job
  * (src/ocr_engine/ocr/baidu.py). */
module Baidu {
  import opened Prelude
  import opened PyText
  import opened Lines

  // ----- normalization -----

  /** One page of a response: texts, scores and boxes, which need not be equally long. */
  datatype Page = Page(texts: seq<string>, scores: seq<real>, boxes: seq<seq<int>>)

  function Min(a: nat, b: nat): nat {
    if a < b then a else b
  }

  /** How many triples a non-strict zip of the page's columns yields. */
  function Height(p: Page): nat {
    Min(|p.texts|, Min(|p.scores|, |p.boxes|))
  }

  /** Blank lines, unscored lines and single non-ASCII glyphs are dropped. */
  predicate Kept(p: Page, i: nat)
    requires i < Height(p)
  {
    var cleaned := Strip(p.texts[i]);
    cleaned != "" && p.scores[i] > 0.0 && !(|cleaned| == 1 && cleaned[0] as int >= 128)
  }

  function LineOf(p: Page, i: nat, page: nat): Line
    requires i < Height(p)
  {
    var b := if |p.boxes[i]| >= 4 then p.boxes[i][..4] else [0, 0, 0, 0];
    Line(Strip(p.texts[i]), p.scores[i], b[0], b[1], b[2], b[3], page)
  }

  /** The lines kept from the first `n` triples of a page. */
  function PageLines(p: Page, page: nat, n: nat): seq<Line>
    requires n <= Height(p)
  {
    if n == 0 then []
    else PageLines(p, page, n - 1) + if Kept(p, n - 1) then [LineOf(p, n - 1, page)] else []
  }

  /** The lines of all pages, numbered from `first`. */
  function Normalized(pages: seq<Page>, first: nat): seq<Line> {
    if pages == [] then []
    else
      var n := |pages| - 1;
      Normalized(pages[..n], first) + PageLines(pages[n], first + n, Height(pages[n]))
  }

  method Normalize(pages: seq<Page>) returns (lines: seq<Line>)
    ensures lines == Normalized(pages, 1)
  {
    lines := [];
    for k := 0 to |pages|
      invariant lines == Normalized(pages[..k], 1)
    {
      var p := pages[k];
      assert pages[..k + 1][..k] == pages[..k];
      for i := 0 to Height(p)
        invariant lines == Normalized(pages[..k], 1) + PageLines(p, k + 1, i)
      {
        var cleaned := Strip(p.texts[i]);
        if cleaned == "" || p.scores[i] <= 0.0 {
          continue;
        }
        if |cleaned| == 1 && cleaned[0] as int >= 128 {
          continue;
        }
        var b := if |p.boxes[i]| >= 4 then p.boxes[i][..4] else [0, 0, 0, 0];
        lines := lines + [Line(cleaned, p.scores[i], b[0], b[1], b[2], b[3], k + 1)];
      }
    }
    assert pages[..|pages|] == pages;
  }

  function Shifted(lines: seq<Line>, shift: nat): seq<Line> {
    seq(|lines|, i requires 0 <= i < |lines| => lines[i].(page := lines[i].page + shift))
  }

  lemma ShiftConcat(a: seq<Line>, b: seq<Line>, shift: nat)
    ensures Shifted(a + b, shift) == Shifted(a, shift) + Shifted(b, shift)
  {
  }

  lemma {:induction false} ShiftPage(p: Page, page: nat, shift: nat, n: nat)
    requires n <= Height(p)
    ensures PageLines(p, page + shift, n) == Shifted(PageLines(p, page, n), shift)
  {
    if n > 0 {
      ShiftPage(p, page, shift, n - 1);
    }
  }

  lemma {:induction false} ShiftPages(pages: seq<Page>, first: nat, shift: nat)
    ensures Normalized(pages, first + shift) == Shifted(Normalized(pages, first), shift)
  {
    if pages != [] {
      var n := |pages| - 1;
      ShiftPages(pages[..n], first, shift);
      ShiftPage(pages[n], first + n, shift, Height(pages[n]));
      ShiftConcat(Normalized(pages[..n], first), PageLines(pages[n], first + n, Height(pages[n])), shift);
      assert (first + shift) + n == (first + n) + shift;
    }
  }

  /** One more page is normalized after the pages before it. */
  lemma NormalizeOneMore(pages: seq<Page>, p: Page, first: nat)
    ensures Normalized(pages + [p], first) == Normalized(pages, first) + PageLines(p, first + |pages|, Height(p))
  {
    assert (pages + [p])[..|pages|] == pages;
  }

  /** Normalizing pages in two batches is normalizing them at once, with the second batch's pages shifted. */
  lemma {:induction false} NormalizeConcat(a: seq<Page>, b: seq<Page>)
    ensures Normalized(a + b, 1) == Normalized(a, 1) + Shifted(Normalized(b, 1), |a|)
  {
    if b == [] {
      assert a + b == a;
    } else {
      var n := |b| - 1;
      NormalizeConcat(a, b[..n]);
      assert b == b[..n] + [b[n]] && a + b == (a + b[..n]) + [b[n]];
      NormalizeConcatOneMore(a, b[..n], b[n]);
    }
  }

  lemma {:induction false} NormalizeConcatOneMore(a: seq<Page>, b: seq<Page>, p: Page)
    requires Normalized(a + b, 1) == Normalized(a, 1) + Shifted(Normalized(b, 1), |a|)
    ensures Normalized((a + b) + [p], 1) == Normalized(a, 1) + Shifted(Normalized(b + [p], 1), |a|)
  {
    NormalizeOneMore(a + b, p, 1);
    NormalizeOneMore(b, p, 1);
    ShiftPage(p, 1 + |b|, |a|, Height(p));
    JoinShifted(Normalized(a, 1), Normalized(b, 1), PageLines(p, 1 + |b|, Height(p)), |a|);
  }

  lemma JoinShifted(x: seq<Line>, y: seq<Line>, z: seq<Line>, shift: nat)
    ensures (x + Shifted(y, shift)) + Shifted(z, shift) == x + Shifted(y + z, shift)
  {
    ShiftConcat(y, z, shift);
  }

  lemma {:induction false} PageLinesAreClean(p: Page, page: nat, n: nat)
    requires n <= Height(p)
    ensures forall l <- PageLines(p, page, n) :: l.page == page && l.score > 0.0 && l.text != "" && Strip(l.text) == l.text
  {
    if n > 0 {
      PageLinesAreClean(p, page, n - 1);
      StripTwice(p.texts[n - 1]);
    }
  }

  lemma StripTwice(s: string)
    ensures Strip(Strip(s)) == Strip(s)
  {
    StripEnds(s);
  }

  /** Every line kept is stripped, nonblank and scored; pages are in order and within range. */
  lemma {:induction false} NormalizedIsClean(pages: seq<Page>)
    ensures var lines := Normalized(pages, 1);
      && (forall l <- lines :: 1 <= l.page <= |pages| && l.score > 0.0 && l.text != "" && Strip(l.text) == l.text)
      && (forall i, j :: 0 <= i < j < |lines| ==> lines[i].page <= lines[j].page)
  {
    if pages != [] {
      var n := |pages| - 1;
      NormalizedIsClean(pages[..n]);
      PageLinesAreClean(pages[n], 1 + n, Height(pages[n]));
      var x, y := Normalized(pages[..n], 1), PageLines(pages[n], 1 + n, Height(pages[n]));
      var z: seq<Line> := x + y;
      forall i, j | 0 <= i < j < |z| ensures z[i].page <= z[j].page {
        if i < |x| { assert x[i] in x; } else { assert y[i - |x|] in y; }
        if j >= |x| { assert y[j - |x|] in y; }
      }
    }
  }

  // ----- which lines are kept, and what they hold -----

  /** A triple of a response: its page, from 0, and its position there. */
  datatype Place = Place(page: nat, row: nat)

  predicate HasRow(p: Page, row: nat) {
    row < |p.texts| && row < |p.scores| && row < |p.boxes|
  }

  /** Something other than white space was read, with a score, and not just one character beyond ASCII. */
  ghost predicate Legible(p: Page, row: nat) {
    && HasRow(p, row) && p.scores[row] > 0.0
    && exists a: nat, b: nat :: Trimmed(p.texts[row], a, b) && a < b && (b == a + 1 ==> p.texts[row][a] as int <= 127)
  }

  /** The line holds the triple's text without the white space around it, its score and its box, if that has all corners. */
  ghost predicate Holds(l: Line, p: Page, row: nat, page: nat) {
    && HasRow(p, row) && l.page == page && l.score == p.scores[row]
    && (exists a: nat, b: nat :: Trimmed(p.texts[row], a, b) && l.text == p.texts[row][a..b])
    && var box := p.boxes[row];
    if |box| >= 4 then l.x1 == box[0] && l.y1 == box[1] && l.x2 == box[2] && l.y2 == box[3]
    else l.x1 == 0 && l.y1 == 0 && l.x2 == 0 && l.y2 == 0
  }

  lemma {:induction false} KeptIff(p: Page, i: nat, page: nat)
    requires i < Height(p)
    ensures HasRow(p, i) && (Kept(p, i) <==> Legible(p, i)) && Holds(LineOf(p, i, page), p, i, page)
  {
    var text := p.texts[i];
    var a, b := StripTrims(text);
    assert |Strip(text)| == b - a && (a < b ==> Strip(text)[0] == text[a]);
    forall c: nat, d: nat | Trimmed(text, c, d) && c < d ensures c == a && d == b {
      TrimmedOnce(text, c, d, a, b);
    }
  }

  predicate Comes(a: Place, b: Place) {
    a.page < b.page || (a.page == b.page && a.row < b.row)
  }

  /** The triples that are kept, of the pages before `page` and of the rows before `row` of that page. */
  ghost function LegibleBefore(pages: seq<Page>, page: nat, row: nat): iset<Place> {
    iset at: Place | Comes(at, Place(page, row)) && at.page < |pages| && Legible(pages[at.page], at.row)
  }

  /** Each of them once, page by page and in each page's order. */
  ghost predicate Lists(places: seq<Place>, s: iset<Place>) {
    && (forall at :: at in places <==> at in s)
    && (forall j, k :: 0 <= j < k < |places| ==> Comes(places[j], places[k]))
  }

  ghost predicate HoldsAt(l: Line, pages: seq<Page>, at: Place) {
    at.page < |pages| && Holds(l, pages[at.page], at.row, at.page + 1)
  }

  ghost predicate HoldAll(lines: seq<Line>, pages: seq<Page>, places: seq<Place>) {
    |lines| == |places| && forall k :: 0 <= k < |lines| ==> HoldsAt(lines[k], pages, places[k])
  }

  lemma {:induction false} ListsOneMore(places: seq<Place>, s: iset<Place>, at: Place)
    requires Lists(places, s) && forall x :: x in s ==> Comes(x, at)
    ensures Lists(places + [at], s + iset{at})
  {
    forall j | 0 <= j < |places| ensures Comes(places[j], at) {
      assert places[j] in s;
    }
  }

  lemma {:induction false} HoldOneMore(lines: seq<Line>, pages: seq<Page>, places: seq<Place>, l: Line, at: Place)
    requires HoldAll(lines, pages, places) && HoldsAt(l, pages, at)
    ensures HoldAll(lines + [l], pages, places + [at])
  {
  }

  /** One row further on, one more place is legible, or none. */
  lemma {:induction false} LegibleOneMore(pages: seq<Page>, page: nat, row: nat)
    requires page < |pages|
    ensures LegibleBefore(pages, page, row + 1) ==
      LegibleBefore(pages, page, row) + if Legible(pages[page], row) then iset{Place(page, row)} else iset{}
  {
  }

  lemma {:induction false} LegibleNextPage(pages: seq<Page>, page: nat)
    requires page < |pages|
    ensures LegibleBefore(pages, page, Height(pages[page])) == LegibleBefore(pages, page + 1, 0)
  {
  }

  lemma {:induction false} RowsKept(pages: seq<Page>, page: nat, before: seq<Line>, row: nat, first: seq<Place>) returns (places: seq<Place>)
    requires page < |pages| && row <= Height(pages[page])
    requires Lists(first, LegibleBefore(pages, page, 0)) && HoldAll(before, pages, first)
    ensures Lists(places, LegibleBefore(pages, page, row))
    ensures HoldAll(before + PageLines(pages[page], page + 1, row), pages, places)
  {
    if row == 0 {
      places := first;
      assert before + [] == before;
    } else {
      places := RowsKept(pages, page, before, row - 1, first);
      KeptIff(pages[page], row - 1, page + 1);
      LegibleOneMore(pages, page, row - 1);
      var lines := PageLines(pages[page], page + 1, row - 1);
      if Kept(pages[page], row - 1) {
        var l, at := LineOf(pages[page], row - 1, page + 1), Place(page, row - 1);
        ListsOneMore(places, LegibleBefore(pages, page, row - 1), at);
        HoldOneMore(before + lines, pages, places, l, at);
        assert before + (lines + [l]) == (before + lines) + [l];
        places := places + [at];
      } else {
        assert lines + [] == lines;
        assert LegibleBefore(pages, page, row) == LegibleBefore(pages, page, row - 1);
      }
    }
  }

  lemma {:induction false} PagesKept(pages: seq<Page>, n: nat) returns (places: seq<Place>)
    requires n <= |pages|
    ensures Lists(places, LegibleBefore(pages, n, 0)) && HoldAll(Normalized(pages[..n], 1), pages, places)
  {
    if n == 0 {
      places := [];
    } else {
      var before := PagesKept(pages, n - 1);
      assert pages[..n][..n - 1] == pages[..n - 1];
      places := RowsKept(pages, n - 1, Normalized(pages[..n - 1], 1), Height(pages[n - 1]), before);
      LegibleNextPage(pages, n - 1);
    }
  }

  /** Every legible triple gives exactly one line, in the order of the response, and no other triple gives one; each line
    * holds what was read there. */
  lemma {:induction false} NormalizeKeeps(pages: seq<Page>) returns (places: seq<Place>)
    ensures forall at: Place :: at in places <==> at.page < |pages| && Legible(pages[at.page], at.row)
    ensures forall j, k :: 0 <= j < k < |places| ==> Comes(places[j], places[k])
    ensures HoldAll(Normalized(pages, 1), pages, places)
  {
    places := PagesKept(pages, |pages|);
    assert pages[..|pages|] == pages;
    forall at: Place ensures at in places <==> at.page < |pages| && Legible(pages[at.page], at.row) {
      assert at in places <==> at in LegibleBefore(pages, |pages|, 0);
    }
  }

  // ----- polling -----

  /** What one request for the job's state answers. */
  datatype JobState = Done(url: string) | JobFailed(detail: string) | Unfinished | Unreadable

  datatype PollResult = Url(url: string) | Permanent(detail: string) | Transient

  /** What polling ends with once the states from `k` on are known: the first state that decides, unless the
    * deadline has passed at an earlier check. `clock(i)` is the time of the check after request `i`. */
  ghost predicate EndsAt(states: nat -> JobState, clock: nat -> real, deadline: real, k: nat, r: PollResult) {
    && (forall i: nat :: i < k ==> states(i) == Unfinished && clock(i) <= deadline)
    && match states(k)
       case Done(url) => r == Url(url)
       case JobFailed(detail) => r == Permanent(detail)
       case Unreadable => r == Transient
       case Unfinished => r == Transient && clock(k) > deadline
  }

  /** Polling ends for every sequence of answers, after at most `timeout / interval + 2` requests. */
  method PollAsyncJob(states: nat -> JobState, start: real, clock: nat -> real, interval: real, timeout: real)
    returns (r: PollResult, requests: nat)
    requires interval > 0.0 && timeout > 0.0
    requires clock(0) >= start && forall i: nat :: clock(i + 1) >= clock(i) + interval
    ensures 1 <= requests <= (timeout / interval).Floor + 2
    ensures EndsAt(states, clock, start + timeout, requests - 1, r)
  {
    var deadline := start + timeout;
    var k := 0;
    while true
      invariant forall i: nat :: i < k ==> states(i) == Unfinished && clock(i) <= deadline
      invariant clock(k) >= start + k as real * interval
      invariant k <= (timeout / interval).Floor + 1
      decreases (timeout / interval).Floor + 1 - k
    {
      match states(k) {
        case Done(url) => return Url(url), k + 1;
        case JobFailed(detail) => return Permanent(detail), k + 1;
        case Unreadable => return Transient, k + 1;
        case Unfinished =>
      }
      if clock(k) > deadline {
        return Transient, k + 1;
      }
      WithinTimeout(k, interval, timeout);
      k := k + 1;
    }
  }

  lemma WithinTimeout(k: nat, interval: real, timeout: real)
    requires interval > 0.0
    ensures k as real * interval <= timeout ==> k <= (timeout / interval).Floor
    ensures (k + 1) as real * interval == k as real * interval + interval
  {
    assert (k + 1) as real == k as real + 1.0;
    var q := timeout / interval;
    assert q * interval == timeout;
    if k as real * interval <= timeout && k as real > q {
      ProductPositive(k as real - q, interval);
      assert false;
    }
  }

  /** The end is determined: no two requests can both be the last. */
  lemma EndIsUnique(states: nat -> JobState, clock: nat -> real, deadline: real, j: nat, k: nat, q: PollResult, r: PollResult)
    requires EndsAt(states, clock, deadline, j, q) && EndsAt(states, clock, deadline, k, r)
    ensures j == k && q == r
  {
    assert j < k ==> states(j) == Unfinished && clock(j) <= deadline;
    assert k < j ==> states(k) == Unfinished && clock(k) <= deadline;
  }
}
