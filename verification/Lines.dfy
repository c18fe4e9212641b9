/** Recognized lines and the reading order the extractor puts them in. */
module Lines {
  import opened Prelude

  datatype Line = Line(text: string, score: real, x1: int, y1: int, x2: int, y2: int, page: int)

  /** Reading order: top to bottom, then left to right. */
  predicate LessEq(a: Line, b: Line) {
    a.y1 < b.y1 || (a.y1 == b.y1 && a.x1 <= b.x1)
  }

  predicate SameKey(a: Line, b: Line) {
    a.y1 == b.y1 && a.x1 == b.x1
  }

  function Insert(l: Line, s: seq<Line>): (r: seq<Line>)
    ensures multiset(r) == multiset(s) + multiset{l}
  {
    if s == [] || LessEq(l, s[0]) then [l] + s
    else
      assert s == [s[0]] + s[1..];
      [s[0]] + Insert(l, s[1..])
  }

  /** Python's stable `sorted` by (y1, x1). */
  function Rank(lines: seq<Line>): (r: seq<Line>)
    ensures multiset(r) == multiset(lines) && |r| == |lines|
  {
    if lines == [] then []
    else
      assert lines == [lines[0]] + lines[1..];
      var r := Insert(lines[0], Rank(lines[1..]));
      assert |r| == |multiset(r)| && |lines| == |multiset(lines)|;
      r
  }

  ghost predicate Sorted(s: seq<Line>) {
    forall i, j :: 0 <= i < j < |s| ==> LessEq(s[i], s[j])
  }

  /** The lines standing at the same place as `at`, in order. */
  function Ties(s: seq<Line>, at: Line): (r: seq<Line>)
    ensures forall l <- r :: l in s && SameKey(l, at)
  {
    if s == [] then [] else (if SameKey(s[0], at) then [s[0]] else []) + Ties(s[1..], at)
  }

  lemma {:induction false} InsertSorts(l: Line, s: seq<Line>)
    requires Sorted(s)
    ensures Sorted(Insert(l, s))
  {
    if s != [] && !LessEq(l, s[0]) {
      InsertSorts(l, s[1..]);
      var r := Insert(l, s[1..]);
      forall i | 0 <= i < |r| ensures LessEq(s[0], r[i]) {
        assert r[i] in multiset(r);
        assert r[i] == l || r[i] in s[1..];
      }
    }
  }

  lemma {:induction false} InsertKeepsTies(l: Line, s: seq<Line>, at: Line)
    ensures Ties(Insert(l, s), at) == Ties([l] + s, at)
  {
    if s != [] && !LessEq(l, s[0]) {
      var tail := s[1..];
      InsertKeepsTies(l, tail, at);
      TiesOfMore(s[0], Insert(l, tail), at);
      TiesOfMore(l, tail, at);
      TiesOfMore(l, s, at);
    }
  }

  lemma TiesOfMore(l: Line, s: seq<Line>, at: Line)
    ensures Ties([l] + s, at) == (if SameKey(l, at) then [l] else []) + Ties(s, at)
  {
    assert ([l] + s)[1..] == s;
  }

  /** Ranked lines go from top to bottom, and from left to right at the same height. */
  lemma {:induction false} RankSorts(lines: seq<Line>)
    ensures Sorted(Rank(lines))
    ensures forall i, j :: 0 <= i < j < |lines| ==>
      Rank(lines)[i].y1 < Rank(lines)[j].y1
      || (Rank(lines)[i].y1 == Rank(lines)[j].y1 && Rank(lines)[i].x1 <= Rank(lines)[j].x1)
  {
    if lines != [] {
      RankSorts(lines[1..]);
      InsertSorts(lines[0], Rank(lines[1..]));
    }
  }

  /** Ranking keeps the order of lines that stand at the same place. */
  lemma {:induction false} RankIsStable(lines: seq<Line>, at: Line)
    ensures Ties(Rank(lines), at) == Ties(lines, at)
  {
    if lines != [] {
      RankIsStable(lines[1..], at);
      InsertKeepsTies(lines[0], Rank(lines[1..]), at);
      assert ([lines[0]] + Rank(lines[1..]))[1..] == Rank(lines[1..]);
    }
  }

  /** Lines at the same place come in the same order in both. */
  ghost predicate SameTies(a: seq<Line>, b: seq<Line>) {
    forall at :: Ties(a, at) == Ties(b, at)
  }

  lemma {:induction false} TiesOfMember(s: seq<Line>, i: nat)
    requires i < |s|
    ensures Ties(s, s[i]) != []
  {
    if i > 0 {
      TiesOfMember(s[1..], i - 1);
    }
  }

  /** A sorted sequence is determined by its ties. */
  lemma {:induction false} SortedByTies(a: seq<Line>, b: seq<Line>)
    requires Sorted(a) && Sorted(b)
    requires SameTies(a, b)
    ensures a == b
  {
    if a == [] || b == [] {
      if a != [] { TiesOfMember(a, 0); }
      if b != [] { TiesOfMember(b, 0); }
    } else {
      TiesOfMember(a, 0);
      TiesOfMember(b, 0);
      assert Ties(b, a[0])[0] in b && Ties(a, b[0])[0] in a;
      assert SameKey(a[0], b[0]);
      assert Ties(a, a[0])[0] == a[0] && Ties(b, a[0])[0] == b[0];
      forall at ensures Ties(a[1..], at) == Ties(b[1..], at) {
        assert Ties(a, at) == (if SameKey(a[0], at) then [a[0]] else []) + Ties(a[1..], at);
        assert Ties(b, at) == (if SameKey(b[0], at) then [b[0]] else []) + Ties(b[1..], at);
        assert SameKey(a[0], at) <==> SameKey(b[0], at);
        var d := if SameKey(a[0], at) then 1 else 0;
        assert Ties(a, at)[d..] == Ties(a[1..], at) && Ties(b, at)[d..] == Ties(b[1..], at);
      }
      SortedByTies(a[1..], b[1..]);
      assert a == [a[0]] + a[1..] && b == [b[0]] + b[1..];
    }
  }

  /** Two emissions rank alike exactly when lines at the same place come in the same order in both. */
  lemma RankAlikeIff(a: seq<Line>, b: seq<Line>)
    ensures Rank(a) == Rank(b) <==> SameTies(a, b)
  {
    forall at ensures Ties(Rank(a), at) == Ties(a, at) && Ties(Rank(b), at) == Ties(b, at) {
      RankIsStable(a, at);
      RankIsStable(b, at);
    }
    RankSorts(a);
    RankSorts(b);
    if SameTies(a, b) {
      assert SameTies(Rank(a), Rank(b));
      SortedByTies(Rank(a), Rank(b));
    }
  }

  /** No two lines stand at the same place. */
  ghost predicate Distinct(s: seq<Line>) {
    forall i, j :: 0 <= i < j < |s| ==> !SameKey(s[i], s[j])
  }

  lemma {:induction false} NoTies(s: seq<Line>, at: Line)
    requires forall l <- s :: !SameKey(l, at)
    ensures Ties(s, at) == []
  {
    if s != [] {
      NoTies(s[1..], at);
    }
  }

  lemma {:induction false} OneTie(s: seq<Line>, i: nat, at: Line)
    requires Distinct(s) && i < |s| && SameKey(s[i], at)
    ensures Ties(s, at) == [s[i]]
  {
    if i == 0 {
      NoTies(s[1..], at);
    } else {
      OneTie(s[1..], i - 1, at);
    }
  }

  /** Lines at pairwise different places rank alike in every order of emission. */
  lemma RankIgnoresOrder(a: seq<Line>, b: seq<Line>)
    requires Distinct(a) && multiset(a) == multiset(b)
    ensures Rank(a) == Rank(b)
  {
    forall i, j | 0 <= i < j < |b| ensures !SameKey(b[i], b[j]) {
      if SameKey(b[i], b[j]) {
        assert b[i] in multiset(b) && b[j] in multiset(b);
        var k :| 0 <= k < |a| && a[k] == b[i];
        var l :| 0 <= l < |a| && a[l] == b[j];
        OneTie(a, k, b[i]);
        OneTie(a, l, b[i]);
        TwiceInMultiset(b, i, j);
        TwiceInSequence(a, b[i]);
      }
    }
    forall at ensures Ties(a, at) == Ties(b, at) {
      if i :| 0 <= i < |a| && SameKey(a[i], at) {
        assert a[i] in multiset(a);
        var j :| 0 <= j < |b| && b[j] == a[i];
        OneTie(a, i, at);
        OneTie(b, j, at);
      } else {
        forall l | l in b ensures !SameKey(l, at) {
          assert l in multiset(b);
          assert l in a;
        }
        NoTies(a, at);
        NoTies(b, at);
      }
    }
    RankAlikeIff(a, b);
  }

  lemma TwiceInMultiset(s: seq<Line>, i: nat, j: nat)
    requires i < j < |s| && s[i] == s[j]
    ensures multiset(s)[s[i]] >= 2
  {
    assert s == s[..j] + [s[j]] + s[j + 1..];
    assert s[..j][i] in multiset(s[..j]);
  }

  lemma {:induction false} TwiceInSequence(s: seq<Line>, l: Line)
    requires multiset(s)[l] >= 2
    ensures exists i, j :: 0 <= i < j < |s| && s[i] == s[j] == l
  {
    var j := |s| - 1;
    assert s == s[..j] + [s[j]];
    if s[j] == l {
      assert l in multiset(s[..j]);
      var i :| 0 <= i < j && s[i] == l;
    } else {
      TwiceInSequence(s[..j], l);
    }
  }
}
