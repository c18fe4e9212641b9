/** Backtracking regular expressions, as ordered lists of successes.
  *
  * `Matches` lists every way an expression can match from a position, in the order in which a
  * backtracking engine tries them; the engine reports the first one that lets the rest of the
  * expression match. Python's `re` is such an engine.
  */
module Regex {
  import opened Prelude
  import opened PyText

  /** A character class: the digits or not, the white space or not, and some further characters. */
  datatype Atom = Atom(digits: bool, spaces: bool, chars: set<char>)
  {
    predicate Has(c: char) {
      (digits && IsDigit(c)) || (spaces && IsSpace(c)) || c in chars
    }
  }

  const DIGIT := Atom(true, false, {})
  const SPACE := Atom(false, true, {})

  function OneOf(chars: set<char>): Atom {
    Atom(false, false, chars)
  }

  datatype Re =
    | Char(atom: Atom)
    | Then(first: Re, second: Re)
    | Or(left: Re, right: Re)
    | Repeat(body: Re, least: nat, most: Option<nat>)
    | Capture(group: nat, inner: Re)
    | NotBehind(behind: Atom)
    | NotAhead(ahead: Atom)

  datatype Match = Match(pos: nat, groups: map<nat, (nat, nat)>)

  function Pred(n: nat): nat {
    if n == 0 then 0 else n - 1
  }

  function PredBound(b: Option<nat>): Option<nat> {
    match b
    case None => None
    case Some(n) => Some(Pred(n))
  }

  function Tag(group: nat, from: nat, ms: seq<Match>): (r: seq<Match>)
    ensures |r| == |ms|
    ensures forall i :: 0 <= i < |ms| ==> r[i] == ms[i].(groups := ms[i].groups[group := (from, ms[i].pos)])
  {
    if ms == [] then []
    else [ms[0].(groups := ms[0].groups[group := (from, ms[0].pos)])] + Tag(group, from, ms[1..])
  }

  /** All matches of `re` in `s` from `m`, the engine's preferred one first. */
  function Matches(re: Re, s: string, m: Match): seq<Match>
    requires m.pos <= |s|
    decreases |s| - m.pos, re, 0
  {
    match re
    case Char(a) =>
      if m.pos < |s| && a.Has(s[m.pos]) then [m.(pos := m.pos + 1)] else []
    case Then(f, g) =>
      Each(g, s, Matches(f, s, m), m.pos)
    case Or(l, r) =>
      Matches(l, s, m) + Matches(r, s, m)
    case Repeat(body, least, most) =>
      // Greedy: another round is tried before stopping here. A round that consumes nothing is not repeated.
      (if most == Some(0) || m.pos == |s| then []
       else Each(Repeat(body, Pred(least), PredBound(most)), s, Matches(body, s, m), m.pos + 1))
      + (if least == 0 then [m] else [])
    case Capture(k, inner) =>
      Tag(k, m.pos, Matches(inner, s, m))
    case NotBehind(a) =>
      if m.pos > 0 && a.Has(s[m.pos - 1]) then [] else [m]
    case NotAhead(a) =>
      if m.pos < |s| && a.Has(s[m.pos]) then [] else [m]
  }

  /** The matches of `re` from each of `ms` that has come as far as `from`, in order. */
  function Each(re: Re, s: string, ms: seq<Match>, from: nat): seq<Match>
    requires from <= |s|
    decreases |s| - from, re, 1 + |ms|
  {
    if ms == [] then []
    else (if from <= ms[0].pos <= |s| then Matches(re, s, ms[0]) else []) + Each(re, s, ms[1..], from)
  }

  lemma {:induction false} EachFrom(re: Re, s: string, ms: seq<Match>, from: nat, y: Match) returns (x: Match)
    requires from <= |s| && y in Each(re, s, ms, from)
    ensures x in ms && from <= x.pos <= |s| && y in Matches(re, s, x)
    decreases |ms|
  {
    if from <= ms[0].pos <= |s| && y in Matches(re, s, ms[0]) {
      x := ms[0];
    } else {
      x := EachFrom(re, s, ms[1..], from, y);
    }
  }

  lemma {:induction false} ThenElim(f: Re, g: Re, s: string, m: Match, y: Match) returns (x: Match)
    requires m.pos <= |s| && y in Matches(Then(f, g), s, m)
    ensures x in Matches(f, s, m) && m.pos <= x.pos <= |s| && y in Matches(g, s, x)
  {
    x := EachFrom(g, s, Matches(f, s, m), m.pos, y);
  }

  lemma {:induction false} RepeatElim(b: Re, least: nat, most: Option<nat>, s: string, m: Match, x: Match) returns (y: Match)
    requires m.pos <= |s| && x in Matches(Repeat(b, least, most), s, m) && (x != m || least != 0)
    ensures y in Matches(b, s, m) && m.pos < y.pos <= |s| && x in Matches(Repeat(b, Pred(least), PredBound(most)), s, y)
  {
    y := EachFrom(Repeat(b, Pred(least), PredBound(most)), s, Matches(b, s, m), m.pos + 1, x);
  }

  lemma {:induction false} CaptureElim(k: nat, inner: Re, s: string, m: Match, z: Match) returns (w: Match)
    requires m.pos <= |s| && z in Matches(Capture(k, inner), s, m)
    ensures w in Matches(inner, s, m) && z == w.(groups := w.groups[k := (m.pos, w.pos)])
  {
    var i :| 0 <= i < |Matches(Capture(k, inner), s, m)| && Matches(Capture(k, inner), s, m)[i] == z;
    w := Matches(inner, s, m)[i];
  }

  /** Matches go forward and stay inside the text. */
  lemma {:induction false} Bounded(re: Re, s: string, m: Match, x: Match)
    requires m.pos <= |s| && x in Matches(re, s, m)
    ensures m.pos <= x.pos <= |s|
    decreases |s| - m.pos, re
  {
    match re
    case Char(a) =>
    case Then(f, g) =>
      var y := ThenElim(f, g, s, m, x);
      Bounded(g, s, y, x);
    case Or(l, r) =>
      if x in Matches(l, s, m) { Bounded(l, s, m, x); } else { Bounded(r, s, m, x); }
    case Repeat(b, least, most) =>
      if x != m || least != 0 {
        var y := RepeatElim(b, least, most, s, m, x);
        Bounded(Repeat(b, Pred(least), PredBound(most)), s, y, x);
      }
    case Capture(k, inner) =>
      var y := CaptureElim(k, inner, s, m, x);
      Bounded(inner, s, m, y);
    case NotBehind(_) =>
    case NotAhead(_) =>
  }

  /** The match an engine reports from `m`. */
  function First(re: Re, s: string, m: Match): (r: Option<Match>)
    requires m.pos <= |s|
    ensures r.Some? ==> m.pos <= r.value.pos <= |s|
  {
    var ms := Matches(re, s, m);
    if ms == [] then None
    else
      Bounded(re, s, m, ms[0]);
      Some(ms[0])
  }

  /** `re.search`: the leftmost start that matches at all. */
  function Search(re: Re, s: string, from: nat): (r: Option<Match>)
    requires from <= |s|
    ensures r.Some? ==> r.value.pos <= |s|
    decreases |s| - from
  {
    var here := First(re, s, Match(from, map[]));
    if here.Some? then here
    else if from == |s| then None
    else Search(re, s, from + 1)
  }

  /** The text captured by a group. */
  function Text(s: string, m: Match, group: nat): string {
    if group in m.groups && m.groups[group].0 <= m.groups[group].1 <= |s|
    then s[m.groups[group].0..m.groups[group].1]
    else ""
  }

  // ----- what lists of successes say about search -----

  /** A successful search reports the first match from the leftmost start at which there is one. */
  lemma {:induction false} SearchIsLeftmost(re: Re, s: string, from: nat) returns (i: nat)
    requires from <= |s| && Search(re, s, from).Some?
    ensures from <= i <= |s| && First(re, s, Match(i, map[])) == Search(re, s, from)
    ensures forall j :: from <= j < i ==> First(re, s, Match(j, map[])).None?
    decreases |s| - from
  {
    var here := First(re, s, Match(from, map[]));
    if here.Some? {
      i := from;
    } else {
      i := SearchIsLeftmost(re, s, from + 1);
      forall j | from <= j < i ensures First(re, s, Match(j, map[])).None? {
        if j == from { assert First(re, s, Match(j, map[])) == here; }
      }
    }
  }

  /** A search succeeds as soon as one start does. */
  lemma {:induction false} SearchFinds(re: Re, s: string, from: nat, i: nat)
    requires from <= i <= |s| && First(re, s, Match(i, map[])).Some?
    ensures Search(re, s, from).Some?
    decreases |s| - from
  {
    if First(re, s, Match(from, map[])).None? {
      SearchFinds(re, s, from + 1, i);
    }
  }

  lemma {:induction false} FirstOfEach(re: Re, s: string, ms: seq<Match>, from: nat)
    returns (x: Match)
    requires from <= |s| && Each(re, s, ms, from) != []
    ensures x in ms && from <= x.pos <= |s| && First(re, s, x) == Some(Each(re, s, ms, from)[0])
    decreases |ms|
  {
    if from <= ms[0].pos <= |s| && Matches(re, s, ms[0]) != [] {
      x := ms[0];
    } else {
      x := FirstOfEach(re, s, ms[1..], from);
    }
  }

  /** The reported match of a sequence is the reported match of its tail, from some match of its head. */
  lemma FirstThenElim(f: Re, g: Re, s: string, m: Match) returns (x: Match)
    requires m.pos <= |s| && First(Then(f, g), s, m).Some?
    ensures x in Matches(f, s, m) && m.pos <= x.pos <= |s|
    ensures First(g, s, x) == First(Then(f, g), s, m)
  {
    x := FirstOfEach(g, s, Matches(f, s, m), m.pos);
  }

  lemma EachFirst(re: Re, s: string, ms: seq<Match>, from: nat)
    requires from <= |s| && ms != [] && from <= ms[0].pos <= |s| && First(re, s, ms[0]).Some?
    ensures Each(re, s, ms, from) != []
    ensures First(re, s, ms[0]) == Some(Each(re, s, ms, from)[0])
  {
    assert Each(re, s, ms, from) == Matches(re, s, ms[0]) + Each(re, s, ms[1..], from);
  }

  /** If the preferred match of the head lets the tail match, backtracking never happens. */
  lemma FirstThen(f: Re, g: Re, s: string, m: Match)
    requires m.pos <= |s|
    requires First(f, s, m).Some? && First(g, s, First(f, s, m).value).Some?
    ensures First(Then(f, g), s, m) == First(g, s, First(f, s, m).value)
  {
    EachFirst(g, s, Matches(f, s, m), m.pos);
  }

  lemma FirstThenTo(f: Re, g: Re, s: string, m: Match, x: Match, y: Match)
    requires m.pos <= |s| && First(f, s, m) == Some(x) && x.pos <= |s| && First(g, s, x) == Some(y)
    ensures First(Then(f, g), s, m) == Some(y)
  {
    FirstThen(f, g, s, m);
  }

  /** One greedy round of a repetition. */
  lemma {:induction false} FirstRepeatMore(body: Re, least: nat, most: Option<nat>, s: string, m: Match)
    requires m.pos < |s| && most != Some(0)
    requires First(body, s, m).Some? && First(body, s, m).value.pos > m.pos
    requires First(Repeat(body, Pred(least), PredBound(most)), s, First(body, s, m).value).Some?
    ensures First(Repeat(body, least, most), s, m)
         == First(Repeat(body, Pred(least), PredBound(most)), s, First(body, s, m).value)
  {
    EachFirst(Repeat(body, Pred(least), PredBound(most)), s, Matches(body, s, m), m.pos + 1);
  }

  /** A repetition that cannot go on stops where it is. */
  lemma FirstRepeatStop(body: Re, least: nat, most: Option<nat>, s: string, m: Match)
    requires m.pos <= |s|
    requires most == Some(0) || m.pos == |s| || Matches(body, s, m) == []
    ensures Matches(Repeat(body, least, most), s, m) == if least == 0 then [m] else []
  {
  }

  /** An optional character is taken or not. */
  lemma {:induction false} OptionalChar(a: Atom, s: string, m: Match, w: Match)
    requires m.pos <= |s| && w in Matches(Repeat(Char(a), 0, Some(1)), s, m)
    ensures w == m || (m.pos < |s| && a.Has(s[m.pos]) && w == m.(pos := m.pos + 1))
  {
    if w != m {
      var v := RepeatElim(Char(a), 0, Some(1), s, m, w);
      FirstRepeatStop(Char(a), 0, Some(0), s, v);
    }
  }

  // ----- how sequences regroup: what an engine tries, and in which order -----

  lemma {:induction false} EachConcat(re: Re, s: string, a: seq<Match>, b: seq<Match>, from: nat)
    requires from <= |s|
    ensures Each(re, s, a + b, from) == Each(re, s, a, from) + Each(re, s, b, from)
    decreases |a|
  {
    if a == [] {
      assert a + b == b;
    } else {
      assert (a + b)[0] == a[0] && (a + b)[1..] == a[1..] + b;
      EachConcat(re, s, a[1..], b, from);
    }
  }

  /** A lower bound that all matches keep does not matter. */
  lemma {:induction false} EachFromAnywhere(re: Re, s: string, ms: seq<Match>, a: nat, b: nat)
    requires a <= |s| && b <= |s| && forall i :: 0 <= i < |ms| ==> a <= ms[i].pos && b <= ms[i].pos
    ensures Each(re, s, ms, a) == Each(re, s, ms, b)
    decreases |ms|
  {
    if ms != [] {
      EachFromAnywhere(re, s, ms[1..], a, b);
    }
  }

  lemma {:induction false} AllBounded(re: Re, s: string, m: Match)
    requires m.pos <= |s|
    ensures forall i :: 0 <= i < |Matches(re, s, m)| ==> m.pos <= Matches(re, s, m)[i].pos <= |s|
  {
    var ms := Matches(re, s, m);
    forall i | 0 <= i < |ms| ensures m.pos <= ms[i].pos <= |s| {
      Bounded(re, s, m, ms[i]);
    }
  }

  /** Going on from the matches of a sequence is going on from those of its head, with the rest of the sequence. */
  lemma {:induction false} EachThen(f: Re, g: Re, s: string, ms: seq<Match>, from: nat, low: nat)
    requires low <= from <= |s|
    ensures Each(g, s, Each(f, s, ms, from), low) == Each(Then(f, g), s, ms, from)
    decreases |ms|
  {
    if ms != [] {
      EachThen(f, g, s, ms[1..], from, low);
      var head := if from <= ms[0].pos <= |s| then Matches(f, s, ms[0]) else [];
      EachConcat(g, s, head, Each(f, s, ms[1..], from), low);
      if from <= ms[0].pos <= |s| {
        AllBounded(f, s, ms[0]);
        EachFromAnywhere(g, s, head, low, ms[0].pos);
      }
    }
  }

  lemma {:induction false} ThenAssociates(f: Re, g: Re, h: Re, s: string, m: Match)
    requires m.pos <= |s|
    ensures Matches(Then(Then(f, g), h), s, m) == Matches(Then(f, Then(g, h)), s, m)
  {
    EachThen(g, h, s, Matches(f, s, m), m.pos, m.pos);
  }

  lemma {:induction false} OrDistributes(l: Re, r: Re, g: Re, s: string, m: Match)
    requires m.pos <= |s|
    ensures Matches(Then(Or(l, r), g), s, m) == Matches(Then(l, g), s, m) + Matches(Then(r, g), s, m)
  {
    EachConcat(g, s, Matches(l, s, m), Matches(r, s, m), m.pos);
  }

  /** A repetition goes one round further, or hands over to what follows it. */
  lemma {:induction false} RepeatUnrolls(b: Re, least: nat, most: Option<nat>, g: Re, s: string, m: Match)
    requires m.pos <= |s|
    ensures Matches(Then(Repeat(b, least, most), g), s, m) == Rounds(b, least, most, g, s, m)
  {
    var rest := Repeat(b, Pred(least), PredBound(most));
    var more := if most == Some(0) || m.pos == |s| then [] else Each(rest, s, Matches(b, s, m), m.pos + 1);
    var stop := if least == 0 then [m] else [];
    assert Matches(Repeat(b, least, most), s, m) == more + stop;
    EachConcat(g, s, more, stop, m.pos);
    if !(most == Some(0) || m.pos == |s|) {
      EachThen(rest, g, s, Matches(b, s, m), m.pos + 1, m.pos);
    }
    HandsOver(g, s, m, stop);
  }

  lemma {:induction false} HandsOver(g: Re, s: string, m: Match, stop: seq<Match>)
    requires m.pos <= |s| && (stop == [] || stop == [m])
    ensures Each(g, s, stop, m.pos) == if stop == [] then [] else Matches(g, s, m)
  {
    if stop != [] {
      assert stop[1..] == [];
    }
  }

  function Rounds(b: Re, least: nat, most: Option<nat>, g: Re, s: string, m: Match): seq<Match>
    requires m.pos <= |s|
  {
    (if most == Some(0) || m.pos == |s| then []
     else Each(Then(Repeat(b, Pred(least), PredBound(most)), g), s, Matches(b, s, m), m.pos + 1))
    + (if least == 0 then Matches(g, s, m) else [])
  }

  lemma {:induction false} CharThen(a: Atom, g: Re, s: string, m: Match, from: nat)
    requires m.pos < |s| && from <= m.pos + 1
    ensures Each(g, s, Matches(Char(a), s, m), from) == if a.Has(s[m.pos]) then Matches(g, s, m.(pos := m.pos + 1)) else []
  {
    if a.Has(s[m.pos]) {
      var next := m.(pos := m.pos + 1);
      assert Matches(Char(a), s, m) == [next] && [next][1..] == [];
    }
  }

  /** A round that starts with a character, and what follows the round. */
  lemma {:induction false} CharRound(a: Atom, f: Re, g: Re, s: string, m: Match)
    requires m.pos < |s|
    ensures Each(g, s, Matches(Then(Char(a), f), s, m), m.pos + 1) ==
      if a.Has(s[m.pos]) then Matches(Then(f, g), s, m.(pos := m.pos + 1)) else []
  {
    var ms := Matches(Char(a), s, m);
    EachFromAnywhere(f, s, ms, m.pos, m.pos + 1);
    EachThen(f, g, s, ms, m.pos + 1, m.pos + 1);
    CharThen(a, Then(f, g), s, m, m.pos + 1);
  }

  /** A maximal run of characters: if what follows cannot start inside it, it is read whole or not at all. */
  lemma {:induction false} WholeRun(a: Atom, least: nat, most: Option<nat>, g: Re, s: string, m: Match, e: nat)
    requires m.pos <= e <= |s| && (forall i :: m.pos <= i < e ==> a.Has(s[i])) && (e < |s| ==> !a.Has(s[e]))
    requires forall i :: m.pos <= i < e ==> Matches(g, s, m.(pos := i)) == []
    ensures Matches(Then(Repeat(Char(a), least, most), g), s, m) ==
      if least <= e - m.pos && (most.Some? ==> e - m.pos <= most.value) then Matches(g, s, m.(pos := e)) else []
    decreases e - m.pos
  {
    RepeatUnrolls(Char(a), least, most, g, s, m);
    if m.pos < e {
      var next := m.(pos := m.pos + 1);
      assert Matches(g, s, m) == [] by { assert m == m.(pos := m.pos); }
      if most != Some(0) {
        CharThen(a, Then(Repeat(Char(a), Pred(least), PredBound(most)), g), s, m, m.pos + 1);
        forall i | next.pos <= i < e ensures Matches(g, s, next.(pos := i)) == [] {
          assert next.(pos := i) == m.(pos := i);
        }
        WholeRun(a, Pred(least), PredBound(most), g, s, next, e);
        assert next.(pos := e) == m.(pos := e);
      }
    } else {
      assert m.(pos := e) == m;
      if m.pos < |s| {
        CharThen(a, Then(Repeat(Char(a), Pred(least), PredBound(most)), g), s, m, m.pos + 1);
      }
    }
  }

  /** A character and exactly `n` characters of a maximal run. */
  lemma {:induction false} CharAndRun(c: Atom, a: Atom, n: nat, g: Re, s: string, m: Match, e: nat)
    requires m.pos < e <= |s| && (forall i :: m.pos + 1 <= i < e ==> a.Has(s[i])) && (e < |s| ==> !a.Has(s[e]))
    requires forall i :: m.pos + 1 <= i < e ==> Matches(g, s, m.(pos := i)) == []
    ensures Each(g, s, Matches(Then(Char(c), Repeat(Char(a), n, Some(n))), s, m), m.pos + 1) ==
      if c.Has(s[m.pos]) && e == m.pos + 1 + n then Matches(g, s, m.(pos := e)) else []
  {
    var next := m.(pos := m.pos + 1);
    CharRound(c, Repeat(Char(a), n, Some(n)), g, s, m);
    forall i | next.pos <= i < e ensures Matches(g, s, next.(pos := i)) == [] {
      assert next.(pos := i) == m.(pos := i);
    }
    WholeRun(a, n, Some(n), g, s, next, e);
  }

  /** A look-ahead does not see what has been captured. */
  lemma {:induction false} CaptureThenAhead(k: nat, f: Re, a: Atom, s: string, m: Match)
    requires m.pos <= |s|
    ensures First(Then(Capture(k, f), NotAhead(a)), s, m) ==
      match First(Then(f, NotAhead(a)), s, m)
      case None => None
      case Some(x) => Some(x.(groups := x.groups[k := (m.pos, x.pos)]))
  {
    var ms := Matches(Then(f, NotAhead(a)), s, m);
    TagThenAhead(k, m.pos, a, s, Matches(f, s, m), m.pos);
    assert Matches(Capture(k, f), s, m) == Tag(k, m.pos, Matches(f, s, m));
    assert Matches(Then(Capture(k, f), NotAhead(a)), s, m) == Tag(k, m.pos, ms);
  }

  lemma {:induction false} TagThenAhead(k: nat, start: nat, a: Atom, s: string, ms: seq<Match>, from: nat)
    requires from <= |s|
    ensures Each(NotAhead(a), s, Tag(k, start, ms), from) == Tag(k, start, Each(NotAhead(a), s, ms, from))
    decreases |ms|
  {
    if ms != [] {
      TagThenAhead(k, start, a, s, ms[1..], from);
      assert Tag(k, start, ms)[1..] == Tag(k, start, ms[1..]);
      var x, rest := ms[0], Each(NotAhead(a), s, ms[1..], from);
      assert Tag(k, start, [x] + rest) == [x.(groups := x.groups[k := (start, x.pos)])] + Tag(k, start, rest);
    }
  }

  // ----- what an expression can consume -----

  /** Every character `re` consumes satisfies `ok`. */
  ghost predicate Only(re: Re, ok: char -> bool) {
    match re
    case Char(a) => forall c :: a.Has(c) ==> ok(c)
    case Then(f, g) => Only(f, ok) && Only(g, ok)
    case Or(l, r) => Only(l, ok) && Only(r, ok)
    case Repeat(b, _, _) => Only(b, ok)
    case Capture(_, b) => Only(b, ok)
    case NotBehind(_) => true
    case NotAhead(_) => true
  }

  ghost predicate NoCapture(re: Re) {
    match re
    case Char(a) => true
    case Then(f, g) => NoCapture(f) && NoCapture(g)
    case Or(l, r) => NoCapture(l) && NoCapture(r)
    case Repeat(b, _, _) => NoCapture(b)
    case Capture(_, b) => false
    case NotBehind(_) => true
    case NotAhead(_) => true
  }

  ghost predicate Throughout(s: string, from: nat, to: nat, ok: char -> bool) {
    forall i :: from <= i < to && i < |s| ==> ok(s[i])
  }

  lemma {:induction false} ConsumesOnly(re: Re, s: string, m: Match, x: Match, ok: char -> bool)
    requires m.pos <= |s| && x in Matches(re, s, m) && Only(re, ok)
    ensures m.pos <= x.pos <= |s| && Throughout(s, m.pos, x.pos, ok)
    decreases |s| - m.pos, re
  {
    match re
    case Char(a) =>
    case Then(f, g) =>
      var y := ThenElim(f, g, s, m, x);
      ConsumesOnly(f, s, m, y, ok);
      ConsumesOnly(g, s, y, x, ok);
    case Or(l, r) =>
      if x in Matches(l, s, m) { ConsumesOnly(l, s, m, x, ok); } else { ConsumesOnly(r, s, m, x, ok); }
    case Repeat(b, least, most) =>
      if x != m || least != 0 {
        var rest := Repeat(b, Pred(least), PredBound(most));
        var y := RepeatElim(b, least, most, s, m, x);
        ConsumesOnly(b, s, m, y, ok);
        ConsumesOnly(rest, s, y, x, ok);
      }
    case Capture(k, inner) =>
      var y := CaptureElim(k, inner, s, m, x);
      ConsumesOnly(inner, s, m, y, ok);
    case NotBehind(_) =>
    case NotAhead(_) =>
  }

  lemma {:induction false} KeepsGroups(re: Re, s: string, m: Match, x: Match)
    requires m.pos <= |s| && x in Matches(re, s, m) && NoCapture(re)
    ensures x.groups == m.groups
    decreases |s| - m.pos, re
  {
    match re
    case Char(a) =>
    case Then(f, g) =>
      var y := ThenElim(f, g, s, m, x);
      KeepsGroups(f, s, m, y);
      KeepsGroups(g, s, y, x);
    case Or(l, r) =>
      if x in Matches(l, s, m) { KeepsGroups(l, s, m, x); } else { KeepsGroups(r, s, m, x); }
    case Repeat(b, least, most) =>
      if x != m || least != 0 {
        var rest := Repeat(b, Pred(least), PredBound(most));
        var y := RepeatElim(b, least, most, s, m, x);
        KeepsGroups(b, s, m, y);
        KeepsGroups(rest, s, y, x);
      }
    case NotBehind(_) =>
    case NotAhead(_) =>
  }
}
