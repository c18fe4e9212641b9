/** Which number `parse_money` reads: a reference without backtracking, and the proof that the pattern agrees with it. */
module Tokens {
  import opened Prelude
  import opened PyText
  import opened Regex
  import opened Money

  // ----- the reference: where a token starts and ends -----

  predicate IsStop(c: char) {
    c == '.' || c == ','
  }

  predicate IsSeparator(c: char) {
    IsStop(c) || IsSpace(c)
  }

  /** A token may not start after these. */
  predicate Blocks(c: char) {
    IsStop(c) || IsDigit(c)
  }

  function RunEnd(s: string, p: nat): (e: nat)
    requires p <= |s|
    ensures p <= e <= |s| && (forall i :: p <= i < e ==> IsDigit(s[i])) && (e < |s| ==> !IsDigit(s[e]))
    decreases |s| - p
  {
    if p < |s| && IsDigit(s[p]) then RunEnd(s, p + 1) else p
  }

  /** From the end of a group of at most three digits: the end of the groups that follow, each after one separator. */
  function GroupsEnd(s: string, e: nat): (r: nat)
    requires e <= |s|
    ensures e <= r <= |s|
    decreases |s| - e
  {
    if e < |s| && IsSeparator(s[e]) && 1 <= RunEnd(s, e + 1) - (e + 1) <= 3 then GroupsEnd(s, RunEnd(s, e + 1)) else e
  }

  /** From the end of a longer run: past a stop and exactly two digits. */
  function CentsEnd(s: string, e: nat): (r: nat)
    requires e <= |s|
    ensures e <= r <= |s|
  {
    if e < |s| && IsStop(s[e]) && RunEnd(s, e + 1) == e + 3 then e + 3 else e
  }

  /** The end of the number that starts at `p`: groups of one to three digits, or one longer run, perhaps with cents. */
  function NumberEnd(s: string, p: nat): (e: nat)
    requires p <= |s|
    ensures p <= e <= |s|
  {
    var e := RunEnd(s, p);
    if e - p <= 3 then GroupsEnd(s, e) else CentsEnd(s, e)
  }

  predicate Unblocked(t: string, p: nat) {
    p <= |t| && (p > 0 ==> !Blocks(t[p - 1]))
  }

  /** A sign or number can start at `p`: after anything but a digit or a stop, or behind an abbreviated "rp." */
  predicate Lead(t: string, p: nat) {
    || Unblocked(t, p)
    || (3 <= p <= |t| && t[p - 3] in {'r', 'R'} && t[p - 2] in {'p', 'P'} && t[p - 1] == '.' && Unblocked(t, p - 3))
  }

  /** A money token's digits can start at `p`. */
  predicate TokenAt(t: string, p: nat) {
    p < |t| && IsDigit(t[p]) && Lead(t, p)
  }

  predicate IsFirstToken(t: string, p: nat) {
    TokenAt(t, p) && forall q :: 0 <= q < p ==> !TokenAt(t, q)
  }

  /** A minus sign in front of the digits at `p` counts if it could start a token itself. */
  predicate Minus(t: string, p: nat) {
    0 < p <= |t| && t[p - 1] == '-' && Lead(t, p - 1)
  }

  lemma {:induction false} RunEndIs(s: string, p: nat, e: nat)
    requires p <= e <= |s| && (forall i :: p <= i < e ==> IsDigit(s[i])) && (e < |s| ==> !IsDigit(s[e]))
    ensures RunEnd(s, p) == e
    decreases e - p
  {
    if p < e {
      RunEndIs(s, p + 1, e);
    }
  }

  // ----- the number pattern, with its backtracking -----

  const AHEAD := NotAhead(DIGIT)
  const CENTS := Then(Char(STOPS), TWO_DIGITS)
  /** What follows the whole part of a number. */
  const TAIL := Then(DECIMALS, AHEAD)

  function Groups(least: nat): Re {
    Then(Repeat(NEXT_GROUP, least, None), TAIL)
  }

  predicate DigitAhead(s: string, m: Match) {
    m.pos < |s| && IsDigit(s[m.pos])
  }

  lemma {:induction false} SeparatorNotDigit(c: char)
    ensures SEPARATOR.Has(c) == IsSeparator(c) && STOPS.Has(c) == IsStop(c)
    ensures IsSeparator(c) ==> !IsDigit(c)
  {
  }

  lemma {:induction false} CentsDone(s: string, m: Match)
    requires m.pos <= |s|
    ensures Matches(Then(Repeat(CENTS, 0, Some(0)), AHEAD), s, m) == if DigitAhead(s, m) then [] else [m]
  {
    RepeatUnrolls(CENTS, 0, Some(0), AHEAD, s, m);
  }

  lemma {:induction false} CentsRead(s: string, m: Match)
    requires m.pos < |s|
    ensures Each(Then(Repeat(CENTS, 0, Some(0)), AHEAD), s, Matches(CENTS, s, m), m.pos + 1) ==
      if CentsEnd(s, m.pos) == m.pos then [] else [m.(pos := CentsEnd(s, m.pos))]
  {
    var done := Then(Repeat(CENTS, 0, Some(0)), AHEAD);
    var next := m.(pos := m.pos + 1);
    var e := RunEnd(s, next.pos);
    forall i | next.pos <= i < e ensures Matches(done, s, next.(pos := i)) == [] {
      CentsDone(s, next.(pos := i));
    }
    CentsDone(s, next.(pos := e));
    CharAndRun(STOPS, DIGIT, 2, done, s, m, e);
  }

  lemma {:induction false} NoTailInRun(s: string, m: Match)
    requires DigitAhead(s, m)
    ensures Matches(TAIL, s, m) == []
  {
    RepeatUnrolls(CENTS, 0, Some(1), AHEAD, s, m);
    CentsRead(s, m);
    SeparatorNotDigit(s[m.pos]);
  }

  /** After the whole part: a stop and exactly two digits, if they are there. */
  lemma {:induction false} TailReads(s: string, m: Match)
    requires m.pos <= |s| && !DigitAhead(s, m)
    ensures First(TAIL, s, m) == Some(m.(pos := CentsEnd(s, m.pos)))
  {
    RepeatUnrolls(CENTS, 0, Some(1), AHEAD, s, m);
    if m.pos < |s| {
      CentsRead(s, m);
    }
  }

  lemma {:induction false} NoGroupInRun(s: string, least: nat, m: Match)
    requires DigitAhead(s, m)
    ensures Matches(Groups(least), s, m) == []
  {
    RepeatUnrolls(NEXT_GROUP, least, None, TAIL, s, m);
    CharRound(SEPARATOR, ONE_TO_THREE, Groups(Pred(least)), s, m);
    SeparatorNotDigit(s[m.pos]);
    NoTailInRun(s, m);
  }

  /** Groups are read greedily, and never partly: a group of more than three digits ends the number before it. */
  lemma {:induction false} GroupsRead(s: string, least: nat, m: Match)
    requires m.pos <= |s| && !DigitAhead(s, m) && least <= 1
    ensures First(Groups(least), s, m) ==
      if least == 1 && GroupsEnd(s, m.pos) == m.pos then None else Some(m.(pos := GroupsEnd(s, m.pos)))
    decreases |s| - m.pos
  {
    RepeatUnrolls(NEXT_GROUP, least, None, TAIL, s, m);
    TailReads(s, m);
    if m.pos < |s| {
      CharRound(SEPARATOR, ONE_TO_THREE, Groups(0), s, m);
      SeparatorNotDigit(s[m.pos]);
      var next := m.(pos := m.pos + 1);
      var e := RunEnd(s, next.pos);
      forall i | next.pos <= i < e ensures Matches(Groups(0), s, next.(pos := i)) == [] {
        NoGroupInRun(s, 0, next.(pos := i));
      }
      WholeRun(DIGIT, 1, Some(3), Groups(0), s, next, e);
      GroupsRead(s, 0, next.(pos := e));
    }
  }

  /** The pattern reads the number that starts at a digit up to its end, and nothing anywhere else. */
  lemma {:induction false} AmountIs(s: string, m: Match)
    requires m.pos <= |s|
    ensures First(AMOUNT, s, m) ==
      if DigitAhead(s, m) then Some(Match(NumberEnd(s, m.pos), m.groups[2 := (m.pos, NumberEnd(s, m.pos))])) else None
  {
    CaptureThenAhead(2, NUMBER, DIGIT, s, m);
    ThenAssociates(Or(GROUPED, PLAIN), DECIMALS, AHEAD, s, m);
    OrDistributes(GROUPED, PLAIN, TAIL, s, m);
    ThenAssociates(ONE_TO_THREE, Repeat(NEXT_GROUP, 1, None), TAIL, s, m);
    var e := RunEnd(s, m.pos);
    forall i | m.pos <= i < e ensures Matches(Groups(1), s, m.(pos := i)) == [] && Matches(TAIL, s, m.(pos := i)) == [] {
      NoGroupInRun(s, 1, m.(pos := i));
      NoTailInRun(s, m.(pos := i));
    }
    WholeRun(DIGIT, 1, Some(3), Groups(1), s, m, e);
    WholeRun(DIGIT, 1, None, TAIL, s, m, e);
    GroupsRead(s, 1, m.(pos := e));
    TailReads(s, m.(pos := e));
  }

  // ----- what comes before the number -----

  lemma {:induction false} FirstRun(a: Atom, least: nat, most: Option<nat>, s: string, m: Match, k: nat)
    requires m.pos + k <= |s| && least <= k && (most.Some? ==> k <= most.value)
    requires forall i :: m.pos <= i < m.pos + k ==> a.Has(s[i])
    requires most == Some(k) || m.pos + k == |s| || !a.Has(s[m.pos + k])
    ensures First(Repeat(Char(a), least, most), s, m) == Some(m.(pos := m.pos + k))
    decreases k
  {
    if k == 0 {
      FirstRepeatStop(Char(a), least, most, s, m);
    } else {
      var m' := m.(pos := m.pos + 1);
      FirstRun(a, Pred(least), PredBound(most), s, m', k - 1);
      FirstRepeatMore(Char(a), least, most, s, m);
    }
  }

  /** Where the parts of a match of the whole pattern end: white space, prefix, sign. */
  lemma MoneyParts(s: string, m: Match) returns (x: Match, y: Match, z: Match)
    requires m.pos <= |s| && First(MONEY, s, m).Some?
    ensures m.pos > 0 ==> !IsDigit(s[m.pos - 1]) && !STOPS.Has(s[m.pos - 1])
    ensures x in Matches(SPACES, s, m) && m.pos <= x.pos <= |s|
    ensures y in Matches(PREFIX, s, x) && x.pos <= y.pos <= |s|
    ensures z in Matches(SIGN, s, y) && y.pos <= z.pos <= |s|
    ensures First(AMOUNT, s, z) == First(MONEY, s, m)
  {
    var w := FirstThenElim(START, Then(SPACES, Then(PREFIX, Then(SIGN, AMOUNT))), s, m);
    x := FirstThenElim(SPACES, Then(PREFIX, Then(SIGN, AMOUNT)), s, w);
    y := FirstThenElim(PREFIX, Then(SIGN, AMOUNT), s, x);
    z := FirstThenElim(SIGN, AMOUNT, s, y);
  }

  ghost predicate InPrefix(c: char) {
    IsSpace(c) || c in {'r', 'R', 'p', 'P', '.'}
  }

  /** Neither white space nor prefix contains a digit or a sign, and neither captures. */
  lemma BeforeSign(s: string, m: Match, x: Match, y: Match)
    requires m.pos <= |s| && x in Matches(SPACES, s, m) && x.pos <= |s| && y in Matches(PREFIX, s, x)
    ensures y.groups == m.groups && m.pos <= x.pos <= y.pos <= |s|
    ensures forall i :: m.pos <= i < y.pos ==> InPrefix(s[i])
  {
    KeepsGroups(SPACES, s, m, x);
    KeepsGroups(PREFIX, s, x, y);
    ConsumesOnly(SPACES, s, m, x, InPrefix);
    PrefixIsInPrefix();
    ConsumesOnly(PREFIX, s, x, y, InPrefix);
  }

  lemma PrefixIsInPrefix()
    ensures Only(PREFIX, InPrefix)
  {
    assert Only(SPACES, InPrefix);
    assert Only(Repeat(Char(OneOf({'.'})), 0, Some(1)), InPrefix);
    assert Only(Then(Repeat(Char(OneOf({'.'})), 0, Some(1)), SPACES), InPrefix);
    assert Only(RUPIAH, InPrefix);
  }

  /** The sign group is empty or one sign. */
  lemma SignParts(s: string, y: Match, z: Match)
    requires y.pos <= |s| && z in Matches(SIGN, s, y)
    ensures z.groups == y.groups[1 := (y.pos, z.pos)]
    ensures z.pos == y.pos || (z.pos == y.pos + 1 <= |s| && s[y.pos] in {'-', '+'})
  {
    var w := CaptureElim(1, Repeat(Char(OneOf({'-', '+'})), 0, Some(1)), s, y, z);
    OptionalChar(OneOf({'-', '+'}), s, y, w);
  }

  /** A sign in front of a digit is read, and nothing else is. */
  lemma FirstSign(t: string, m: Match, p: nat)
    requires m.pos <= p < |t| && IsDigit(t[p]) && (p == m.pos || (p == m.pos + 1 && t[m.pos] in {'-', '+'}))
    ensures First(SIGN, t, m) == Some(Match(p, m.groups[1 := (m.pos, p)]))
  {
    FirstRun(OneOf({'-', '+'}), 0, Some(1), t, m, p - m.pos);
  }

  /** The preferred match of the whole pattern, from those of its parts. */
  lemma FirstOfMoney(t: string, m: Match, y: Match, z: Match, r: Match)
    requires m.pos <= |t| && y.pos <= |t| && z.pos <= |t|
    requires First(START, t, m) == Some(m) && First(SPACES, t, m) == Some(m) && First(PREFIX, t, m) == Some(y)
    requires First(SIGN, t, y) == Some(z) && First(AMOUNT, t, z) == Some(r)
    ensures First(MONEY, t, m) == Some(r)
  {
    FirstThenTo(SIGN, AMOUNT, t, y, z, r);
    FirstThenTo(PREFIX, Then(SIGN, AMOUNT), t, m, y, r);
    FirstThenTo(SPACES, Then(PREFIX, Then(SIGN, AMOUNT)), t, m, m, r);
    FirstThenTo(START, Then(SPACES, Then(PREFIX, Then(SIGN, AMOUNT))), t, m, m, r);
  }

  lemma NoPrefixAt(t: string, m: Match)
    requires m.pos < |t| && (IsDigit(t[m.pos]) || t[m.pos] in {'-', '+'})
    ensures First(SPACES, t, m) == Some(m)
    ensures First(PREFIX, t, m) == Some(m)
  {
    FirstRepeatStop(Char(SPACE), 0, None, t, m);
    assert Matches(Char(OneOf({'r', 'R'})), t, m) == [];
    assert Matches(RUPIAH, t, m) == [];
    FirstRepeatStop(RUPIAH, 0, Some(1), t, m);
  }

  lemma FirstRupiah(t: string, i: nat)
    requires i + 3 < |t| && !IsSpace(t[i + 3])
    requires t[i] in {'r', 'R'} && t[i + 1] in {'p', 'P'} && t[i + 2] == '.'
    ensures First(PREFIX, t, Match(i, map[])) == Some(Match(i + 3, map[]))
  {
    var m, m1, m2, m3 := Match(i, map[]), Match(i + 1, map[]), Match(i + 2, map[]), Match(i + 3, map[]);
    var dot := Repeat(Char(OneOf({'.'})), 0, Some(1));
    FirstRun(OneOf({'.'}), 0, Some(1), t, m2, 1);
    FirstRun(SPACE, 0, None, t, m3, 0);
    FirstThenTo(dot, SPACES, t, m2, m3, m3);
    FirstThenTo(Char(OneOf({'p', 'P'})), Then(dot, SPACES), t, m1, m2, m3);
    FirstThenTo(Char(OneOf({'r', 'R'})), Then(Char(OneOf({'p', 'P'})), Then(dot, SPACES)), t, m, m1, m3);
    FirstRepeatStop(RUPIAH, 0, Some(0), t, m3);
    FirstRepeatMore(RUPIAH, 0, Some(1), t, m);
  }

  /** A match starts at a sign or number that can start a token, or at the abbreviation before it. */
  lemma {:induction false} LeadMatches(t: string, k: nat, p: nat) returns (i: nat)
    requires p < |t| && IsDigit(t[p]) && Lead(t, k) && (p == k || (p == k + 1 && t[k] in {'-', '+'}))
    ensures i <= k && First(MONEY, t, Match(i, map[])).Some?
  {
    i := if Unblocked(t, k) then k else k - 3;
    var m, y, z := Match(i, map[]), Match(k, map[]), Match(p, map[1 := (k, p)]);
    if i == k {
      NoPrefixAt(t, m);
    } else {
      FirstRupiah(t, i);
      FirstRepeatStop(Char(SPACE), 0, None, t, m);
    }
    FirstSign(t, y, p);
    AmountIs(t, z);
    FirstOfMoney(t, m, y, z, First(AMOUNT, t, z).value);
  }

  /** What precedes the end of a nonempty prefix: its "p", its dot, or white space. */
  lemma PrefixShape(t: string, x: Match, y: Match)
    requires x.pos <= |t| && y in Matches(PREFIX, t, x) && y != x
    ensures x.pos + 2 <= y.pos <= |t| && t[x.pos] in {'r', 'R'} && t[x.pos + 1] in {'p', 'P'}
    ensures Blocks(t[y.pos - 1]) ==> y.pos == x.pos + 3 && t[x.pos + 2] == '.'
  {
    var v := RepeatElim(RUPIAH, 0, Some(1), t, x, y);
    FirstRepeatStop(RUPIAH, 0, Some(0), t, v);
    RupiahShape(t, x, y);
  }

  lemma RupiahShape(t: string, x: Match, y: Match)
    requires x.pos <= |t| && y in Matches(RUPIAH, t, x)
    ensures x.pos + 2 <= y.pos <= |t| && t[x.pos] in {'r', 'R'} && t[x.pos + 1] in {'p', 'P'}
    ensures Blocks(t[y.pos - 1]) ==> y.pos == x.pos + 3 && t[x.pos + 2] == '.'
  {
    var a := ThenElim(Char(OneOf({'r', 'R'})), Then(Char(OneOf({'p', 'P'})), ABBREVIATED), t, x, y);
    var b := ThenElim(Char(OneOf({'p', 'P'})), ABBREVIATED, t, a, y);
    AbbreviatedShape(t, b, y);
  }

  lemma AbbreviatedShape(t: string, b: Match, y: Match)
    requires b.pos <= |t| && y in Matches(ABBREVIATED, t, b)
    ensures b.pos <= y.pos <= |t|
    ensures y.pos > b.pos && Blocks(t[y.pos - 1]) ==> y.pos == b.pos + 1 && t[b.pos] == '.'
  {
    var c := ThenElim(Repeat(Char(OneOf({'.'})), 0, Some(1)), SPACES, t, b, y);
    OptionalChar(OneOf({'.'}), t, b, c);
    ConsumesOnly(SPACES, t, c, y, IsSpace);
    if y.pos > c.pos {
      assert IsSpace(t[y.pos - 1]);
    }
  }

  /** A match, by positions: white space up to `j`, prefix up to `k`, and the number's start at `e`. */
  ghost predicate Anatomy(t: string, i: nat, j: nat, k: nat, e: nat) {
    && i <= j <= k <= e < |t| && IsDigit(t[e])
    && (forall l :: i <= l < j ==> IsSpace(t[l]))
    && (forall l :: i <= l < k ==> InPrefix(t[l]))
    && (j < k ==> j + 2 <= k && t[j] in {'r', 'R'} && t[j + 1] in {'p', 'P'})
    && (j < k && Blocks(t[k - 1]) ==> k == j + 3 && t[j + 2] == '.')
    && (e == k || (e == k + 1 && t[k] in {'-', '+'}))
  }

  lemma PartsShape(t: string, m: Match, x: Match, y: Match, z: Match)
    requires m.pos <= |t| && x in Matches(SPACES, t, m) && x.pos <= |t|
    requires y in Matches(PREFIX, t, x) && y.pos <= |t| && z in Matches(SIGN, t, y) && z.pos <= |t|
    requires First(AMOUNT, t, z).Some?
    ensures Anatomy(t, m.pos, x.pos, y.pos, z.pos) && z.groups == m.groups[1 := (y.pos, z.pos)]
  {
    AmountIs(t, z);
    BeforeSign(t, m, x, y);
    SignParts(t, y, z);
    ConsumesOnly(SPACES, t, m, x, IsSpace);
    if x.pos < y.pos {
      PrefixShape(t, x, y);
    }
  }

  lemma AnatomyIsToken(t: string, i: nat, j: nat, k: nat, e: nat)
    requires Anatomy(t, i, j, k, e) && Unblocked(t, i)
    ensures Lead(t, k) && TokenAt(t, e) && forall l :: i <= l < e ==> !IsDigit(t[l])
  {
    assert Unblocked(t, j) by {
      assert j > i ==> IsSpace(t[j - 1]);
    }
  }

  /** The number of any match is a token, and the sign captured stands where a token could start. */
  lemma MatchIsToken(t: string, i: nat) returns (k: nat, z: Match)
    requires i <= |t| && First(MONEY, t, Match(i, map[])).Some?
    ensures i <= k <= z.pos && TokenAt(t, z.pos) && Lead(t, k)
    ensures forall l :: i <= l < z.pos ==> !IsDigit(t[l])
    ensures forall l :: i <= l < k ==> t[l] != '-'
    ensures z.groups == map[1 := (k, z.pos)] && (z.pos == k || (z.pos == k + 1 && t[k] in {'-', '+'}))
    ensures First(AMOUNT, t, z) == First(MONEY, t, Match(i, map[]))
  {
    var x, y;
    x, y, z := MoneyParts(t, Match(i, map[]));
    k := y.pos;
    PartsShape(t, Match(i, map[]), x, y, z);
    AnatomyIsToken(t, i, x.pos, y.pos, z.pos);
  }

  // ----- the search -----

  /** The search captures the first token's number, and a minus sign exactly when one counts. */
  lemma {:induction false} SearchReads(t: string, p: nat)
    requires IsFirstToken(t, p)
    ensures Search(MONEY, t, 0).Some?
    ensures var r := Search(MONEY, t, 0).value;
      Text(t, r, 2) == t[p..NumberEnd(t, p)] && (Text(t, r, 1) == "-" <==> Minus(t, p))
  {
    var k := if Minus(t, p) then p - 1 else p;
    var j := LeadMatches(t, k, p);
    SearchFinds(MONEY, t, 0, j);
    var i := SearchIsLeftmost(MONEY, t, 0);
    var sign, z := MatchIsToken(t, i);
    assert i <= j;
    assert z.pos == p;
    AmountIs(t, z);
    assert Minus(t, p) ==> sign == p - 1;
  }

  lemma {:induction false} SearchFails(t: string)
    requires forall p :: !TokenAt(t, p)
    ensures Search(MONEY, t, 0).None?
  {
    if Search(MONEY, t, 0).Some? {
      var i := SearchIsLeftmost(MONEY, t, 0);
      var _, z := MatchIsToken(t, i);
    }
  }

  // ----- the parser -----

  predicate NumberChar(c: char) {
    IsDigit(c) || IsSeparator(c)
  }

  lemma {:induction false} GroupsShape(s: string, e: nat)
    requires 0 < e <= |s| && IsDigit(s[e - 1])
    ensures IsDigit(s[GroupsEnd(s, e) - 1]) && forall i :: e <= i < GroupsEnd(s, e) ==> NumberChar(s[i])
    decreases |s| - e
  {
    if GroupsEnd(s, e) > e {
      GroupsShape(s, RunEnd(s, e + 1));
    }
  }

  /** A number starts and ends with a digit, and holds digits and separators only. */
  lemma {:induction false} NumberShape(s: string, p: nat)
    requires p < |s| && IsDigit(s[p])
    ensures p < NumberEnd(s, p) && IsDigit(s[NumberEnd(s, p) - 1])
    ensures forall i :: p <= i < NumberEnd(s, p) ==> NumberChar(s[i])
  {
    var e := RunEnd(s, p);
    GroupsShape(s, e);
    if e < |s| {
      SeparatorNotDigit(s[e]);
    }
  }

  /** The digits of a text. */
  function DigitsOf(s: string): string {
    if s == "" then "" else (if IsDigit(s[0]) then [s[0]] else "") + DigitsOf(s[1..])
  }

  lemma {:induction false} CleanIsDigits(w: string)
    requires forall i :: 0 <= i < |w| ==> NumberChar(w[i])
    ensures Clean(w) == DigitsOf(w) && AllDigits(DigitsOf(w))
    ensures w != "" && IsDigit(w[0]) ==> DigitsOf(w) != ""
  {
    if w != "" {
      CleanIsDigits(w[1..]);
      SeparatorNotDigit(w[0]);
    }
  }

  lemma {:induction false} StripNothing(s: string)
    requires s != "" && IsDigit(s[0]) && IsDigit(s[|s| - 1])
    ensures Strip(s) == s
  {
  }

  /** The digits of the number that starts at `p`. */
  function DigitsAt(text: string, p: nat): string
    requires p <= |text|
  {
    DigitsOf(text[p..NumberEnd(text, p)])
  }

  lemma {:induction false} ParseSpaced(text: string, t: string, p: nat)
    requires t == Substitute(text, '\U{A0}', ' ') && IsFirstToken(t, p)
    ensures var d := DigitsAt(t, p);
      && d != "" && AllDigits(d)
      && var v: int := DecimalValue(d);
         ParseMoney(text) == if |d| > 4300 then None else Some(if Minus(t, p) then -v else v)
  {
    var w := t[p..NumberEnd(t, p)];
    SearchReads(t, p);
    NumberShape(t, p);
    StripNothing(w);
    CleanIsDigits(w);
  }

  /** The same text, with non-breaking spaces replaced. */
  ghost predicate Spaced(s: string, t: string) {
    |s| == |t| && forall i :: 0 <= i < |s| ==> s[i] == t[i] || (s[i] == '\U{A0}' && t[i] == ' ')
  }

  lemma {:induction false} SpacedRuns(s: string, t: string, p: nat)
    requires Spaced(s, t) && p <= |s|
    ensures RunEnd(s, p) == RunEnd(t, p)
    decreases |s| - p
  {
    if p < |s| && IsDigit(s[p]) {
      SpacedRuns(s, t, p + 1);
    }
  }

  lemma {:induction false} SpacedGroups(s: string, t: string, e: nat)
    requires Spaced(s, t) && e <= |s|
    ensures GroupsEnd(s, e) == GroupsEnd(t, e)
    decreases |s| - e
  {
    if e < |s| {
      SpacedRuns(s, t, e + 1);
      if GroupsEnd(s, e) > e {
        SpacedGroups(s, t, RunEnd(s, e + 1));
      }
    }
  }

  lemma {:induction false} SpacedDigits(s: string, t: string)
    requires Spaced(s, t)
    ensures DigitsOf(s) == DigitsOf(t)
  {
    if s != "" {
      SpacedDigits(s[1..], t[1..]);
    }
  }

  lemma {:induction false} SpacedNumber(s: string, t: string, p: nat)
    requires Spaced(s, t) && p <= |s|
    ensures NumberEnd(s, p) == NumberEnd(t, p) && DigitsAt(s, p) == DigitsAt(t, p)
  {
    var e := RunEnd(s, p);
    SpacedRuns(s, t, p);
    SpacedGroups(s, t, e);
    if e < |s| {
      SpacedRuns(s, t, e + 1);
    }
    SpacedDigits(s[p..NumberEnd(s, p)], t[p..NumberEnd(s, p)]);
  }

  lemma {:induction false} SpacedTokens(s: string, t: string)
    requires Spaced(s, t)
    ensures forall p :: TokenAt(s, p) <==> TokenAt(t, p)
    ensures forall p :: Minus(s, p) <==> Minus(t, p)
  {
  }

  /** For every text: the parser reads the digits of the first token's number, negated exactly by a minus sign that
    * counts; beyond Python's limit on digits it reads nothing. */
  lemma {:induction false} ParseIs(text: string, p: nat)
    requires IsFirstToken(text, p)
    ensures var d := DigitsAt(text, p);
      && d != "" && AllDigits(d)
      && var v: int := DecimalValue(d);
         ParseMoney(text) == if |d| > 4300 then None else Some(if Minus(text, p) then -v else v)
  {
    var t := Substitute(text, '\U{A0}', ' ');
    SpacedTokens(text, t);
    SpacedNumber(text, t, p);
    ParseSpaced(text, t, p);
  }

  lemma {:induction false} SomeFirstToken(t: string, p: nat) returns (q: nat)
    requires TokenAt(t, p)
    ensures IsFirstToken(t, q)
  {
    if r :| 0 <= r < p && TokenAt(t, r) {
      q := SomeFirstToken(t, r);
    } else {
      q := p;
    }
  }

  /** The parser reads nothing exactly when there is no token, or the first one has more digits than Python converts. */
  lemma {:induction false} ParseFailsIff(text: string)
    ensures ParseMoney(text).None? <==>
      (forall p :: !TokenAt(text, p)) || (exists p :: IsFirstToken(text, p) && |DigitsAt(text, p)| > 4300)
  {
    if p :| TokenAt(text, p) {
      var q := SomeFirstToken(text, p);
      ParseIs(text, q);
      assert forall r :: IsFirstToken(text, r) ==> r == q;
    } else {
      SpacedTokens(text, Substitute(text, '\U{A0}', ' '));
      SearchFails(Substitute(text, '\U{A0}', ' '));
    }
  }
}
