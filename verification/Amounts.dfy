/** What amounts can be written as, and what the parser makes of them. */
module Amounts {
  import opened Prelude
  import opened PyText
  import opened Regex
  import opened Money
  import opened Tokens

  // ----- how a number may be written -----

  /** A number as it appears in a text: one run of digits, groups of one to three joined by separators, or a longer
    * run with cents after a stop. */
  datatype Numeral =
    | Run(digits: string)
    | Grouped(head: string, separator: char, rest: Numeral)
    | Pointed(whole: string, stop: char, cents: string)
  {
    function Text(): string {
      match this
      case Run(d) => d
      case Grouped(h, c, rest) => h + [c] + rest.Text()
      case Pointed(d, c, cents) => d + [c] + cents
    }

    function Digits(): string {
      match this
      case Run(d) => d
      case Grouped(h, _, rest) => h + rest.Digits()
      case Pointed(d, _, cents) => d + cents
    }

    predicate InGroups() {
      match this
      case Run(d) => 1 <= |d| <= 3 && AllDigits(d)
      case Grouped(h, c, rest) => 1 <= |h| <= 3 && AllDigits(h) && IsSeparator(c) && rest.InGroups()
      case Pointed(_, _, _) => false
    }

    predicate Valid() {
      || InGroups()
      || (Run? && |digits| > 3 && AllDigits(digits))
      || (Pointed? && |whole| > 3 && AllDigits(whole) && IsStop(stop) && |cents| == 2 && AllDigits(cents))
    }
  }

  lemma {:induction false} NumeralShape(n: Numeral)
    requires n.Valid()
    ensures n.Digits() != "" && AllDigits(n.Digits()) && n.Text() != "" && IsDigit(n.Text()[0])
  {
    if n.Grouped? {
      NumeralShape(n.rest);
    }
  }

  /** The digits of a numeral's text are those of its parts. */
  lemma {:induction false} DigitsOfNumeral(n: Numeral)
    requires n.Valid()
    ensures DigitsOf(n.Text()) == n.Digits()
  {
    match n
    case Run(d) => DigitsOfDigits(d);
    case Grouped(h, c, rest) =>
      DigitsOfNumeral(rest);
      DigitsOfDigits(h);
      DigitsAround(h, c, rest.Text());
    case Pointed(d, c, cents) =>
      DigitsOfDigits(d);
      DigitsOfDigits(cents);
      SeparatorNotDigit(c);
      DigitsAround(d, c, cents);
  }

  lemma {:induction false} DigitsAround(a: string, c: char, b: string)
    requires IsSeparator(c)
    ensures DigitsOf(a + [c] + b) == DigitsOf(a) + DigitsOf(b)
  {
    DigitsConcat(a + [c], b);
    DigitsConcat(a, [c]);
    assert DigitsOf([c]) == "";
  }

  lemma {:induction false} DigitsConcat(a: string, b: string)
    ensures DigitsOf(a + b) == DigitsOf(a) + DigitsOf(b)
  {
    if a == "" {
      assert a + b == b;
    } else {
      assert (a + b)[1..] == a[1..] + b;
      DigitsConcat(a[1..], b);
    }
  }

  lemma {:induction false} DigitsOfDigits(d: string)
    requires AllDigits(d)
    ensures DigitsOf(d) == d
  {
    if d != "" {
      SeparatorNotDigit(d[0]);
      DigitsOfDigits(d[1..]);
      assert d == [d[0]] + d[1..];
    }
  }

  // ----- where a written number ends -----

  /** `w` occurs in `s` at `p`. */
  predicate At(s: string, p: nat, w: string) {
    p + |w| <= |s| && s[p..p + |w|] == w
  }

  lemma {:induction false} AtConcat(s: string, p: nat, u: string, v: string)
    requires At(s, p, u + v)
    ensures At(s, p, u) && At(s, p + |u|, v)
  {
    var w := s[p..p + |u| + |v|];
    assert s[p..p + |u|] == w[..|u|];
    assert s[p + |u|..p + |u| + |v|] == w[|u|..];
  }

  lemma {:induction false} AtDigits(s: string, p: nat, d: string)
    requires At(s, p, d) && AllDigits(d)
    ensures forall i :: p <= i < p + |d| ==> IsDigit(s[i])
  {
    assert forall i :: p <= i < p + |d| ==> s[i] == d[i - p];
  }

  ghost function Head(n: Numeral): string {
    match n
    case Run(d) => d
    case Grouped(h, _, _) => h
    case Pointed(d, _, _) => d
  }

  /** No further group follows: no digit, and no separator with one to three digits. */
  predicate ClosesGroups(post: string) {
    post != "" ==> !IsDigit(post[0]) && !(IsSeparator(post[0]) && 1 <= RunEnd(post, 1) - 1 <= 3)
  }

  /** No cents follow: no digit, and no stop with two digits. */
  predicate ClosesRun(post: string) {
    post != "" ==> !IsDigit(post[0]) && !(IsStop(post[0]) && RunEnd(post, 1) == 3)
  }

  /** Nothing in `post` prolongs `n`. */
  predicate Closes(n: Numeral, post: string) {
    if n.Pointed? then post != "" ==> !IsDigit(post[0])
    else if n.InGroups() then ClosesGroups(post)
    else ClosesRun(post)
  }

  lemma {:induction false} SuffixRuns(s: string, e: nat, k: nat)
    requires e <= |s| && k <= |s[e..]|
    ensures RunEnd(s, e + k) == e + RunEnd(s[e..], k)
  {
    RunEndIs(s, e + k, e + RunEnd(s[e..], k));
  }

  lemma {:induction false} DigitsEnd(s: string, p: nat, d: string)
    requires At(s, p, d) && AllDigits(d) && (p + |d| < |s| ==> !IsDigit(s[p + |d|]))
    ensures RunEnd(s, p) == p + |d|
  {
    AtDigits(s, p, d);
    RunEndIs(s, p, p + |d|);
  }

  lemma {:induction false} ClosedGroups(s: string, e: nat)
    requires e <= |s| && ClosesGroups(s[e..])
    ensures GroupsEnd(s, e) == e
  {
    if e < |s| {
      SuffixRuns(s, e, 1);
    }
  }

  /** The groups of `n` are the runs of digits in `s` from `p` to `e`, each but the last before a separator. */
  ghost predicate Written(n: Numeral, s: string, p: nat, e: nat) {
    && p + |Head(n)| <= e <= |s| && 1 <= |Head(n)| <= 3 && RunEnd(s, p) == p + |Head(n)|
    && match n
       case Run(d) => e == p + |d|
       case Grouped(h, _, rest) => p + |h| < e && IsSeparator(s[p + |h|]) && Written(rest, s, p + |h| + 1, e)
       case Pointed(_, _, _) => false
  }

  /** Digits before a separator are a run. */
  lemma {:induction false} RunAt(d: string, c: char, rest: string, s: string, p: nat)
    requires AllDigits(d) && IsSeparator(c) && At(s, p, d + [c] + rest)
    ensures RunEnd(s, p) == p + |d| && p + |d| < |s| && s[p + |d|] == c && At(s, p + |d| + 1, rest)
  {
    AtConcat(s, p, d + [c], rest);
    AtConcat(s, p, d, [c]);
    assert s[p + |d|] == s[p + |d|..p + |d| + 1][0];
    SeparatorNotDigit(c);
    DigitsEnd(s, p, d);
  }

  lemma {:induction false} TextIsWritten(n: Numeral, s: string, p: nat, e: nat)
    requires n.InGroups() && At(s, p, n.Text()) && e == p + |n.Text()| && (e < |s| ==> !IsDigit(s[e]))
    ensures Written(n, s, p, e)
  {
    match n
    case Run(d) => DigitsEnd(s, p, d);
    case Grouped(h, c, rest) =>
      RunAt(h, c, rest.Text(), s, p);
      TextIsWritten(rest, s, p + |h| + 1, e);
  }

  /** Groups written one after the other are read to their end. */
  lemma {:induction false} GroupsEndAt(n: Numeral, s: string, p: nat, e: nat)
    requires Written(n, s, p, e) && GroupsEnd(s, e) == e
    ensures GroupsEnd(s, p + |Head(n)|) == e
  {
    if n.Grouped? {
      var q := p + |n.head|;
      GroupsEndAt(n.rest, s, q + 1, e);
      OneGroupMore(s, q, q + 1 + |Head(n.rest)|, e);
    }
  }

  lemma {:induction false} OneGroupMore(s: string, p: nat, next: nat, e: nat)
    requires p < |s| && IsSeparator(s[p]) && RunEnd(s, p + 1) == next && 1 <= next - (p + 1) <= 3 && GroupsEnd(s, next) == e
    ensures GroupsEnd(s, p) == e
  {
  }

  /** A numeral is read to its end, whatever follows that does not prolong it. */
  lemma {:induction false} NumeralEndsAt(n: Numeral, s: string, p: nat)
    requires n.Valid() && At(s, p, n.Text()) && Closes(n, s[p + |n.Text()|..])
    ensures NumberEnd(s, p) == p + |n.Text()|
  {
    if n.InGroups() {
      GroupedEndsAt(n, s, p);
    } else if n.Run? {
      LongRunEndsAt(n.digits, s, p);
    } else {
      PointedEndsAt(n.whole, n.stop, n.cents, s, p);
    }
  }

  lemma {:induction false} GroupedEndsAt(n: Numeral, s: string, p: nat)
    requires n.InGroups() && At(s, p, n.Text()) && ClosesGroups(s[p + |n.Text()|..])
    ensures NumberEnd(s, p) == p + |n.Text()|
  {
    var e := p + |n.Text()|;
    ClosedGroups(s, e);
    TextIsWritten(n, s, p, e);
    GroupsEndAt(n, s, p, e);
  }

  lemma {:induction false} LongRunEndsAt(d: string, s: string, p: nat)
    requires |d| > 3 && AllDigits(d) && At(s, p, d) && ClosesRun(s[p + |d|..])
    ensures NumberEnd(s, p) == p + |d|
  {
    DigitsEnd(s, p, d);
    if p + |d| < |s| {
      SuffixRuns(s, p + |d|, 1);
    }
  }

  lemma {:induction false} PointedEndsAt(d: string, c: char, cents: string, s: string, p: nat)
    requires |d| > 3 && AllDigits(d) && IsStop(c) && |cents| == 2 && AllDigits(cents)
    requires At(s, p, d + [c] + cents) && (p + |d| + 3 < |s| ==> !IsDigit(s[p + |d| + 3]))
    ensures NumberEnd(s, p) == p + |d| + 3
  {
    SeparatorNotDigit(c);
    RunAt(d, c, cents, s, p);
    DigitsEnd(s, p + |d| + 1, cents);
  }

  // ----- the parser on a number in context -----

  predicate NoDigits(s: string) {
    forall i :: 0 <= i < |s| ==> !IsDigit(s[i])
  }

  /** The parser reads a number the same way in every context: behind text without digits that does not end in a stop,
    * unless in "rp.", and before text that does not prolong the number, it reads exactly the number's digits, negated
    * by a minus sign that counts. */
  lemma {:induction false} ParseInContext(pre: string, n: Numeral, post: string)
    requires NoDigits(pre) && Lead(pre, |pre|) && n.Valid() && Closes(n, post)
    ensures AllDigits(n.Digits())
    ensures var v: int := DecimalValue(n.Digits());
      ParseMoney(pre + n.Text() + post) == if |n.Digits()| > 4300 then None else Some(if Minus(pre, |pre|) then -v else v)
  {
    NumeralShape(n);
    NumeralInContext(pre, n, post);
    ParseNumeral(pre + n.Text() + post, |pre|, n);
  }

  lemma {:induction false} ParseNumeral(text: string, p: nat, n: Numeral)
    requires n.Valid() && AllDigits(n.Digits()) && IsFirstToken(text, p) && text[p..NumberEnd(text, p)] == n.Text()
    ensures var v: int := DecimalValue(n.Digits());
      ParseMoney(text) == if |n.Digits()| > 4300 then None else Some(if Minus(text, p) then -v else v)
  {
    DigitsOfNumeral(n);
    ParseIs(text, p);
  }

  lemma {:induction false} NumeralInContext(pre: string, n: Numeral, post: string)
    requires NoDigits(pre) && Lead(pre, |pre|) && n.Valid() && Closes(n, post)
    ensures var text := pre + n.Text() + post;
      && IsFirstToken(text, |pre|) && text[|pre|..NumberEnd(text, |pre|)] == n.Text()
      && (Minus(text, |pre|) <==> Minus(pre, |pre|))
  {
    var text, p := pre + n.Text() + post, |pre|;
    assert text[p..p + |n.Text()|] == n.Text() && text[p + |n.Text()|..] == post;
    NumeralEndsAt(n, text, p);
    NumeralShape(n);
    TokenBehind(pre, n.Text(), post);
  }

  lemma {:induction false} TokenBehind(pre: string, w: string, post: string)
    requires NoDigits(pre) && Lead(pre, |pre|) && w != "" && IsDigit(w[0])
    ensures var text := pre + w + post; IsFirstToken(text, |pre|) && (Minus(text, |pre|) <==> Minus(pre, |pre|))
  {
    var text := pre + w + post;
    assert text[|pre|] == w[0];
    assert forall i :: 0 <= i < |pre| ==> text[i] == pre[i];
  }

  /** However the groups are separated, a text that is one number denotes its digits, and a leading minus negates it. */
  lemma {:induction false} SeparatorInvariance(sign: string, n: Numeral)
    requires sign in {"", "+", "-"} && n.Valid() && |n.Digits()| <= 4300
    ensures AllDigits(n.Digits())
    ensures var v: int := DecimalValue(n.Digits()); ParseMoney(sign + n.Text()) == Some(if sign == "-" then -v else v)
  {
    assert sign + n.Text() == sign + n.Text() + "";
    ParseInContext(sign, n, "");
  }

  /** Behind "Rp." too, directly or after white space; the abbreviation's dot is no decimal point. */
  lemma {:induction false} RupiahPrefix(pre: string, rp: string, n: Numeral, post: string)
    requires NoDigits(pre) && Unblocked(pre, |pre|) && |n.Digits()| <= 4300
    requires rp in {"rp.", "Rp.", "rP.", "RP.", "Rp. ", "Rp ", "Rp"} && n.Valid() && Closes(n, post)
    ensures AllDigits(n.Digits())
    ensures ParseMoney(pre + rp + n.Text() + post) == Some(DecimalValue(n.Digits()))
  {
    RupiahLeads(pre, rp);
    ParseInContext(pre + rp, n, post);
  }

  lemma {:induction false} RupiahLeads(pre: string, rp: string)
    requires NoDigits(pre) && Unblocked(pre, |pre|)
    requires rp in {"rp.", "Rp.", "rP.", "RP.", "Rp. ", "Rp ", "Rp"}
    ensures NoDigits(pre + rp) && Lead(pre + rp, |pre + rp|) && !Minus(pre + rp, |pre + rp|)
  {
    var all := pre + rp;
    assert forall i :: 0 <= i < |rp| ==> all[|pre| + i] == rp[i];
    assert forall i :: 0 <= i < |pre| ==> all[i] == pre[i];
  }

  /** Groups of three, joined by dots. */
  predicate Threes(n: Numeral) {
    match n
    case Run(d) => |d| == 3
    case Grouped(h, c, rest) => |h| == 3 && c == '.' && Threes(rest)
    case Pointed(_, _, _) => false
  }

  /** How an amount is printed: a group of up to three digits, then groups of three, joined by dots. */
  predicate InThrees(n: Numeral) {
    match n
    case Run(d) => 1 <= |d| <= 3
    case Grouped(h, c, rest) => 1 <= |h| <= 3 && c == '.' && Threes(rest)
    case Pointed(_, _, _) => false
  }

  ghost function Appended(n: Numeral, c: char, g: string): (r: Numeral)
    requires n.InGroups() && IsSeparator(c) && 1 <= |g| <= 3 && AllDigits(g)
    ensures r.InGroups() && r.Text() == n.Text() + [c] + g && r.Digits() == n.Digits() + g
  {
    match n
    case Run(d) => Grouped(d, c, Run(g))
    case Grouped(h, s, rest) =>
      var rest' := Appended(rest, c, g);
      assert h + [s] + (rest.Text() + [c] + g) == h + [s] + rest.Text() + [c] + g;
      assert h + (rest.Digits() + g) == h + rest.Digits() + g;
      Grouped(h, s, rest')
  }

  /** A final group of two digits counts hundredths: always after groups, and after a longer run if a stop separates it. */
  lemma {:induction false} DecimalPart(sign: string, n: Numeral, c: char, cents: string)
    requires sign in {"", "+", "-"} && (n.InGroups() || n.Run?) && n.Valid() && IsSeparator(c)
    requires |cents| == 2 && AllDigits(cents) && |n.Digits()| + 2 <= 4300
    ensures AllDigits(n.Digits())
    ensures var v: int :=
        if n.InGroups() || IsStop(c) then 100 * DecimalValue(n.Digits()) + DecimalValue(cents) else DecimalValue(n.Digits());
      ParseMoney(sign + n.Text() + [c] + cents) == Some(if sign == "-" then -v else v)
  {
    NumeralShape(n);
    if n.InGroups() || IsStop(c) {
      WithGroup(sign, n, c, cents);
    } else {
      SpaceIsNoStop(sign, n, c, cents);
    }
  }

  lemma {:induction false} WithGroup(sign: string, n: Numeral, c: char, cents: string)
    requires sign in {"", "+", "-"} && n.Valid() && AllDigits(n.Digits())
    requires (n.InGroups() && IsSeparator(c)) || (n.Run? && IsStop(c))
    requires |cents| == 2 && AllDigits(cents) && |n.Digits()| + 2 <= 4300
    ensures var v: int := 100 * DecimalValue(n.Digits()) + DecimalValue(cents);
      ParseMoney(sign + n.Text() + [c] + cents) == Some(if sign == "-" then -v else v)
  {
    var all := if n.InGroups() then Appended(n, c, cents) else Pointed(n.digits, c, cents);
    Regroup(sign, n.Text(), [c], cents);
    WithCents(sign, all, sign + n.Text() + [c] + cents, n.Digits(), cents);
  }

  lemma {:induction false} Regroup(a: string, b: string, c: string, d: string)
    ensures a + (b + c + d) == a + b + c + d
  {
  }

  lemma {:induction false} WithCents(sign: string, all: Numeral, text: string, d: string, cents: string)
    requires sign in {"", "+", "-"} && all.Valid() && text == sign + all.Text() && all.Digits() == d + cents
    requires AllDigits(d) && |cents| == 2 && AllDigits(cents) && |d| + 2 <= 4300
    ensures var v: int := 100 * DecimalValue(d) + DecimalValue(cents);
      ParseMoney(text) == Some(if sign == "-" then -v else v)
  {
    TwoMoreDigits(d, cents);
    SeparatorInvariance(sign, all);
  }

  lemma {:induction false} SpaceIsNoStop(sign: string, n: Numeral, c: char, more: string)
    requires sign in {"", "+", "-"} && n.Run? && n.Valid() && !n.InGroups() && IsSeparator(c) && !IsStop(c)
    requires |n.Digits()| <= 4300
    ensures AllDigits(n.Digits())
    ensures var v: int := DecimalValue(n.Digits()); ParseMoney(sign + n.Text() + [c] + more) == Some(if sign == "-" then -v else v)
  {
    SeparatorNotDigit(c);
    assert sign + n.Text() + [c] + more == sign + n.Text() + ([c] + more);
    ParseInContext(sign, n, [c] + more);
  }

  lemma {:induction false} TwoMoreDigits(d: string, cents: string)
    requires AllDigits(d) && |cents| == 2 && AllDigits(cents)
    ensures AllDigits(d + cents) && DecimalValue(d + cents) == 100 * DecimalValue(d) + DecimalValue(cents)
  {
    assert (d + cents)[..|d| + 1] == d + [cents[0]] && (d + [cents[0]])[..|d|] == d;
    assert DecimalValue(d + [cents[0]]) == 10 * DecimalValue(d) + DigitValue(cents[0]);
    assert cents[..1] == [cents[0]] && cents[..1][..0] == "";
    assert DecimalValue([cents[0]]) == DigitValue(cents[0]);
  }

  // ----- printing, then parsing -----

  lemma {:induction false} DecimalIsDecimal(n: nat)
    ensures AllDigits(Decimal(n)) && Decimal(n) != "" && DecimalValue(Decimal(n)) == n
    decreases n
  {
    if n < 10 {
      assert Decimal(n)[..0] == "";
    } else {
      DecimalIsDecimal(n / 10);
      assert Decimal(n)[..|Decimal(n)| - 1] == Decimal(n / 10);
    }
  }

  lemma {:induction false} LastThreeDigits(n: nat)
    ensures n / 10 / 10 == n / 100 && n / 100 / 10 == n / 1000
    ensures n % 1000 / 100 == n / 100 % 10 && n % 1000 / 10 % 10 == n / 10 % 10 && n % 1000 % 10 == n % 10
  {
  }

  lemma {:induction false} DecimalInThousands(n: nat)
    requires n >= 1000
    ensures Decimal(n) == Decimal(n / 1000) + ThreeDigits(n % 1000)
  {
    LastThreeDigits(n);
    assert Decimal(n) == Decimal(n / 10) + [DigitChar(n % 10)];
    assert Decimal(n / 10) == Decimal(n / 100) + [DigitChar(n / 10 % 10)];
    assert Decimal(n / 100) == Decimal(n / 1000) + [DigitChar(n / 100 % 10)];
  }

  lemma {:induction false} ShortDecimal(n: nat)
    requires n < 1000
    ensures 1 <= |Decimal(n)| <= 3
  {
    assert n >= 10 ==> Decimal(n) == Decimal(n / 10) + [DigitChar(n % 10)];
    assert n >= 100 ==> Decimal(n / 10) == Decimal(n / 10 / 10) + [DigitChar(n / 10 % 10)];
  }

  lemma {:induction false} PrintedMore(n: nat)
    requires n >= 1000
    ensures var g := ThreeDigits(n % 1000);
      && AllDigits(g) && Decimal(n) == Decimal(n / 1000) + g
      && Substitute(Thousands(n), ',', '.') == Substitute(Thousands(n / 1000), ',', '.') + ['.'] + g
  {
    var g := ThreeDigits(n % 1000);
    DecimalInThousands(n);
    SubstituteConcat(Thousands(n / 1000) + ",", g, ',', '.');
    SubstituteConcat(Thousands(n / 1000), ",", ',', '.');
    assert Substitute(g, ',', '.') == g;
    assert Substitute(",", ',', '.') == ['.'];
  }

  lemma {:induction false} PrintedShort(n: nat)
    requires n < 1000
    ensures 1 <= |Decimal(n)| <= 3 && AllDigits(Decimal(n)) && Substitute(Thousands(n), ',', '.') == Decimal(n)
  {
    DecimalIsDecimal(n);
    ShortDecimal(n);
  }

  /** The printed number, as a numeral: grouped by dots, with the digits of `n`. */
  ghost function Printed(n: nat): (r: Numeral)
    ensures r.InGroups() && r.Text() == Substitute(Thousands(n), ',', '.') && r.Digits() == Decimal(n)
  {
    if n < 1000 then
      PrintedShort(n);
      Run(Decimal(n))
    else
      PrintedMore(n);
      Appended(Printed(n / 1000), '.', ThreeDigits(n % 1000))
  }

  lemma {:induction false} AppendedInThrees(n: Numeral, g: string)
    requires n.InGroups() && |g| == 3 && AllDigits(g)
    ensures Threes(n) ==> Threes(Appended(n, '.', g))
    ensures InThrees(n) ==> InThrees(Appended(n, '.', g))
  {
    if n.Grouped? {
      AppendedInThrees(n.rest, g);
    }
  }

  lemma {:induction false} PrintedInThrees(n: nat)
    ensures InThrees(Printed(n))
  {
    if n < 1000 {
      PrintedShort(n);
    } else {
      PrintedInThrees(n / 1000);
      PrintedMore(n);
      AppendedInThrees(Printed(n / 1000), ThreeDigits(n % 1000));
    }
  }

  lemma {:induction false} SubstituteConcat(a: string, b: string, from: char, to: char)
    ensures Substitute(a + b, from, to) == Substitute(a, from, to) + Substitute(b, from, to)
  {
  }

  /** What stands before the magnitude: a minus sign exactly before a negative amount, the currency with its commas turned
    * into dots, and a space. */
  predicate Heads(pre: string, a: int, currency: string) {
    var sign := if a < 0 then 1 else 0;
    && |pre| == sign + |currency| + 1
    && (a < 0 ==> pre[0] == '-')
    && (forall i :: 0 <= i < |currency| ==> pre[sign + i] == if currency[i] == ',' then '.' else currency[i])
    && pre[|pre| - 1] == ' '
  }

  lemma {:induction false} HeadIs(a: int, currency: string)
    ensures Heads(Substitute((if a < 0 then "-" else "") + currency + " ", ',', '.'), a, currency)
  {
  }

  lemma {:induction false} HeadLeads(pre: string, a: int, currency: string)
    requires Heads(pre, a, currency) && NoDigits(currency)
    ensures NoDigits(pre) && Lead(pre, |pre|) && !Minus(pre, |pre|)
  {
    var sign := if a < 0 then 1 else 0;
    forall i | 0 <= i < |pre| ensures !IsDigit(pre[i]) {
      assert sign <= i < |pre| - 1 ==> pre[sign + (i - sign)] == if currency[i - sign] == ',' then '.' else currency[i - sign];
    }
  }

  /** What is printed, for every amount and currency: the magnitude in threes behind the sign and the currency; nothing
    * beyond Python's limit on digits. */
  lemma {:induction false} FormatIs(a: int, currency: string) returns (pre: string)
    ensures Heads(pre, a, currency) && InThrees(Printed(Abs(a))) && Printed(Abs(a)).Digits() == Decimal(Abs(a))
    ensures FormatMoney(a, currency) == if |Decimal(Abs(a))| > 4300 then None else Some(pre + Printed(Abs(a)).Text())
  {
    var sign := if a < 0 then "-" else "";
    pre := Substitute(sign + currency + " ", ',', '.');
    HeadIs(a, currency);
    PrintedInThrees(Abs(a));
    SubstituteConcat(sign + currency + " ", Thousands(Abs(a)), ',', '.');
  }

  /** Printing an amount in any currency without digits and parsing the text gives back its magnitude;
    * the sign, printed before the currency, is not read back. */
  lemma {:induction false} RoundTrip(a: int, currency: string)
    requires NoDigits(currency) && FormatMoney(a, currency).Some?
    ensures ParseMoney(FormatMoney(a, currency).value) == Some(Abs(a))
    ensures ParseMoney(FormatMoney(a, currency).value) == Some(a) <==> a >= 0
  {
    var pre := FormatIs(a, currency);
    HeadLeads(pre, a, currency);
    DecimalIsDecimal(Abs(a));
    ParseInContext(pre, Printed(Abs(a)), "");
    assert pre + Printed(Abs(a)).Text() + "" == FormatMoney(a, currency).value;
  }
}
