/** Money tokens: the pattern, the parser and the printer of src/ocr_engine/extraction/money.py. */
module Money {
  import opened Prelude
  import opened PyText
  import opened Regex

  // ----- the pattern -----

  const STOPS := OneOf({'.', ','})
  const SEPARATOR := Atom(false, true, {'.', ','})
  const SPACES := Repeat(Char(SPACE), 0, None)
  const ONE_TO_THREE := Repeat(Char(DIGIT), 1, Some(3))
  const NEXT_GROUP := Then(Char(SEPARATOR), ONE_TO_THREE)
  const GROUPED := Then(ONE_TO_THREE, Repeat(NEXT_GROUP, 1, None))
  const PLAIN := Repeat(Char(DIGIT), 1, None)
  const TWO_DIGITS := Repeat(Char(DIGIT), 2, Some(2))
  const DECIMALS := Repeat(Then(Char(STOPS), TWO_DIGITS), 0, Some(1))
  const NUMBER := Then(Or(GROUPED, PLAIN), DECIMALS)
  const ABBREVIATED := Then(Repeat(Char(OneOf({'.'})), 0, Some(1)), SPACES)
  const RUPIAH := Then(Char(OneOf({'r', 'R'})), Then(Char(OneOf({'p', 'P'})), ABBREVIATED))
  const PREFIX := Repeat(RUPIAH, 0, Some(1))
  const SIGN := Capture(1, Repeat(Char(OneOf({'-', '+'})), 0, Some(1)))
  const AMOUNT := Then(Capture(2, NUMBER), NotAhead(DIGIT))
  const START := NotBehind(Atom(true, false, {'.', ','}))
  const MONEY := Then(START, Then(SPACES, Then(PREFIX, Then(SIGN, AMOUNT))))

  // ----- the parser -----

  /** Python refuses to convert between int and str beyond this many digits. */
  const MAX_STR_DIGITS: nat := 4300

  function Substitute(s: string, from: char, to: char): (r: string)
    ensures |r| == |s|
    ensures forall i :: 0 <= i < |s| ==> r[i] == if s[i] == from then to else s[i]
  {
    seq(|s|, i requires 0 <= i < |s| => if s[i] == from then to else s[i])
  }

  function DigitValue(c: char): nat
    requires IsDigit(c)
  {
    (c - '0') as nat
  }

  lemma DigitsAre(c: char)
    requires IsDigit(c)
    ensures "0123456789"[DigitValue(c)] == c && DigitChar(DigitValue(c)) == c
  {
  }

  predicate AllDigits(s: string) {
    forall i :: 0 <= i < |s| ==> IsDigit(s[i])
  }

  function DecimalValue(d: string): nat
    requires AllDigits(d)
  {
    if d == "" then 0 else 10 * DecimalValue(d[..|d| - 1]) + DigitValue(d[|d| - 1])
  }

  /** `int(text)` on a text of digits: None is a ValueError. */
  function ToInt(d: string): Option<nat> {
    if d == "" || !AllDigits(d) || |d| > MAX_STR_DIGITS then None else Some(DecimalValue(d))
  }

  /** The text without its separators. */
  function Clean(s: string): string {
    if s == "" then "" else (if SEPARATOR.Has(s[0]) then "" else [s[0]]) + Clean(s[1..])
  }

  function LastSeparator(digits: string): (r: Option<nat>)
    ensures r.Some? ==> r.value < |digits|
  {
    if digits == "" then None
    else if digits[|digits| - 1] in {'.', ',', ' '} then Some(|digits| - 1)
    else LastSeparator(digits[..|digits| - 1])
  }

  /** The amount in its smallest unit, or None when the text holds no money token. */
  function ParseMoney(text: string): Option<int> {
    var t := Substitute(text, '\U{A0}', ' ');
    match Search(MONEY, t, 0)
    case None => None
    case Some(m) =>
      var sign := Text(t, m, 1);
      var digits := Strip(Text(t, m, 2));
      var last := LastSeparator(digits);
      var cleaned :=
        if last.Some? && |digits| - last.value - 1 == 2 && digits[last.value] in {'.', ','}
        then Clean(digits)  // a decimal part: the digits already are the smallest unit
        else Clean(digits); // every separator is grouping
      match ToInt(cleaned)
      case None => None
      case Some(value) =>
        var v: int := value;
        Some(if sign == "-" then -v else v)
  }

  // ----- the printer -----

  function DigitChar(n: nat): char
    requires n < 10
  {
    '0' + n as char
  }

  function Decimal(n: nat): string {
    if n < 10 then [DigitChar(n)] else Decimal(n / 10) + [DigitChar(n % 10)]
  }

  function ThreeDigits(n: nat): string
    requires n < 1000
  {
    [DigitChar(n / 100), DigitChar(n / 10 % 10), DigitChar(n % 10)]
  }

  /** `f"{n:,}"`. */
  function Thousands(n: nat): string {
    if n < 1000 then Decimal(n) else Thousands(n / 1000) + "," + ThreeDigits(n % 1000)
  }

  function Abs(a: int): nat {
    if a < 0 then -a else a
  }

  /** None is the ValueError Python raises for a number with too many digits. */
  function FormatMoney(amount: int, currency: string): Option<string> {
    if |Decimal(Abs(amount))| > MAX_STR_DIGITS then None
    else
      var sign := if amount < 0 then "-" else "";
      Some(Substitute(sign + currency + " " + Thousands(Abs(amount)), ',', '.'))
  }
}
