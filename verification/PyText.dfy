/** The string operations the extraction code borrows from Python. */
module PyText {
  import opened Prelude

  /** What `str.isspace`, `str.strip` and the regular-expression class `\s` accept. */
  predicate IsSpace(c: char) {
    || '\U{09}' <= c <= '\U{0D}'
    || '\U{1C}' <= c <= '\U{20}'
    || c == '\U{85}' || c == '\U{A0}'
  }

  /** The ASCII digits. */
  predicate IsDigit(c: char) {
    '0' <= c <= '9'
  }

  /** The same, by code point: tab to carriage return, the four separators, space, next line, no-break space. */
  lemma SpacesAre(c: char)
    ensures IsSpace(c) <==> c as int in {9, 10, 11, 12, 13, 28, 29, 30, 31, 32, 133, 160}
    ensures IsDigit(c) <==> c in "0123456789"
  {
    assert "0123456789" == ['0', '1', '2', '3', '4', '5', '6', '7', '8', '9'];
  }

  /** The first position from `from` on whose character is not to be dropped. */
  function Past(s: string, from: nat, drop: char -> bool): (r: nat)
    requires from <= |s|
    ensures from <= r <= |s|
    decreases |s| - from
  {
    if from < |s| && drop(s[from]) then Past(s, from + 1, drop) else from
  }

  lemma {:induction false} PastIs(s: string, from: nat, drop: char -> bool)
    requires from <= |s|
    ensures forall i :: from <= i < Past(s, from, drop) ==> drop(s[i])
    ensures Past(s, from, drop) < |s| ==> !drop(s[Past(s, from, drop)])
    decreases |s| - from
  {
    if from < |s| && drop(s[from]) {
      PastIs(s, from + 1, drop);
    }
  }

  /** `text[n:].lstrip(drop)`. */
  function LStripFrom(s: string, n: nat, drop: char -> bool): string {
    if n <= |s| then s[Past(s, n, drop)..] else ""
  }

  /** `str.strip`. */
  function Strip(s: string): string {
    if s == "" then ""
    else if IsSpace(s[0]) then Strip(s[1..])
    else if IsSpace(s[|s| - 1]) then Strip(s[..|s| - 1])
    else s
  }

  /** A stripped text has no white space at either end. */
  lemma {:induction false} StripEnds(s: string)
    ensures Strip(s) != "" ==> !IsSpace(Strip(s)[0]) && !IsSpace(Strip(s)[|Strip(s)| - 1])
    decreases |s|
  {
    if s != "" && IsSpace(s[0]) {
      StripEnds(s[1..]);
    } else if s != "" && IsSpace(s[|s| - 1]) {
      StripEnds(s[..|s| - 1]);
    }
  }

  /** `s[a..b]` is what is left between white space at both ends; of white space alone nothing is left. */
  ghost predicate Trimmed(s: string, a: nat, b: nat) {
    && a <= b <= |s|
    && (forall i :: 0 <= i < a ==> IsSpace(s[i])) && (forall i :: b <= i < |s| ==> IsSpace(s[i]))
    && (a < b ==> !IsSpace(s[a]) && !IsSpace(s[b - 1]))
  }

  lemma {:induction false} StripTrims(s: string) returns (a: nat, b: nat)
    ensures Trimmed(s, a, b) && Strip(s) == s[a..b]
    decreases |s|
  {
    if s == "" {
      a, b := 0, 0;
    } else if IsSpace(s[0]) {
      var c, d := StripTrims(s[1..]);
      a, b := c + 1, d + 1;
      forall i | 0 <= i < a ensures IsSpace(s[i]) {
        assert i > 0 ==> s[1..][i - 1] == s[i];
      }
      forall i | b <= i < |s| ensures IsSpace(s[i]) {
        assert s[1..][i - 1] == s[i];
      }
    } else if IsSpace(s[|s| - 1]) {
      a, b := StripTrims(s[..|s| - 1]);
      forall i | b <= i < |s| ensures IsSpace(s[i]) {
        assert i < |s| - 1 ==> s[..|s| - 1][i] == s[i];
      }
      assert s[..|s| - 1][0] == s[0];
    } else {
      a, b := 0, |s|;
    }
  }

  lemma {:induction false} TrimmedOnce(s: string, a: nat, b: nat, c: nat, d: nat)
    requires Trimmed(s, a, b) && Trimmed(s, c, d) && a < b
    ensures a == c && b == d
  {
    assert !(c > a);
    assert !(d <= a);
    assert c < d;
    assert !(a > c);
    assert !(d < b) && !(b < d);
  }

  /** `text[:n]` on a list: a negative bound counts from the end. */
  function SliceTo<T>(s: seq<T>, n: int): (r: seq<T>)
    ensures r <= s
  {
    if n >= |s| then s
    else if n >= 0 then s[..n]
    else if |s| + n >= 0 then s[..|s| + n]
    else []
  }

  /** `text.find(needle)`. */
  function Find(s: string, needle: string): Option<nat> {
    if needle <= s then Some(0)
    else if s == "" then None
    else
      match Find(s[1..], needle)
      case None => None
      case Some(k) => Some(k + 1)
  }

  predicate Occurs(s: string, needle: string, k: nat) {
    k + |needle| <= |s| && s[k..k + |needle|] == needle
  }

  /** Where `needle` occurs first. */
  predicate FirstAt(s: string, needle: string, k: nat) {
    Occurs(s, needle, k) && forall i: nat :: i < k ==> !Occurs(s, needle, i)
  }

  lemma {:induction false} OccursLater(s: string, needle: string, k: nat)
    requires s != ""
    ensures Occurs(s, needle, k + 1) <==> Occurs(s[1..], needle, k)
  {
    if k + 1 + |needle| <= |s| {
      assert s[1..][k..k + |needle|] == s[k + 1..k + 1 + |needle|];
    }
  }

  lemma {:induction false} OccursAtStart(s: string, needle: string)
    ensures Occurs(s, needle, 0) <==> needle <= s
  {
  }

  /** A needle is found where it occurs first, if it does. */
  lemma {:induction false} FindIs(s: string, needle: string)
    ensures match Find(s, needle)
      case Some(k) => FirstAt(s, needle, k)
      case None => forall k: nat :: !Occurs(s, needle, k)
  {
    OccursAtStart(s, needle);
    if !(needle <= s) && s != "" {
      FindIs(s[1..], needle);
      forall k: nat ensures Occurs(s, needle, k) <==> k > 0 && Occurs(s[1..], needle, k - 1) {
        if k > 0 { OccursLater(s, needle, k - 1); }
      }
    }
  }
}
