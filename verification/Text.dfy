/** Text as the service builds it: decimal numerals and colon-joined keys. */
module Text {

  const DIGITS := "0123456789"

  function Digit(n: nat): char
    requires n < 10
  {
    DIGITS[n]
  }

  function DigitValue(c: char): nat {
    if '0' <= c <= '9' then (c - '0') as nat else 0
  }

  /** The decimal numeral of a natural number, as `str` prints it. */
  function NatText(n: nat): (s: string)
    ensures |s| > 0
    ensures forall i :: 0 <= i < |s| ==> '0' <= s[i] <= '9'
  {
    if n < 10 then [Digit(n)] else NatText(n / 10) + [Digit(n % 10)]
  }

  function ReadNat(s: string): nat {
    if s == "" then 0 else 10 * ReadNat(s[..|s| - 1]) + DigitValue(s[|s| - 1])
  }

  lemma {:induction false} TwoMoreDigits(s: string, tens: char, ones: char)
    ensures ReadNat(s + [tens, ones]) == 100 * ReadNat(s) + 10 * DigitValue(tens) + DigitValue(ones)
  {
    var t := s + [tens, ones];
    assert t[..|t| - 1] == s + [tens] && (s + [tens])[..|s|] == s;
  }

  lemma {:induction false} ReadNatText(n: nat)
    ensures ReadNat(NatText(n)) == n
  {
    if n >= 10 {
      ReadNatText(n / 10);
      assert NatText(n)[..|NatText(n)| - 1] == NatText(n / 10);
    }
  }

  /** Decimal notation: the digits in order, and a digit behind a numeral is one more place. */
  lemma {:induction false} DecimalNotation(n: nat, d: nat)
    requires d < 10
    ensures NatText(d) == [("0123456789")[d]]
    ensures n > 0 ==> NatText(10 * n + d) == NatText(n) + NatText(d)
  {
    assert (10 * n + d) / 10 == n && (10 * n + d) % 10 == d;
  }

  function IntText(n: int): string {
    if n < 0 then "-" + NatText(-n) else NatText(n)
  }

  /** The capital and the small form of one letter. */
  predicate CasePair(capital: char, small: char) {
    'A' <= capital <= 'Z' && small as int == capital as int + 32
  }

  predicate SameButForCase(s: string, t: string) {
    |s| == |t| && forall i :: 0 <= i < |s| ==> s[i] == t[i] || CasePair(s[i], t[i]) || CasePair(t[i], s[i])
  }

  predicate ColonFree(s: string) {
    ':' !in s
  }

  function Join(left: string, right: string): string {
    left + ":" + right
  }

  lemma {:induction false} JoinHasColon(left: string, right: string)
    ensures !ColonFree(Join(left, right)) && Join(left, right) != ""
  {
    assert Join(left, right)[|left|] == ':';
  }

  lemma {:induction false} JoinFlat(a: string, b: string, c: string)
    ensures Join(a, Join(b, c)) == a + ":" + b + ":" + c
  {
  }

  lemma {:induction false} JoinAssociates(a: string, b: string, c: string)
    ensures Join(a, Join(b, c)) == Join(Join(a, b), c)
  {
  }

  /** The part in front of the first colon is determined by the joined text. */
  lemma {:induction false} JoinSplitsAtFirstColon(a: string, x: string, b: string, y: string)
    requires ColonFree(a) && ColonFree(b)
    requires Join(a, x) == Join(b, y)
    ensures a == b && x == y
  {
    var s := Join(a, x);
    assert s[|a|] == ':' && s[|b|] == ':';
    assert forall i :: 0 <= i < |a| ==> s[i] == a[i];
    assert forall i :: 0 <= i < |b| ==> s[i] == b[i];
    assert |a| == |b|;
    assert a == s[..|a|] && b == s[..|b|];
    assert x == s[|a| + 1..] && y == s[|b| + 1..];
  }

  /** The part behind the last colon is determined by the joined text. */
  lemma {:induction false} JoinSplitsAtLastColon(a: string, x: string, b: string, y: string)
    requires ColonFree(x) && ColonFree(y)
    requires Join(a, x) == Join(b, y)
    ensures a == b && x == y
  {
    var s := Join(a, x);
    assert s[|a|] == ':' && s[|b|] == ':';
    assert forall i :: 0 <= i < |x| ==> s[|a| + 1 + i] == x[i];
    assert forall i :: |a| < i < |s| ==> s[i] != ':';
    assert forall i :: 0 <= i < |y| ==> s[|b| + 1 + i] == y[i];
    assert forall i :: |b| < i < |s| ==> s[i] != ':';
    assert |a| == |b|;
    assert a == s[..|a|] && b == s[..|b|];
    assert x == s[|a| + 1..] && y == s[|b| + 1..];
  }
}
