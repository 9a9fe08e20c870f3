/** Decimal numerals and delimited text, as `format!`, `str::parse` and `str::split` treat them. */
module Text {
  import opened Wrappers

  const DIGITS := "0123456789"

  predicate IsDigit(c: char) {
    '0' <= c <= '9'
  }

  function DigitValue(c: char): nat
    requires IsDigit(c)
  {
    (c - '0') as int
  }

  predicate IsNumeral(s: string) {
    s != "" && forall i :: 0 <= i < |s| ==> IsDigit(s[i])
  }

  /** The decimal numeral of `n`, without leading zeros. */
  function Numeral(n: nat): (s: string)
    ensures IsNumeral(s)
  {
    if n < 10 then [DIGITS[n]] else Numeral(n / 10) + [DIGITS[n % 10]]
  }

  /** The value of a string of digits. */
  function ValueOf(s: string): nat
    requires forall i :: 0 <= i < |s| ==> IsDigit(s[i])
  {
    if s == "" then 0 else 10 * ValueOf(s[..|s| - 1]) + DigitValue(s[|s| - 1])
  }

  lemma DigitsValue(d: nat)
    requires d < 10
    ensures DigitValue(DIGITS[d]) == d
  {
  }

  lemma ValueOfLast(s: string, d: char)
    requires forall i :: 0 <= i < |s| ==> IsDigit(s[i])
    requires IsDigit(d)
    ensures ValueOf(s + [d]) == 10 * ValueOf(s) + DigitValue(d)
  {
    assert (s + [d])[..|s|] == s;
  }

  lemma {:induction false} NumeralValue(n: nat)
    ensures ValueOf(Numeral(n)) == n
  {
    if n < 10 {
      DigitsValue(n);
      ValueOfLast("", DIGITS[n]);
      assert "" + [DIGITS[n]] == [DIGITS[n]];
    } else {
      NumeralValue(n / 10);
      DigitsValue(n % 10);
      ValueOfLast(Numeral(n / 10), DIGITS[n % 10]);
    }
  }

  /** A numeral parsed back, when it does not exceed `max`; a leading `+` is accepted. */
  function ParseNat(s: string, max: nat): Option<nat> {
    var digits := if s != "" && s[0] == '+' then s[1..] else s;
    if IsNumeral(digits) && ValueOf(digits) <= max then Some(ValueOf(digits)) else None
  }

  lemma ParseNumeral(n: nat, max: nat)
    requires n <= max
    ensures ParseNat(Numeral(n), max) == Some(n)
  {
    NumeralValue(n);
    assert IsDigit(Numeral(n)[0]);
  }

  /** The first place `c` occurs in `s`. */
  function IndexOf(s: string, c: char): (r: Option<nat>)
    ensures r.None? <==> c !in s
    ensures r.Some? ==> r.value < |s| && s[r.value] == c && c !in s[..r.value]
  {
    if s == "" then None
    else if s[0] == c then Some(0)
    else
      match IndexOf(s[1..], c)
      case None => None
      case Some(i) => Some(i + 1)
  }

  /** The pieces of `s` between occurrences of `c`; a string without `c` is one piece. */
  function Split(s: string, c: char): (r: seq<string>)
    ensures r != []
    decreases |s|
  {
    match IndexOf(s, c)
    case None => [s]
    case Some(i) => [s[..i]] + Split(s[i + 1..], c)
  }

  /** The pieces with `c` between them. */
  function Join(parts: seq<string>, c: char): string
    requires parts != []
  {
    if |parts| == 1 then parts[0] else parts[0] + [c] + Join(parts[1..], c)
  }

  lemma {:induction false} IndexOfAfter(a: string, b: string, c: char)
    requires c !in a
    ensures IndexOf(a + [c] + b, c) == Some(|a|)
  {
    if a == "" {
      assert (a + [c] + b)[0] == c;
    } else {
      assert a[0] in a;
      IndexOfAfter(a[1..], b, c);
      assert (a + [c] + b)[1..] == a[1..] + [c] + b;
    }
  }

  /** Splitting what was joined gives the pieces back, when none of them holds the delimiter. */
  lemma {:induction false} SplitJoin(parts: seq<string>, c: char)
    requires parts != [] && forall p :: p in parts ==> c !in p
    ensures Split(Join(parts, c), c) == parts
  {
    if |parts| == 1 {
    } else {
      var (a, b) := (parts[0], Join(parts[1..], c));
      IndexOfAfter(a, b, c);
      var s := a + [c] + b;
      assert s[..|a|] == a && s[|a| + 1..] == b;
      SplitJoin(parts[1..], c);
    }
  }

  /** Joining what was split gives the text back. */
  lemma {:induction false} JoinSplit(s: string, c: char)
    ensures Join(Split(s, c), c) == s
    ensures forall p :: p in Split(s, c) ==> c !in p
    decreases |s|
  {
    match IndexOf(s, c)
    case None =>
    case Some(i) =>
      JoinSplit(s[i + 1..], c);
      var rest := Split(s[i + 1..], c);
      assert ([s[..i]] + rest)[1..] == rest;
      assert s == s[..i] + [c] + s[i + 1..];
  }
}
