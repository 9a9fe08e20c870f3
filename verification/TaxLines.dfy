/**
 * The tax lines of a breakdown: grouping by rate, and making the lines account for exactly the
 * tax owed. Models the loop of `finish` and `present_taxes` of `src/tariffs/engine.rs`.
 */
module TaxLines {
  import opened Wrappers
  import opened Decimals
  import opened Sums
  import opened Grouping
  import opened Policy
  import opened Breakdown

  // ---------------------------------------------------------------------------------------
  // Grouping by rate
  // ---------------------------------------------------------------------------------------

  /** A segment that gets no tax line: no tax, and no rate or a tariff that says no tax applies. */
  predicate Quiet(s: PricedSegment) {
    s.tax == 0.0 && (s.vat.None? || s.basis.NoTax?)
  }

  function Loud(segments: seq<PricedSegment>): seq<PricedSegment> {
    if segments == [] then []
    else
      var n := |segments| - 1;
      Loud(segments[..n]) + if Quiet(segments[n]) then [] else [segments[n]]
  }

  function Rate(s: PricedSegment): Option<real> { s.vat }

  /** The line of one rate. */
  function LineOf(loud: seq<PricedSegment>, rate: Option<real>): TaxLine {
    TaxLine(rate, KeySum(loud, Rate, Cost, rate), KeySum(loud, Rate, Tax, rate))
  }

  /** One line for each rate, in order of first appearance. */
  function LinesByRate(loud: seq<PricedSegment>): seq<TaxLine> {
    var rates := FirstSeen(loud, Rate);
    seq(|rates|, i requires 0 <= i < |rates| => LineOf(loud, rates[i]))
  }

  lemma LinesStep(loud: seq<PricedSegment>, s: PricedSegment, k: nat)
    requires k <= |LinesByRate(loud)|
    requires forall j :: 0 <= j < k ==> LinesByRate(loud)[j].percentage != s.vat
    requires k < |LinesByRate(loud)| ==> LinesByRate(loud)[k].percentage == s.vat
    ensures var lines := LinesByRate(loud);
            LinesByRate(loud + [s])
            == if k == |lines| then lines + [TaxLine(s.vat, s.cost, s.tax)]
               else lines[k := TaxLine(s.vat, lines[k].taxable + s.cost, lines[k].amount + s.tax)]
  {
    hide KeySum;
    var (rates, lines, after) := (FirstSeen(loud, Rate), LinesByRate(loud), LinesByRate(loud + [s]));
    assert (loud + [s])[..|loud|] == loud;
    assert forall j :: 0 <= j < |lines| ==> lines[j].percentage == rates[j];
    forall r: Option<real>
      ensures LineOf(loud + [s], r)
              == if r == s.vat then TaxLine(r, LineOf(loud, r).taxable + s.cost, LineOf(loud, r).amount + s.tax)
                 else LineOf(loud, r)
    {
      KeySumStep(loud, s, Rate, Cost, r);
      KeySumStep(loud, s, Rate, Tax, r);
    }
    SeenOnce(loud, Rate);
    if k == |lines| {
      assert s.vat !in rates;
      SeenExactly(loud, Rate, s.vat);
      EmptyGroup(loud, Rate, Cost, s.vat);
      EmptyGroup(loud, Rate, Tax, s.vat);
      assert after == lines + [TaxLine(s.vat, s.cost, s.tax)];
    } else {
      assert rates[k] == s.vat;
      assert after == lines[k := TaxLine(s.vat, lines[k].taxable + s.cost, lines[k].amount + s.tax)];
    }
  }

  lemma NoLines()
    ensures LinesByRate(Loud([])) == []
  {
  }

  lemma LoudStep(segments: seq<PricedSegment>, i: nat)
    requires i < |segments|
    ensures Loud(segments[..i + 1])
            == if Quiet(segments[i]) then Loud(segments[..i]) else Loud(segments[..i]) + [segments[i]]
  {
    assert segments[..i + 1][..i] == segments[..i];
  }

  /** Accumulates the tax of each segment on the line of its rate. */
  method GroupTaxes(segments: seq<PricedSegment>) returns (taxes: seq<TaxLine>)
    ensures taxes == LinesByRate(Loud(segments))
  {
    hide LinesByRate, Quiet;
    NoLines();
    taxes := [];
    for i := 0 to |segments|
      invariant taxes == LinesByRate(Loud(segments[..i]))
    {
      var s := segments[i];
      LoudStep(segments, i);
      if !Quiet(s) {
        var k := 0;
        while k < |taxes| && taxes[k].percentage != s.vat
          invariant 0 <= k <= |taxes|
          invariant forall j :: 0 <= j < k ==> taxes[j].percentage != s.vat
        {
          k := k + 1;
        }
        LinesStep(Loud(segments[..i]), s, k);
        if k < |taxes| {
          taxes := taxes[k := taxes[k].(taxable := taxes[k].taxable + s.cost, amount := taxes[k].amount + s.tax)];
        } else {
          taxes := taxes + [TaxLine(s.vat, s.cost, s.tax)];
        }
      }
    }
    assert segments[..|segments|] == segments;
  }

  /** Segments without a line owe no tax. */
  lemma {:induction false} LoudKeepsTax(segments: seq<PricedSegment>)
    ensures SumBy(Loud(segments), Tax) == SumBy(segments, Tax)
  {
    if segments == [] {
    } else {
      var n := |segments| - 1;
      LoudKeepsTax(segments[..n]);
      if Quiet(segments[n]) {
        assert Loud(segments) == Loud(segments[..n]);
      } else {
        SumAppend(Loud(segments[..n]), segments[n], Tax);
      }
    }
  }

  lemma {:induction false} LoudIsPart(segments: seq<PricedSegment>)
    ensures |Loud(segments)| <= |segments| && forall s :: s in Loud(segments) ==> s in segments
  {
    if segments == [] {
    } else {
      LoudIsPart(segments[..|segments| - 1]);
    }
  }

  /** A line with neither an amount nor a rate is not published. */
  predicate Published(t: TaxLine) {
    !(t.amount == 0.0 && t.percentage.None?)
  }

  function Retain(lines: seq<TaxLine>): seq<TaxLine> {
    if lines == [] then []
    else
      var n := |lines| - 1;
      Retain(lines[..n]) + if Published(lines[n]) then [lines[n]] else []
  }

  lemma {:induction false} RetainKeepsTax(lines: seq<TaxLine>)
    ensures SumBy(Retain(lines), Amount) == SumBy(lines, Amount)
  {
    if lines == [] {
    } else {
      var n := |lines| - 1;
      RetainKeepsTax(lines[..n]);
      if Published(lines[n]) {
        SumAppend(Retain(lines[..n]), lines[n], Amount);
      } else {
        assert Retain(lines) == Retain(lines[..n]);
      }
    }
  }

  lemma {:induction false} RetainIsPart(lines: seq<TaxLine>)
    ensures |Retain(lines)| <= |lines| && forall t :: t in Retain(lines) ==> t in lines
  {
    if lines == [] {
    } else {
      RetainIsPart(lines[..|lines| - 1]);
    }
  }

  /** The order of rates: no rate first, then ascending. */
  predicate RateBefore(a: Option<real>, b: Option<real>) {
    a.None? || (b.Some? && a.value <= b.value)
  }

  predicate SortedByRate(lines: seq<TaxLine>) {
    forall i, j :: 0 <= i < j < |lines| ==> RateBefore(lines[i].percentage, lines[j].percentage)
  }

  /** Inserts a line after those whose rate is not above its own. */
  function Insert(lines: seq<TaxLine>, t: TaxLine): seq<TaxLine> {
    if lines == [] then [t]
    else
      var n := |lines| - 1;
      if RateBefore(lines[n].percentage, t.percentage) then lines + [t] else Insert(lines[..n], t) + [lines[n]]
  }

  /** The lines in ascending order of rate. */
  function SortByRate(lines: seq<TaxLine>): seq<TaxLine> {
    if lines == [] then []
    else
      var n := |lines| - 1;
      Insert(SortByRate(lines[..n]), lines[n])
  }

  lemma {:induction false} InsertSorted(lines: seq<TaxLine>, t: TaxLine)
    requires SortedByRate(lines)
    ensures SortedByRate(Insert(lines, t))
    ensures forall x :: x in Insert(lines, t) <==> x in lines || x == t
  {
    if lines == [] {
    } else {
      var n := |lines| - 1;
      InsertSorted(lines[..n], t);
      assert forall x :: x in lines <==> x in lines[..n] || x == lines[n];
      if !RateBefore(lines[n].percentage, t.percentage) {
        var r := Insert(lines[..n], t);
        forall i | 0 <= i < |r|
          ensures RateBefore(r[i].percentage, lines[n].percentage)
        {
          assert r[i] in r;
        }
      } else {
        forall i | 0 <= i < |lines|
          ensures RateBefore(lines[i].percentage, t.percentage)
        {
        }
      }
    }
  }

  /** Sorting orders the lines by rate and keeps exactly those there were. */
  lemma {:induction false} SortIsSorted(lines: seq<TaxLine>)
    ensures SortedByRate(SortByRate(lines))
    ensures forall x :: x in SortByRate(lines) <==> x in lines
  {
    if lines == [] {
    } else {
      var n := |lines| - 1;
      SortIsSorted(lines[..n]);
      InsertSorted(SortByRate(lines[..n]), lines[n]);
      assert forall x :: x in lines <==> x in lines[..n] || x == lines[n];
    }
  }

  lemma {:induction false} InsertSum(lines: seq<TaxLine>, t: TaxLine, f: TaxLine -> real)
    ensures SumBy(Insert(lines, t), f) == SumBy(lines, f) + f(t)
  {
    if lines == [] {
      SumOne(t, f);
    } else {
      var n := |lines| - 1;
      if RateBefore(lines[n].percentage, t.percentage) {
        SumAppend(lines, t, f);
      } else {
        InsertSum(lines[..n], t, f);
        SumAppend(Insert(lines[..n], t), lines[n], f);
      }
    }
  }

  lemma {:induction false} SortSum(lines: seq<TaxLine>, f: TaxLine -> real)
    ensures SumBy(SortByRate(lines), f) == SumBy(lines, f)
  {
    if lines == [] {
    } else {
      var n := |lines| - 1;
      SortSum(lines[..n], f);
      InsertSum(SortByRate(lines[..n]), lines[n], f);
    }
  }

  /** The tax lines of a session before they are presented. */
  function RawLines(segments: seq<PricedSegment>): seq<TaxLine> {
    SortByRate(Retain(LinesByRate(Loud(segments))))
  }

  /** Grouping, dropping empty lines and sorting keep every cent of tax. */
  lemma RawLinesKeepTax(segments: seq<PricedSegment>)
    ensures SumBy(RawLines(segments), Amount) == SumBy(segments, Tax)
  {
    hide KeySum;
    var loud := Loud(segments);
    LoudKeepsTax(segments);
    GroupingConserves(loud, Rate, Tax, LinesByRate(loud), Amount);
    RetainKeepsTax(LinesByRate(loud));
    SortSum(Retain(LinesByRate(loud)), Amount);
  }

  // ---------------------------------------------------------------------------------------
  // Presentation
  // ---------------------------------------------------------------------------------------

  /** A line's exact share of the tax owed. */
  function Share(t: TaxLine, owed: real, current: real): real
    requires current != 0.0
  {
    t.amount * owed / current
  }

  /** The base of a line moved by the clamp. */
  function Moved(t: TaxLine, ratio: real): real {
    t.taxable * ratio
  }

  /** A line with its base moved by the clamp and the given amount. */
  function Present(policy: PricingPolicy, t: TaxLine, ratio: real, amount: real): TaxLine {
    TaxLine(t.percentage, policy.RoundCurrency(Moved(t, ratio)), amount)
  }

  /** The first `n` lines, each with its rounded share of the tax owed. */
  function RoundedShares(policy: PricingPolicy, lines: seq<TaxLine>, n: nat, owed: real, current: real, ratio: real):
    (r: seq<TaxLine>)
    requires n <= |lines| && current != 0.0
    ensures |r| == n
  {
    seq(n, i requires 0 <= i < n =>
      Present(policy, lines[i], ratio, policy.RoundCurrency(Share(lines[i], owed, current))))
  }

  /** Every line rounded to its share, except that the last one absorbs the residue. */
  function Apportioned(policy: PricingPolicy, lines: seq<TaxLine>, owed: real, ratio: real): seq<TaxLine>
    requires lines != [] && SumBy(lines, Amount) != 0.0
  {
    var n := |lines| - 1;
    var shares := RoundedShares(policy, lines, n, owed, SumBy(lines, Amount), ratio);
    shares + [Present(policy, lines[n], ratio, owed - SumBy(shares, Amount))]
  }

  function WithoutTax(policy: PricingPolicy, lines: seq<TaxLine>, ratio: real): seq<TaxLine> {
    seq(|lines|, i requires 0 <= i < |lines| => Present(policy, lines[i], ratio, 0.0))
  }

  /** The published lines: they account for exactly `owed`. */
  function Presented(policy: PricingPolicy, lines: seq<TaxLine>, owed: real, ratio: real, base: real): seq<TaxLine> {
    if SumBy(lines, Amount) != 0.0 && lines != [] then Apportioned(policy, lines, owed, ratio)
    else if owed == 0.0 then WithoutTax(policy, lines, ratio)
    else [TaxLine(None, base, owed)]
  }

  /** Tax is owed that no line accounts for. */
  predicate Unattributed(lines: seq<TaxLine>, owed: real) {
    (lines == [] || SumBy(lines, Amount) == 0.0) && owed != 0.0
  }

  /** Leaves each line its base and no tax. */
  method ClearTaxes(policy: PricingPolicy, lines: seq<TaxLine>, ratio: real) returns (taxes: seq<TaxLine>)
    ensures taxes == WithoutTax(policy, lines, ratio)
  {
    hide PricingPolicy.RoundCurrency;
    taxes := lines;
    for i := 0 to |taxes|
      invariant |taxes| == |lines|
      invariant taxes == WithoutTax(policy, lines, ratio)[..i] + lines[i..]
    {
      taxes := taxes[i := Present(policy, taxes[i], ratio, 0.0)];
    }
  }

  /** One line more is presented, and its amount is added to those before it. */
  lemma PresentStep(shares: seq<TaxLine>, lines: seq<TaxLine>, taxes: seq<TaxLine>, i: nat)
    requires i < |shares| < |lines| && taxes == shares[..i] + lines[i..]
    ensures taxes[i] == lines[i]
    ensures taxes[i := shares[i]] == shares[..i + 1] + lines[i + 1..]
    ensures SumBy(shares[..i + 1], Amount) == SumBy(shares[..i], Amount) + shares[i].amount
  {
    SumPrefix(shares, Amount, i);
  }

  /** Rounds the lines and makes them sum to exactly `owed`, line by line. */
  method PresentTaxes(policy: PricingPolicy, lines: seq<TaxLine>, owed: real, ratio: real, base: real,
      notes0: seq<Note>)
    returns (taxes: seq<TaxLine>, notes: seq<Note>)
    ensures taxes == Presented(policy, lines, owed, ratio, base)
    ensures notes == if Unattributed(lines, owed) then notes0 + [Note(UnattributedTax, None)] else notes0
  {
    assert SumBy<TaxLine>([], Amount) == 0.0;
    hide PricingPolicy.RoundCurrency, Share, SumBy;
    taxes, notes := lines, notes0;
    var current := SumBy(lines, Amount);
    if lines == [] || current == 0.0 {
      if owed == 0.0 {
        taxes := ClearTaxes(policy, lines, ratio);
        return;
      }
      notes := notes + [Note(UnattributedTax, None)];
      taxes := [TaxLine(None, base, owed)];
      return;
    }
    var running := 0.0;
    var last := |taxes| - 1;
    ghost var shares := RoundedShares(policy, lines, last, owed, current, ratio);
    assert shares[..0] == [];
    for i := 0 to last
      invariant |taxes| == |lines|
      invariant taxes == shares[..i] + lines[i..]
      invariant running == SumBy(shares[..i], Amount)
    {
      PresentStep(shares, lines, taxes, i);
      var amount := policy.RoundCurrency(Share(taxes[i], owed, current));
      taxes := taxes[i := Present(policy, taxes[i], ratio, amount)];
      running := running + amount;
    }
    assert shares[..last] == shares;
    taxes := taxes[last := Present(policy, taxes[last], ratio, owed - running)];
  }

  /** The published lines sum to exactly the tax owed, and never name more lines than there were rates. */
  lemma PresentedSum(policy: PricingPolicy, lines: seq<TaxLine>, owed: real, ratio: real, base: real)
    ensures SumBy(Presented(policy, lines, owed, ratio, base), Amount) == owed
  {
    hide PricingPolicy.RoundCurrency;
    if SumBy(lines, Amount) != 0.0 && lines != [] {
      var n := |lines| - 1;
      var shares := RoundedShares(policy, lines, n, owed, SumBy(lines, Amount), ratio);
      SumAppend(shares, Present(policy, lines[n], ratio, owed - SumBy(shares, Amount)), Amount);
    } else if owed == 0.0 {
      NoTaxSum(WithoutTax(policy, lines, ratio));
    } else {
      SumOne(TaxLine(None, base, owed), Amount);
    }
  }

  lemma {:induction false} NoTaxSum(lines: seq<TaxLine>)
    requires forall t :: t in lines ==> t.amount == 0.0
    ensures SumBy(lines, Amount) == 0.0
  {
    if lines == [] {
    } else {
      NoTaxSum(lines[..|lines| - 1]);
    }
  }

  /** Every published amount is presentable when the tax owed is. */
  lemma PresentedIsCurrency(policy: PricingPolicy, lines: seq<TaxLine>, owed: real, ratio: real, base: real)
    requires IsCurrency(policy, owed)
    ensures forall t :: t in Presented(policy, lines, owed, ratio, base) ==> IsCurrency(policy, t.amount)
  {
    hide PricingPolicy.RoundCurrency, IsCurrency;
    ZeroIsExact(policy);
    RoundedIsCurrency(policy);
    if SumBy(lines, Amount) != 0.0 && lines != [] {
      var shares := RoundedShares(policy, lines, |lines| - 1, owed, SumBy(lines, Amount), ratio);
      CurrencyTotal(policy, shares);
      CurrencySum(policy, owed, SumBy(shares, Amount));
    }
  }

  lemma {:induction false} CurrencyTotal(policy: PricingPolicy, lines: seq<TaxLine>)
    requires forall t :: t in lines ==> IsCurrency(policy, t.amount)
    ensures IsCurrency(policy, SumBy(lines, Amount))
  {
    hide IsCurrency;
    ZeroIsExact(policy);
    if lines == [] {
    } else {
      CurrencyTotal(policy, lines[..|lines| - 1]);
      CurrencySum(policy, SumBy(lines[..|lines| - 1], Amount), lines[|lines| - 1].amount);
    }
  }

  // ---------------------------------------------------------------------------------------
  // How far a line is from its share
  // ---------------------------------------------------------------------------------------

  /** The most one rounding can move an amount. */
  function Slack(policy: PricingPolicy): real {
    if policy.rounding.IsNearest() then 0.5 / Pow10(policy.currencyDecimals) else policy.CurrencyUnit()
  }

  lemma CurrencyError(policy: PricingPolicy, x: real)
    ensures Abs(policy.RoundCurrency(x) - x) <= Slack(policy)
  {
    RoundError(policy.rounding, Pow10(policy.currencyDecimals), x);
  }

  /** Every line with its exact share of the tax owed. */
  function ExactShares(lines: seq<TaxLine>, owed: real, current: real): seq<TaxLine>
    requires current != 0.0
  {
    seq(|lines|, i requires 0 <= i < |lines| => lines[i].(amount := Share(lines[i], owed, current)))
  }

  lemma ShareAdds(a: real, b: real, owed: real, current: real)
    requires current != 0.0
    ensures (a + b) * owed / current == a * owed / current + b * owed / current
  {
  }

  lemma {:induction false} ExactSharesSum(lines: seq<TaxLine>, owed: real, current: real)
    requires current != 0.0
    ensures SumBy(ExactShares(lines, owed, current), Amount) == SumBy(lines, Amount) * owed / current
  {
    if lines == [] {
      assert 0.0 * owed / current == 0.0;
    } else {
      var n := |lines| - 1;
      ExactSharesSum(lines[..n], owed, current);
      assert ExactShares(lines, owed, current)[..n] == ExactShares(lines[..n], owed, current);
      ShareAdds(SumBy(lines[..n], Amount), lines[n].amount, owed, current);
    }
  }

  /**
   * Every line but the last is within one rounding of its exact share, and the last of `n` lines
   * is within `n - 1` roundings of its own: half a currency unit each for a nearest strategy.
   */
  lemma ApportionmentBound(policy: PricingPolicy, lines: seq<TaxLine>, owed: real, ratio: real)
    requires lines != [] && SumBy(lines, Amount) != 0.0
    ensures var (n, current) := (|lines| - 1, SumBy(lines, Amount));
            var lines' := Apportioned(policy, lines, owed, ratio);
            && |lines'| == |lines|
            && (forall i :: 0 <= i < n ==> Abs(lines'[i].amount - Share(lines[i], owed, current)) <= Slack(policy))
            && Abs(lines'[n].amount - Share(lines[n], owed, current)) <= Times(n, Slack(policy))
  {
    hide PricingPolicy.RoundCurrency, Slack, Share, RoundedShares, SumBy, Times;
    SharesNear(policy, lines, owed, SumBy(lines, Amount), ratio);
    ResidueNear(policy, lines, owed, SumBy(lines, Amount), ratio);
  }

  /** The residue the last line absorbs is near that line's own share. */
  lemma ResidueNear(policy: PricingPolicy, lines: seq<TaxLine>, owed: real, current: real, ratio: real)
    requires lines != [] && current == SumBy(lines, Amount) != 0.0
    ensures var n := |lines| - 1;
            var residue := owed - SumBy(RoundedShares(policy, lines, n, owed, current, ratio), Amount);
            Abs(residue - Share(lines[n], owed, current)) <= Times(n, Slack(policy))
  {
    hide Slack, Share, RoundedShares, SumBy, PricingPolicy.RoundCurrency;
    var n := |lines| - 1;
    var exact := ExactShares(lines, owed, current);
    var shares := RoundedShares(policy, lines, n, owed, current, ratio);
    ExactSharesOwed(lines, owed);
    SharesNear(policy, lines, owed, current, ratio);
    SumWithin(shares, Amount, exact[..n], Amount, Slack(policy));
    SumPrefix(exact, Amount, n);
    assert exact[..n + 1] == exact;
  }

  lemma ExactSharesOwed(lines: seq<TaxLine>, owed: real)
    requires SumBy(lines, Amount) != 0.0
    ensures SumBy(ExactShares(lines, owed, SumBy(lines, Amount)), Amount) == owed
  {
    hide SumBy, ExactShares;
    var current := SumBy(lines, Amount);
    ExactSharesSum(lines, owed, current);
    Cancel(current, owed);
  }

  lemma Cancel(a: real, b: real)
    requires a != 0.0
    ensures a * b / a == b
  {
  }

  lemma SharesNear(policy: PricingPolicy, lines: seq<TaxLine>, owed: real, current: real, ratio: real)
    requires lines != [] && current != 0.0
    ensures var n := |lines| - 1;
            var (exact, shares) := (ExactShares(lines, owed, current),
                                    RoundedShares(policy, lines, n, owed, current, ratio));
            && (forall i :: 0 <= i < n ==> Abs(Amount(shares[i]) - Amount(exact[..n][i])) <= Slack(policy))
            && (forall i :: 0 <= i < n ==> Abs(shares[i].amount - Share(lines[i], owed, current)) <= Slack(policy))
  {
    hide PricingPolicy.RoundCurrency, Slack;
    forall i | 0 <= i < |lines| - 1
      ensures Abs(policy.RoundCurrency(Share(lines[i], owed, current)) - Share(lines[i], owed, current))
              <= Slack(policy)
    {
      CurrencyError(policy, Share(lines[i], owed, current));
    }
  }
}
