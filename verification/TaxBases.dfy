/**
 * The taxable bases a breakdown publishes: what its segments cost at each rate, moved with the
 * total by a price limit. Over `finish` and `present_taxes` of `src/tariffs/engine.rs`.
 */
module TaxBases {
  import opened Wrappers
  import opened Decimals
  import opened Sums
  import opened Grouping
  import opened Policy
  import opened Tariffs
  import opened Input
  import opened Breakdown
  import opened Selection
  import opened Segments
  import opened Quantise
  import opened TaxLines
  import opened Finish
  import opened Price

  /** What the segments of one rate cost, of those that get a tax line. */
  function CostAt(segments: seq<PricedSegment>, rate: Option<real>): real {
    SumBy(WithKey(Loud(segments), Rate, rate), Cost)
  }

  lemma LineBase(segments: seq<PricedSegment>, t: TaxLine)
    requires t in RawLines(segments)
    ensures t.taxable == CostAt(segments, t.percentage)
  {
    hide Retain, LinesByRate, SumBy, WithKey, Loud;
    var loud := Loud(segments);
    SortIsSorted(Retain(LinesByRate(loud)));
    RetainIsPart(LinesByRate(loud));
    LineOfRate(loud, t);
  }

  lemma LineOfRate(loud: seq<PricedSegment>, t: TaxLine)
    requires t in LinesByRate(loud)
    ensures t.taxable == SumBy(WithKey(loud, Rate, t.percentage), Cost) && t.percentage in FirstSeen(loud, Rate)
  {
  }

  /** The base of a line moved by a clamp, as it is published. */
  function MovedBase(policy: PricingPolicy, t: TaxLine, ratio: real): (base: real)
    ensures Abs(base - Moved(t, ratio)) <= Slack(policy)
  {
    CurrencyError(policy, Moved(t, ratio));
    policy.RoundCurrency(Moved(t, ratio))
  }

  lemma PresentedAs(policy: PricingPolicy, t: TaxLine, ratio: real, amount: real)
    ensures var p := Present(policy, t, ratio, amount);
            p.percentage == t.percentage && p.taxable == MovedBase(policy, t, ratio)
  {
    hide PricingPolicy.RoundCurrency, Moved;
  }

  /** Unless the tax cannot be attributed, every line is published at its own place, its base moved by the clamp. */
  lemma PresentedLines(policy: PricingPolicy, lines: seq<TaxLine>, owed: real, ratio: real, base: real)
    requires !Unattributed(lines, owed)
    ensures var published := Presented(policy, lines, owed, ratio, base);
            |published| == |lines|
            && forall i :: 0 <= i < |lines| ==>
                 published[i].percentage == lines[i].percentage
                 && published[i].taxable == MovedBase(policy, lines[i], ratio)
  {
    NothingSums();
    hide PricingPolicy.RoundCurrency, Share, SumBy, Present, MovedBase;
    var published := Presented(policy, lines, owed, ratio, base);
    forall i | 0 <= i < |lines|
      ensures exists amount :: published[i] == Present(policy, lines[i], ratio, amount)
    {
      PresentedAt(policy, lines, owed, ratio, base, i);
    }
    forall i | 0 <= i < |lines|
      ensures published[i].percentage == lines[i].percentage
              && published[i].taxable == MovedBase(policy, lines[i], ratio)
    {
      var amount :| published[i] == Present(policy, lines[i], ratio, amount);
      PresentedAs(policy, lines[i], ratio, amount);
    }
  }

  lemma PresentedAt(policy: PricingPolicy, lines: seq<TaxLine>, owed: real, ratio: real, base: real, i: nat)
    requires !Unattributed(lines, owed) && i < |lines|
    ensures var published := Presented(policy, lines, owed, ratio, base);
            |published| == |lines| && exists amount :: published[i] == Present(policy, lines[i], ratio, amount)
  {
    hide PricingPolicy.RoundCurrency, Share, SumBy, Present;
    if SumBy(lines, Amount) != 0.0 {
      var (n, current) := (|lines| - 1, SumBy(lines, Amount));
      var shares := RoundedShares(policy, lines, n, owed, current, ratio);
      var amount := policy.RoundCurrency(Share(lines[i], owed, current));
      assert i < n ==> shares[i] == Present(policy, lines[i], ratio, amount);
    } else {
      assert WithoutTax(policy, lines, ratio)[i] == Present(policy, lines[i], ratio, 0.0);
    }
  }

  lemma NothingSums()
    ensures SumBy<TaxLine>([], Amount) == 0.0
  {
  }

  /** The base a line of `rate` is owed: what its segments cost, in the proportion a limit moved the total. */
  function ExactBase(dimensions: seq<DimensionCost>, b: CostBreakdown, rate: Option<real>): real {
    InProportion(CostAt(AllSegments(dimensions), rate), b, RawExcl(dimensions))
  }

  /** A cost in the proportion a limit moved what was metered to the total. */
  function InProportion(cost: real, b: CostBreakdown, metered: real): real {
    if b.limitApplied.Some? && metered != 0.0 then cost * b.totalExclVat / metered else cost
  }

  /** `ratio` is how far a limit moved what was metered. */
  predicate MovedBy(b: CostBreakdown, metered: real, ratio: real) {
    ratio == if b.limitApplied.None? || metered == 0.0 then 1.0 else b.totalExclVat / metered
  }

  lemma ProportionIsRatio(t: TaxLine, b: CostBreakdown, metered: real, ratio: real)
    requires MovedBy(b, metered, ratio)
    ensures InProportion(t.taxable, b, metered) == Moved(t, ratio)
  {
  }

  /** All that was metered is moved to the total, or left alone. */
  lemma MeteredIsMoved(b: CostBreakdown, metered: real, ratio: real, moved: real)
    requires MovedBy(b, metered, ratio) && moved == metered * ratio
    ensures b.limitApplied.None? ==> moved == metered
    ensures b.limitApplied.Some? && metered != 0.0 ==> moved == b.totalExclVat
  {
  }

  /**
   * Unless tax is owed that no line accounts for, a breakdown publishes one line for each raw one,
   * and its base is within one rounding of what the segments of its rate cost, in the proportion
   * in which a price limit moved the total. Tax that no line accounts for is published on all of it.
   */
  lemma BasesMoveWithTheTotal(policy: PricingPolicy, dimensions: seq<DimensionCost>, tariff: Tariff, notes: seq<Note>)
    ensures var b := Finished(policy, dimensions, tariff, notes);
            var raw := RawLines(AllSegments(dimensions));
            var owed := b.totalInclVat - b.totalExclVat;
            if Unattributed(raw, owed) then b.taxes == [TaxLine(None, b.totalExclVat, owed)]
            else
              && |b.taxes| == |raw| && (forall i :: 0 <= i < |raw| ==> b.taxes[i].percentage == raw[i].percentage)
              && forall t :: t in b.taxes ==> Abs(t.taxable - ExactBase(dimensions, b, t.percentage)) <= Slack(policy)
  {
    hide PricingPolicy.RoundCurrency, RawLines, ExclTotal, InclTotal, LimitOf, FinishNotes, SummariseBasis, ExactBase,
         RawExcl, RawVat, Presented, Unattributed, Slack, MovedBase, AllSegments, Moved;
    var b := Finished(policy, dimensions, tariff, notes);
    var (rawExcl, rawVat) := (RawExcl(dimensions), RawVat(dimensions));
    var (raw, ratio) := (RawLines(AllSegments(dimensions)), BaseRatio(policy, tariff, rawExcl, rawVat));
    assert MovedBy(b, rawExcl, ratio);
    hide MovedBy, BaseRatio;
    if Unattributed(raw, b.totalInclVat - b.totalExclVat) {
      OnTheWhole(policy, raw, b.totalInclVat - b.totalExclVat, ratio, b.totalExclVat);
    } else {
      PresentedLines(policy, raw, b.totalInclVat - b.totalExclVat, ratio, b.totalExclVat);
      forall t | t in b.taxes
        ensures Abs(t.taxable - ExactBase(dimensions, b, t.percentage)) <= Slack(policy)
      {
        var i :| 0 <= i < |raw| && b.taxes[i] == t;
        ExactBaseIs(dimensions, b, raw[i], ratio);
        assert t.taxable == MovedBase(policy, raw[i], ratio);
      }
    }
  }

  lemma OnTheWhole(policy: PricingPolicy, lines: seq<TaxLine>, owed: real, ratio: real, base: real)
    requires Unattributed(lines, owed)
    ensures Presented(policy, lines, owed, ratio, base) == [TaxLine(None, base, owed)]
  {
  }

  lemma ExactBaseIs(dimensions: seq<DimensionCost>, b: CostBreakdown, t: TaxLine, ratio: real)
    requires t in RawLines(AllSegments(dimensions))
    requires MovedBy(b, RawExcl(dimensions), ratio)
    ensures ExactBase(dimensions, b, t.percentage) == Moved(t, ratio)
  {
    LineBase(AllSegments(dimensions), t);
    hide RawLines, CostAt, AllSegments, RawExcl, InProportion, MovedBy, Moved;
    ProportionIsRatio(t, b, RawExcl(dimensions), ratio);
  }

  /** So for every priced session. */
  lemma PricedBasesMove(policy: PricingPolicy, session: PricedSession, tariffs: seq<Tariff>)
    requires Priced(policy, session, tariffs).Ok?
    ensures var b := Priced(policy, session, tariffs).value;
            var raw := RawLines(AllSegments(b.dimensions));
            var owed := b.totalInclVat - b.totalExclVat;
            if Unattributed(raw, owed) then b.taxes == [TaxLine(None, b.totalExclVat, owed)]
            else
              && |b.taxes| == |raw| && (forall i :: 0 <= i < |raw| ==> b.taxes[i].percentage == raw[i].percentage)
              && forall t :: t in b.taxes ==> Abs(t.taxable - ExactBase(b.dimensions, b, t.percentage)) <= Slack(policy)
  {
    hide CheckRange, SelectByPreference, Planned, Collect, CollectNotes, OrderNotes, DimensionsOf, NoteSplits,
         Unattributed, RawLines, Slack, Finished, ExactBase, AllSegments;
    var stretches := Planned(session, tariffs, |session.periods|).value;
    var tariff := SelectByPreference(Wanted(session), session.start, tariffs).value;
    var dimensions := DimensionsOf(policy, Collect(stretches));
    PricedDimensions(policy, session, tariffs);
    BasesMoveWithTheTotal(policy, dimensions, tariff,
                          NoteSplits(OrderNotes(session) + CollectNotes(stretches), AllSegments(dimensions)));
  }

  // ---------------------------------------------------------------------------------------
  // Which rates are published
  // ---------------------------------------------------------------------------------------

  lemma {:induction false} LoudExactly(segments: seq<PricedSegment>)
    ensures forall s :: s in Loud(segments) <==> s in segments && !Quiet(s)
  {
    if segments == [] {
    } else {
      hide Quiet;
      var n := |segments| - 1;
      LoudExactly(segments[..n]);
      assert segments == segments[..n] + [segments[n]];
    }
  }

  lemma {:induction false} RetainExactly(lines: seq<TaxLine>)
    ensures forall t :: t in Retain(lines) <==> t in lines && Published(t)
  {
    if lines == [] {
    } else {
      hide Published;
      var n := |lines| - 1;
      RetainExactly(lines[..n]);
      assert lines == lines[..n] + [lines[n]];
    }
  }

  /** The segment is taxed at this rate, if only at zero percent. */
  predicate TaxedAt(segments: seq<PricedSegment>, rate: real) {
    exists s :: s in segments && s.vat == Some(rate) && !s.basis.NoTax?
  }

  predicate HasLine(lines: seq<TaxLine>, rate: Option<real>) {
    exists t :: t in lines && t.percentage == rate
  }

  /** Nothing is taxed without a rate, or where no tax applies. */
  predicate TaxNeedsARate(segments: seq<PricedSegment>) {
    forall s :: s in segments && (s.vat.None? || s.basis.NoTax?) ==> s.tax == 0.0
  }

  lemma LoudRates(segments: seq<PricedSegment>, rate: Option<real>)
    requires TaxNeedsARate(segments)
    ensures rate in FirstSeen(Loud(segments), Rate) <==> rate.Some? && TaxedAt(segments, rate.value)
  {
    LoudExactly(segments);
    hide Loud;
    SeenExactly(Loud(segments), Rate, rate);
    WithKeySound(Loud(segments), Rate, rate);
    var own := WithKey(Loud(segments), Rate, rate);
    hide WithKey, FirstSeen;
    if own != [] {
      assert own[0] in own;
    }
    if s :| s in segments && rate.Some? && s.vat == rate && !s.basis.NoTax? {
      assert s in Loud(segments) && s in own;
    }
  }

  lemma LinesHaveRates(loud: seq<PricedSegment>, rate: Option<real>)
    ensures HasLine(LinesByRate(loud), rate) <==> rate in FirstSeen(loud, Rate)
  {
    hide LineOf, FirstSeen;
    var (rates, lines) := (FirstSeen(loud, Rate), LinesByRate(loud));
    forall i | 0 <= i < |rates|
      ensures lines[i].percentage == rates[i]
    {
      LineRate(loud, rates[i]);
    }
    if rate in rates {
      var i :| 0 <= i < |rates| && rates[i] == rate;
      assert lines[i] in lines;
    }
  }

  lemma LineRate(loud: seq<PricedSegment>, rate: Option<real>)
    ensures LineOf(loud, rate).percentage == rate
  {
  }

  lemma RawRates(segments: seq<PricedSegment>, rate: Option<real>)
    requires TaxNeedsARate(segments)
    ensures HasLine(RawLines(segments), rate) <==> rate.Some? && TaxedAt(segments, rate.value)
  {
    var lines := LinesByRate(Loud(segments));
    LoudRates(segments, rate);
    LoudRates(segments, None);
    LinesHaveRates(Loud(segments), rate);
    LinesHaveRates(Loud(segments), None);
    hide LinesByRate, Loud, TaxedAt, TaxNeedsARate;
    RetainExactly(lines);
    SortIsSorted(Retain(lines));
  }

  /** The segments of a priced session are taxed at rates only. */
  lemma ChargesNeedARate(policy: PricingPolicy, segments: seq<Segment>)
    ensures TaxNeedsARate(AllSegments(DimensionsOf(policy, segments)))
  {
    hide DimensionsOf, BilledSegments, AllSegments, Stated, PricingPolicy.RoundQuantity, PricingPolicy.RoundComponent;
    CostedSegments(policy, segments);
    var billed := BilledSegments(policy.quantisation, segments);
    assert forall k :: 0 <= k < |billed| ==>
        var p := Costed(policy, billed[k]);
        p.vat.None? || p.basis.NoTax? ==> p.tax == 0.0;
  }

  lemma SamePercentages(raw: seq<TaxLine>, lines: seq<TaxLine>, rate: Option<real>)
    requires |lines| == |raw| && forall i :: 0 <= i < |raw| ==> lines[i].percentage == raw[i].percentage
    ensures HasLine(lines, rate) <==> HasLine(raw, rate)
    ensures SortedByRate(raw) ==> SortedByRate(lines)
  {
    if t :| t in raw && t.percentage == rate {
      var i :| 0 <= i < |raw| && raw[i] == t;
      assert lines[i] in lines;
    }
    if t :| t in lines && t.percentage == rate {
      var i :| 0 <= i < |lines| && lines[i] == t;
      assert raw[i] in raw;
    }
  }

  /**
   * Unless tax is owed that no line accounts for, a breakdown publishes a line for a rate exactly
   * when some segment of it is taxed at that rate, none without a rate, and all in order of rate.
   */
  lemma RatesPublished(policy: PricingPolicy, session: PricedSession, tariffs: seq<Tariff>, rate: Option<real>)
    requires Priced(policy, session, tariffs).Ok?
    ensures var b := Priced(policy, session, tariffs).value;
            var segments := AllSegments(b.dimensions);
            !Unattributed(RawLines(segments), b.totalInclVat - b.totalExclVat) ==>
              && (HasLine(b.taxes, rate) <==> rate.Some? && TaxedAt(segments, rate.value))
              && SortedByRate(b.taxes)
  {
    hide Priced, Unattributed, Slack, ExactBase, AllSegments, HasLine, TaxedAt, TaxNeedsARate, SortedByRate, Planned,
         Collect, DimensionsOf, SortByRate, Retain, LinesByRate, Loud;
    var b := Priced(policy, session, tariffs).value;
    var segments := AllSegments(b.dimensions);
    PricedDimensions(policy, session, tariffs);
    ChargesNeedARate(policy, Collect(Planned(session, tariffs, |session.periods|).value));
    PricedBasesMove(policy, session, tariffs);
    RawRates(segments, rate);
    SortIsSorted(Retain(LinesByRate(Loud(segments))));
    if !Unattributed(RawLines(segments), b.totalInclVat - b.totalExclVat) {
      SamePercentages(RawLines(segments), b.taxes, rate);
    }
  }

  // ---------------------------------------------------------------------------------------
  // The bases together
  // ---------------------------------------------------------------------------------------

  function Taxable(t: TaxLine): real { t.taxable }

  /** Every segment has a line of its rate. */
  predicate EverySegmentHasALine(segments: seq<PricedSegment>) {
    forall s :: s in segments ==> !Quiet(s) && exists t :: t in RawLines(segments) && t.percentage == s.vat
  }

  lemma {:induction false} AllLoud(segments: seq<PricedSegment>)
    requires forall s :: s in segments ==> !Quiet(s)
    ensures Loud(segments) == segments
  {
    if segments == [] {
    } else {
      hide Quiet;
      var n := |segments| - 1;
      AllLoud(segments[..n]);
      assert segments[n] in segments && segments == segments[..n] + [segments[n]];
    }
  }

  lemma {:induction false} AllRetained(lines: seq<TaxLine>)
    requires forall t :: t in lines ==> Published(t)
    ensures Retain(lines) == lines
  {
    if lines == [] {
    } else {
      var n := |lines| - 1;
      hide Published;
      AllRetained(lines[..n]);
      assert lines[n] in lines && lines == lines[..n] + [lines[n]];
    }
  }

  lemma {:induction false} SeenFrom(s: seq<PricedSegment>, rate: Option<real>)
    requires rate in FirstSeen(s, Rate)
    ensures exists x :: x in s && x.vat == rate
  {
    var n := |s| - 1;
    if s[n].vat == rate {
      assert s[n] in s;
    } else {
      SeenFrom(s[..n], rate);
    }
  }

  /** Then no line is dropped. */
  lemma NoLineDropped(segments: seq<PricedSegment>)
    requires EverySegmentHasALine(segments)
    ensures RawLines(segments) == SortByRate(LinesByRate(segments))
  {
    AllLoud(segments);
    hide Loud, Quiet;
    var lines := LinesByRate(segments);
    RetainExactly(lines);
    RetainIsPart(lines);
    SortIsSorted(Retain(lines));
    hide Retain, SortByRate, Published;
    forall l | l in lines
      ensures Published(l)
    {
      LineOfRate(segments, l);
      SeenFrom(segments, l.percentage);
      var s :| s in segments && s.vat == l.percentage;
      var t :| t in RawLines(segments) && t.percentage == s.vat;
      OneLineARate(segments, l, t);
    }
    AllRetained(lines);
  }

  lemma OneLineARate(loud: seq<PricedSegment>, l: TaxLine, t: TaxLine)
    requires l in LinesByRate(loud) && t in LinesByRate(loud) && l.percentage == t.percentage
    ensures l == t
  {
  }

  lemma {:induction false} SumScaled(lines: seq<TaxLine>, f: TaxLine -> real, g: TaxLine -> real, ratio: real)
    requires forall t :: t in lines ==> g(t) == f(t) * ratio
    ensures SumBy(lines, g) == SumBy(lines, f) * ratio
  {
    if lines == [] {
      assert 0.0 * ratio == 0.0;
    } else {
      var n := |lines| - 1;
      SumScaled(lines[..n], f, g, ratio);
      assert lines[n] in lines;
      Distribute(SumBy(lines[..n], f), f(lines[n]), ratio);
    }
  }

  /** The raw bases add up to what the segments cost. */
  lemma RawBasesAddUp(segments: seq<PricedSegment>)
    requires EverySegmentHasALine(segments)
    ensures SumBy(RawLines(segments), Taxable) == SumBy(segments, Cost)
  {
    NoLineDropped(segments);
    SortSum(LinesByRate(segments), Taxable);
    hide RawLines, SortByRate, KeySum;
    GroupingConserves(segments, Rate, Cost, LinesByRate(segments), Taxable);
  }

  /** The published bases add up to the raw ones moved by the clamp, within one rounding a line. */
  lemma PublishedBasesAddUp(policy: PricingPolicy, lines: seq<TaxLine>, owed: real, ratio: real, base: real)
    requires !Unattributed(lines, owed)
    ensures var published := Presented(policy, lines, owed, ratio, base);
            |published| == |lines|
            && Abs(SumBy(published, Taxable) - SumBy(lines, MovedExactly(ratio))) <= Times(|lines|, Slack(policy))
  {
    hide Presented, Unattributed, Slack, MovedBase, Times, MovedExactly, SumBy, Moved;
    PresentedLines(policy, lines, owed, ratio, base);
    var published := Presented(policy, lines, owed, ratio, base);
    MovedNear(policy, lines, published, ratio);
    SumWithin(published, Taxable, lines, MovedExactly(ratio), Slack(policy));
  }

  function MovedExactly(ratio: real): TaxLine -> real {
    (t: TaxLine) => Moved(t, ratio)
  }

  lemma MovedNear(policy: PricingPolicy, lines: seq<TaxLine>, published: seq<TaxLine>, ratio: real)
    requires |published| == |lines|
    requires forall i :: 0 <= i < |lines| ==> published[i].taxable == MovedBase(policy, lines[i], ratio)
    ensures forall i :: 0 <= i < |lines| ==>
              Abs(Taxable(published[i]) - MovedExactly(ratio)(lines[i])) <= Slack(policy)
  {
    hide Slack;
  }

  lemma AllIsMoved(lines: seq<TaxLine>, b: CostBreakdown, metered: real, ratio: real)
    requires MovedBy(b, metered, ratio) && SumBy(lines, Taxable) == metered
    ensures b.limitApplied.None? ==> SumBy(lines, MovedExactly(ratio)) == metered
    ensures b.limitApplied.Some? && metered != 0.0 ==> SumBy(lines, MovedExactly(ratio)) == b.totalExclVat
  {
    SumScaled(lines, Taxable, MovedExactly(ratio), ratio);
    hide SumBy, MovedBy;
    MeteredIsMoved(b, metered, ratio, SumBy(lines, MovedExactly(ratio)));
  }

  /**
   * When every segment of a priced session has a line, the bases add up to the pre-tax total
   * within one rounding a line, and that of the total itself where no limit moved it.
   */
  lemma BasesAddUpToTheTotal(policy: PricingPolicy, session: PricedSession, tariffs: seq<Tariff>)
    requires Priced(policy, session, tariffs).Ok?
    ensures var b := Priced(policy, session, tariffs).value;
            var segments := AllSegments(b.dimensions);
            EverySegmentHasALine(segments) && !Unattributed(RawLines(segments), b.totalInclVat - b.totalExclVat) ==>
              && (b.limitApplied.None? ==>
                    Abs(SumBy(b.taxes, Taxable) - b.totalExclVat) <= Times(|b.taxes|, Slack(policy)) + Slack(policy))
              && (b.limitApplied.Some? && SumBy(segments, Cost) != 0.0 ==>
                    Abs(SumBy(b.taxes, Taxable) - b.totalExclVat) <= Times(|b.taxes|, Slack(policy)))
  {
    hide CheckRange, SelectByPreference, Planned, Collect, CollectNotes, OrderNotes, DimensionsOf, NoteSplits,
         EverySegmentHasALine, Unattributed, RawLines, SumBy, Times, Slack, Finished;
    var stretches := Planned(session, tariffs, |session.periods|).value;
    var tariff := SelectByPreference(Wanted(session), session.start, tariffs).value;
    var dimensions := DimensionsOf(policy, Collect(stretches));
    RawExclIsCost(policy, Collect(stretches));
    PricedDimensions(policy, session, tariffs);
    FinishedBasesAddUp(policy, dimensions, tariff,
                       NoteSplits(OrderNotes(session) + CollectNotes(stretches), AllSegments(dimensions)));
  }

  lemma FinishedBasesAddUp(policy: PricingPolicy, dimensions: seq<DimensionCost>, tariff: Tariff, notes: seq<Note>)
    requires RawExcl(dimensions) == SumBy(AllSegments(dimensions), Cost)
    ensures var b := Finished(policy, dimensions, tariff, notes);
            var segments := AllSegments(dimensions);
            EverySegmentHasALine(segments) && !Unattributed(RawLines(segments), b.totalInclVat - b.totalExclVat) ==>
              && (b.limitApplied.None? ==>
                    Abs(SumBy(b.taxes, Taxable) - b.totalExclVat) <= Times(|b.taxes|, Slack(policy)) + Slack(policy))
              && (b.limitApplied.Some? && SumBy(segments, Cost) != 0.0 ==>
                    Abs(SumBy(b.taxes, Taxable) - b.totalExclVat) <= Times(|b.taxes|, Slack(policy)))
  {
    hide PricingPolicy.RoundCurrency, RawLines, ExclTotal, InclTotal, LimitOf, FinishNotes, SummariseBasis, AllSegments,
         RawExcl, RawVat, Presented, Unattributed, Slack, EverySegmentHasALine, Times, SumBy, MovedExactly;
    var b := Finished(policy, dimensions, tariff, notes);
    var (segments, rawExcl, rawVat) := (AllSegments(dimensions), RawExcl(dimensions), RawVat(dimensions));
    var (raw, ratio, owed) := (RawLines(segments), BaseRatio(policy, tariff, rawExcl, rawVat),
                               b.totalInclVat - b.totalExclVat);
    assert MovedBy(b, rawExcl, ratio);
    hide MovedBy, BaseRatio;
    if EverySegmentHasALine(segments) && !Unattributed(raw, owed) {
      RawBasesAddUp(segments);
      PublishedBasesAddUp(policy, raw, owed, ratio, b.totalExclVat);
      UnclampedTotals(policy, tariff, rawExcl, rawVat);
      CurrencyError(policy, rawExcl);
      AllIsMoved(raw, b, rawExcl, ratio);
    }
  }
}
