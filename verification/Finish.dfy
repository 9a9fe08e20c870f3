/**
 * Totals, price limits and the published document: `finish` of `src/tariffs/engine.rs`.
 */
module Finish {
  import opened Wrappers
  import opened Decimals
  import opened Sums
  import opened Policy
  import opened Tariffs
  import opened Breakdown
  import opened TaxLines

  // ---------------------------------------------------------------------------------------
  // The totals, in closed form
  // ---------------------------------------------------------------------------------------

  /** `x` raised to a minimum, which is presented rounded. */
  function Raised(policy: PricingPolicy, x: real, bound: Option<real>): real {
    match bound
    case None => x
    case Some(b) => Max(x, policy.RoundCurrency(b))
  }

  /** `x` lowered to a maximum, which is presented rounded. */
  function Lowered(policy: PricingPolicy, x: real, bound: Option<real>): real {
    match bound
    case None => x
    case Some(b) => Min(x, policy.RoundCurrency(b))
  }

  function BeforeBound(limit: Option<PriceLimit>): Option<real> {
    if limit.None? then None else Some(limit.value.beforeTaxes)
  }

  function AfterBound(limit: Option<PriceLimit>): Option<real> {
    if limit.None? then None else limit.value.afterTaxes
  }

  /** The pre-tax total: `min(max(round(raw), round(min)), round(max))`. */
  function ExclTotal(policy: PricingPolicy, tariff: Tariff, rawExcl: real): real {
    Lowered(policy, Raised(policy, policy.RoundCurrency(rawExcl), BeforeBound(tariff.minPrice)),
            BeforeBound(tariff.maxPrice))
  }

  /** The inclusive total the after-tax bounds alone would give. */
  function BoundedIncl(policy: PricingPolicy, tariff: Tariff, raw: real): real {
    Lowered(policy, Raised(policy, policy.RoundCurrency(raw), AfterBound(tariff.minPrice)),
            AfterBound(tariff.maxPrice))
  }

  predicate Below(x: real, bound: Option<real>) {
    bound.Some? && x < bound.value
  }

  predicate Above(x: real, bound: Option<real>) {
    bound.Some? && x > bound.value
  }

  /** The price limit that decided a total; the maximum is applied last. */
  function LimitOf(policy: PricingPolicy, tariff: Tariff, rawExcl: real, rawVat: real): Option<PriceLimitApplied> {
    var (excl, incl) := (policy.RoundCurrency(rawExcl), policy.RoundCurrency(rawExcl + rawVat));
    if Above(Raised(policy, excl, BeforeBound(tariff.minPrice)), BeforeBound(tariff.maxPrice))
       || Above(Raised(policy, incl, AfterBound(tariff.minPrice)), AfterBound(tariff.maxPrice)) then Some(Maximum)
    else if Below(excl, BeforeBound(tariff.minPrice)) || Below(incl, AfterBound(tariff.minPrice)) then Some(Minimum)
    else None
  }

  /** Whether the limit that decided a total names an amount after tax. */
  predicate BoundedAfterTax(tariff: Tariff, applied: PriceLimitApplied) {
    match applied
    case Minimum => AfterBound(tariff.minPrice).Some?
    case Maximum => AfterBound(tariff.maxPrice).Some?
  }

  /** How far a clamp moved the base the taxes were charged on. */
  function BaseRatio(policy: PricingPolicy, tariff: Tariff, rawExcl: real, rawVat: real): real {
    if LimitOf(policy, tariff, rawExcl, rawVat).None? || rawExcl == 0.0 then 1.0
    else ExclTotal(policy, tariff, rawExcl) / rawExcl
  }

  /** The tax on a clamped base: in proportion, and none when nothing was metered to scale from. */
  function ScaledVat(rawExcl: real, rawVat: real, ratio: real): real {
    if rawExcl == 0.0 then 0.0 else rawVat * ratio
  }

  /** The inclusive total. */
  function InclTotal(policy: PricingPolicy, tariff: Tariff, rawExcl: real, rawVat: real): real {
    var applied := LimitOf(policy, tariff, rawExcl, rawVat);
    var excl := ExclTotal(policy, tariff, rawExcl);
    if applied.Some? && !BoundedAfterTax(tariff, applied.value) then
      Max(policy.RoundCurrency(excl + ScaledVat(rawExcl, rawVat, BaseRatio(policy, tariff, rawExcl, rawVat))), excl)
    else
      Max(BoundedIncl(policy, tariff, rawExcl + rawVat), excl)
  }

  /** The basis of the whole breakdown. */
  function SummariseBasis(segments: seq<PricedSegment>): TaxBasis {
    if segments == [] then Excluded
    else if forall s :: s in segments ==> s.basis == segments[0].basis then segments[0].basis
    else Mixed
  }

  /** What the dimensions and their segments come to before any rounding to currency. */
  function RawExcl(dimensions: seq<DimensionCost>): real { SumBy(dimensions, DimensionTotal) }
  function RawVat(dimensions: seq<DimensionCost>): real { SumBy(AllSegments(dimensions), Tax) }

  /** The notes of a finished breakdown. */
  function FinishNotes(policy: PricingPolicy, dimensions: seq<DimensionCost>, tariff: Tariff,
      notes: seq<Note>): seq<Note> {
    var (rawExcl, rawVat) := (RawExcl(dimensions), RawVat(dimensions));
    var owed := InclTotal(policy, tariff, rawExcl, rawVat) - ExclTotal(policy, tariff, rawExcl);
    var basis := SummariseBasis(AllSegments(dimensions));
    (if basis.Mixed? then NoteOnce(notes, MixedTaxBasis) else notes)
    + TotalNotes(policy, tariff, rawExcl, rawVat)
    + (if Unattributed(RawLines(AllSegments(dimensions)), owed) then [Note(UnattributedTax, None)] else [])
  }

  /** The tariff describes negative tax, so the inclusive total is held at the exclusive one. */
  predicate NegativeTaxHeld(policy: PricingPolicy, tariff: Tariff, rawExcl: real, rawVat: real) {
    LimitOf(policy, tariff, rawExcl, rawVat).None?
    && policy.RoundCurrency(rawExcl + rawVat) < policy.RoundCurrency(rawExcl)
  }

  // ---------------------------------------------------------------------------------------
  // The clamps
  // ---------------------------------------------------------------------------------------

  /** Raising a rounded total to a bound it is below is taking the larger of it and the rounded bound. */
  lemma RaisedIsClamp(policy: PricingPolicy, raw: real, bound: Option<real>)
    ensures Raised(policy, policy.RoundCurrency(raw), bound)
            == if Below(policy.RoundCurrency(raw), bound) then policy.RoundCurrency(bound.value)
               else policy.RoundCurrency(raw)
    ensures IsCurrency(policy, Raised(policy, policy.RoundCurrency(raw), bound))
  {
    hide PricingPolicy.RoundCurrency, IsCurrency;
    var x := policy.RoundCurrency(raw);
    RoundedIsCurrency(policy);
    if bound.Some? {
      CurrencyIdentity(policy, x);
      if x < bound.value {
        CurrencyMonotone(policy, x, bound.value);
      } else {
        CurrencyMonotone(policy, bound.value, x);
      }
    }
  }

  lemma LoweredIsClamp(policy: PricingPolicy, x: real, bound: Option<real>)
    requires IsCurrency(policy, x)
    ensures Lowered(policy, x, bound) == if Above(x, bound) then policy.RoundCurrency(bound.value) else x
    ensures IsCurrency(policy, Lowered(policy, x, bound))
  {
    hide PricingPolicy.RoundCurrency, IsCurrency;
    RoundedIsCurrency(policy);
    if bound.Some? {
      CurrencyIdentity(policy, x);
      if x > bound.value {
        CurrencyMonotone(policy, bound.value, x);
      } else {
        CurrencyMonotone(policy, x, bound.value);
      }
    }
  }

  lemma ClampsAreCurrency(policy: PricingPolicy, raw: real, min: Option<real>, max: Option<real>)
    ensures IsCurrency(policy, Lowered(policy, Raised(policy, policy.RoundCurrency(raw), min), max))
  {
    hide IsCurrency, Raised, Lowered;
    RaisedIsClamp(policy, raw, min);
    LoweredIsClamp(policy, Raised(policy, policy.RoundCurrency(raw), min), max);
  }

  lemma TotalsAreCurrency(policy: PricingPolicy, tariff: Tariff, rawExcl: real, rawVat: real)
    ensures IsCurrency(policy, ExclTotal(policy, tariff, rawExcl))
    ensures IsCurrency(policy, InclTotal(policy, tariff, rawExcl, rawVat))
  {
    hide IsCurrency, Raised, Lowered, LimitOf, BaseRatio, ScaledVat, PricingPolicy.RoundCurrency;
    RoundedIsCurrency(policy);
    ClampsAreCurrency(policy, rawExcl, BeforeBound(tariff.minPrice), BeforeBound(tariff.maxPrice));
    ClampsAreCurrency(policy, rawExcl + rawVat, AfterBound(tariff.minPrice), AfterBound(tariff.maxPrice));
  }

  /** A running total, its clamp, and the limit recorded so far. */
  datatype Clamped = Clamped(excl: real, incl: real, limit: Option<PriceLimitApplied>)

  /** Applies the two price limits in the order the engine does: minimum first, maximum last. */
  method ApplyLimits(policy: PricingPolicy, tariff: Tariff, rawExcl: real, rawVat: real) returns (c: Clamped)
    ensures c.excl == ExclTotal(policy, tariff, rawExcl)
    ensures c.incl == BoundedIncl(policy, tariff, rawExcl + rawVat)
    ensures c.limit == LimitOf(policy, tariff, rawExcl, rawVat)
  {
    hide PricingPolicy.RoundCurrency, Raised, Lowered, IsCurrency;
    var (totalExcl, totalIncl) := (policy.RoundCurrency(rawExcl), policy.RoundCurrency(rawExcl + rawVat));
    var limitApplied: Option<PriceLimitApplied> := None;
    ghost var (min, max) := (tariff.minPrice, tariff.maxPrice);
    RaisedIsClamp(policy, rawExcl, BeforeBound(min));
    RaisedIsClamp(policy, rawExcl + rawVat, AfterBound(min));
    NoBound(policy, totalExcl);
    NoBound(policy, totalIncl);
    if tariff.minPrice.Some? {
      var limit := tariff.minPrice.value;
      if totalExcl < limit.beforeTaxes {
        totalExcl := policy.RoundCurrency(limit.beforeTaxes);
        limitApplied := Some(Minimum);
      }
      if limit.afterTaxes.Some? && totalIncl < limit.afterTaxes.value {
        totalIncl := policy.RoundCurrency(limit.afterTaxes.value);
        limitApplied := Some(Minimum);
      }
    }
    LoweredIsClamp(policy, totalExcl, BeforeBound(max));
    LoweredIsClamp(policy, totalIncl, AfterBound(max));
    if tariff.maxPrice.Some? {
      var limit := tariff.maxPrice.value;
      if totalExcl > limit.beforeTaxes {
        totalExcl := policy.RoundCurrency(limit.beforeTaxes);
        limitApplied := Some(Maximum);
      }
      if limit.afterTaxes.Some? && totalIncl > limit.afterTaxes.value {
        totalIncl := policy.RoundCurrency(limit.afterTaxes.value);
        limitApplied := Some(Maximum);
      }
    }
    c := Clamped(totalExcl, totalIncl, limitApplied);
  }

  lemma NoBound(policy: PricingPolicy, x: real)
    ensures Raised(policy, x, None) == x && Lowered(policy, x, None) == x
  {
  }

  /** The notes the totals earn. */
  function TotalNotes(policy: PricingPolicy, tariff: Tariff, rawExcl: real, rawVat: real): seq<Note> {
    (if LimitOf(policy, tariff, rawExcl, rawVat).Some? then [Note(TotalClamped, None)] else [])
    + (if NegativeTaxHeld(policy, tariff, rawExcl, rawVat) then [Note(NegativeTax, None)] else [])
  }

  /** Clamps the totals, moves the tax with the base, and holds a negative tax at zero. */
  method DecideTotals(policy: PricingPolicy, tariff: Tariff, rawExcl: real, rawVat: real, notes0: seq<Note>)
    returns (c: Clamped, ratio: real, notes: seq<Note>)
    ensures c.excl == ExclTotal(policy, tariff, rawExcl)
    ensures c.incl == InclTotal(policy, tariff, rawExcl, rawVat)
    ensures c.limit == LimitOf(policy, tariff, rawExcl, rawVat)
    ensures ratio == BaseRatio(policy, tariff, rawExcl, rawVat)
    ensures notes == notes0 + TotalNotes(policy, tariff, rawExcl, rawVat)
  {
    hide PricingPolicy.RoundCurrency, ExclTotal, BoundedIncl, LimitOf, BoundedAfterTax;
    c := ApplyLimits(policy, tariff, rawExcl, rawVat);
    UnclampedTotals(policy, tariff, rawExcl, rawVat);
    ratio, notes := 1.0, notes0;
    if c.limit.Some? {
      if rawExcl != 0.0 {
        ratio := c.excl / rawExcl;
      }
      if !BoundedAfterTax(tariff, c.limit.value) {
        c := c.(incl := policy.RoundCurrency(c.excl + ScaledVat(rawExcl, rawVat, ratio)));
      }
      c := c.(incl := Max(c.incl, c.excl));
      notes := notes + [Note(TotalClamped, None)];
    }
    if c.incl < c.excl {
      notes := notes + [Note(NegativeTax, None)];
      c := c.(incl := c.excl);
    }
  }

  /** Totals the dimensions, groups the tax and applies `min_price` and `max_price`. */
  method FinishBreakdown(policy: PricingPolicy, dimensions: seq<DimensionCost>, tariff: Tariff, notes0: seq<Note>)
    returns (b: CostBreakdown)
    ensures b == Finished(policy, dimensions, tariff, notes0)
  {
    hide ExclTotal, InclTotal, LimitOf, BaseRatio, TotalNotes, Unattributed, Presented, NoteOnce, Retain, SortByRate,
         AllSegments, SummariseBasis, SumBy, LinesByRate, Loud;
    var segments := AllSegments(dimensions);
    var grouped := GroupTaxes(segments);
    var taxes := SortByRate(Retain(grouped));
    var taxBasis := SummariseBasis(segments);
    var notes := notes0;
    if taxBasis.Mixed? {
      notes := NoteOnce(notes, MixedTaxBasis);
    }
    var rawExcl := SumBy(dimensions, DimensionTotal);
    var rawVat := SumBy(taxes, Amount);
    RawLinesKeepTax(segments);
    var c, ratio, notes' := DecideTotals(policy, tariff, rawExcl, rawVat, notes);
    taxes, notes := PresentTaxes(policy, taxes, c.incl - c.excl, ratio, c.excl, notes');
    b := CostBreakdown(dimensions, c.excl, c.incl, taxes, taxBasis, c.limit, notes);
  }

  /** The breakdown a session's dimensions finish as. */
  function Finished(policy: PricingPolicy, dimensions: seq<DimensionCost>, tariff: Tariff, notes: seq<Note>):
    CostBreakdown
  {
    var (rawExcl, rawVat) := (RawExcl(dimensions), RawVat(dimensions));
    var (excl, incl) := (ExclTotal(policy, tariff, rawExcl), InclTotal(policy, tariff, rawExcl, rawVat));
    CostBreakdown(dimensions, excl, incl,
                  Presented(policy, RawLines(AllSegments(dimensions)), incl - excl,
                            BaseRatio(policy, tariff, rawExcl, rawVat), excl),
                  SummariseBasis(AllSegments(dimensions)),
                  LimitOf(policy, tariff, rawExcl, rawVat),
                  FinishNotes(policy, dimensions, tariff, notes))
  }

  /** Without a clamp both totals are the rounded raw ones. */
  lemma UnclampedTotals(policy: PricingPolicy, tariff: Tariff, rawExcl: real, rawVat: real)
    ensures LimitOf(policy, tariff, rawExcl, rawVat).None? ==>
              && ExclTotal(policy, tariff, rawExcl) == policy.RoundCurrency(rawExcl)
              && BoundedIncl(policy, tariff, rawExcl + rawVat) == policy.RoundCurrency(rawExcl + rawVat)
  {
    hide PricingPolicy.RoundCurrency, Raised, Lowered, IsCurrency;
    RaisedIsClamp(policy, rawExcl, BeforeBound(tariff.minPrice));
    RaisedIsClamp(policy, rawExcl + rawVat, AfterBound(tariff.minPrice));
    LoweredIsClamp(policy, Raised(policy, policy.RoundCurrency(rawExcl), BeforeBound(tariff.minPrice)),
                   BeforeBound(tariff.maxPrice));
    LoweredIsClamp(policy, Raised(policy, policy.RoundCurrency(rawExcl + rawVat), AfterBound(tariff.minPrice)),
                   AfterBound(tariff.maxPrice));
  }

  // ---------------------------------------------------------------------------------------
  // What every breakdown keeps
  // ---------------------------------------------------------------------------------------

  /**
   * On every breakdown the published tax lines sum to exactly the difference of the two totals,
   * the inclusive total is never below the exclusive one, and every amount is presentable.
   */
  lemma TaxLinesAccountForTheTotals(policy: PricingPolicy, dimensions: seq<DimensionCost>, tariff: Tariff,
                                    notes: seq<Note>)
    ensures var b := Finished(policy, dimensions, tariff, notes);
            && b.TotalVat() == b.totalInclVat - b.totalExclVat
            && b.totalInclVat >= b.totalExclVat
            && IsCurrency(policy, b.totalExclVat) && IsCurrency(policy, b.totalInclVat)
            && forall t :: t in b.taxes ==> IsCurrency(policy, t.amount)
  {
    hide IsCurrency, ExclTotal, LimitOf, BaseRatio, PricingPolicy.RoundCurrency, BoundedIncl, RawLines, Presented;
    var (rawExcl, rawVat) := (RawExcl(dimensions), RawVat(dimensions));
    var (excl, incl) := (ExclTotal(policy, tariff, rawExcl), InclTotal(policy, tariff, rawExcl, rawVat));
    var (lines, ratio) := (RawLines(AllSegments(dimensions)), BaseRatio(policy, tariff, rawExcl, rawVat));
    TotalsAreCurrency(policy, tariff, rawExcl, rawVat);
    CurrencySum(policy, incl, excl);
    PresentedSum(policy, lines, incl - excl, ratio, excl);
    PresentedIsCurrency(policy, lines, incl - excl, ratio, excl);
  }

  /**
   * The pre-tax total never exceeds the maximum, and reaches the minimum exactly when the rounded
   * limits do not cross; when they do the maximum wins, and the limits as stated cross too.
   */
  lemma PreTaxBounds(policy: PricingPolicy, tariff: Tariff, rawExcl: real, min: real, max: real)
    requires BeforeBound(tariff.minPrice) == Some(min) && BeforeBound(tariff.maxPrice) == Some(max)
    ensures var total := ExclTotal(policy, tariff, rawExcl);
            && total <= policy.RoundCurrency(max)
            && (total >= policy.RoundCurrency(min) <==> policy.RoundCurrency(min) <= policy.RoundCurrency(max))
            && (total < policy.RoundCurrency(min) ==> total == policy.RoundCurrency(max) && min > max)
  {
    hide PricingPolicy.RoundCurrency;
    if min <= max {
      CurrencyMonotone(policy, min, max);
    }
  }

  /**
   * When a clamp decides the totals and names no after-tax bound, the tax moves with the base:
   * it is within one rounding of the raw tax scaled by the clamp, and zero when that is negative.
   */
  lemma ClampKeepsTheRate(policy: PricingPolicy, tariff: Tariff, rawExcl: real, rawVat: real)
    requires LimitOf(policy, tariff, rawExcl, rawVat).Some?
    requires !BoundedAfterTax(tariff, LimitOf(policy, tariff, rawExcl, rawVat).value)
    ensures var owed := InclTotal(policy, tariff, rawExcl, rawVat) - ExclTotal(policy, tariff, rawExcl);
            var scaled := ScaledVat(rawExcl, rawVat, BaseRatio(policy, tariff, rawExcl, rawVat));
            if scaled >= 0.0 then Abs(owed - scaled) <= Slack(policy) else owed == 0.0
  {
    hide PricingPolicy.RoundCurrency, LimitOf, BaseRatio, ScaledVat, IsCurrency, ExclTotal, Slack;
    var excl := ExclTotal(policy, tariff, rawExcl);
    var scaled := ScaledVat(rawExcl, rawVat, BaseRatio(policy, tariff, rawExcl, rawVat));
    TotalsAreCurrency(policy, tariff, rawExcl, rawVat);
    CurrencyIdentity(policy, excl);
    CurrencyError(policy, excl + scaled);
    if scaled >= 0.0 {
      CurrencyMonotone(policy, excl, excl + scaled);
    } else {
      CurrencyMonotone(policy, excl + scaled, excl);
    }
  }

  /** For a positive raw total the scaled tax has the raw tax's share of the base. */
  lemma ScaledVatKeepsShare(policy: PricingPolicy, tariff: Tariff, rawExcl: real, rawVat: real)
    requires rawExcl > 0.0 && LimitOf(policy, tariff, rawExcl, rawVat).Some?
    ensures var scaled := ScaledVat(rawExcl, rawVat, BaseRatio(policy, tariff, rawExcl, rawVat));
            scaled * rawExcl == rawVat * ExclTotal(policy, tariff, rawExcl)
  {
    hide LimitOf, ExclTotal;
    var excl := ExclTotal(policy, tariff, rawExcl);
    var ratio := excl / rawExcl;
    DivOf(excl, ratio, rawExcl);
    assert rawVat * ratio * rawExcl == rawVat * (ratio * rawExcl);
  }

  /**
   * The after-tax minimum holds whenever the maximum does not decide the total. When it does and
   * names an after-tax bound, the minimum holds exactly when that bound or the pre-tax total
   * reaches it. When it names none, the minimum holds exactly when the rounded maximum reaches it,
   * by itself or with the tax scaled down to it.
   */
  lemma AfterTaxMinimum(policy: PricingPolicy, tariff: Tariff, rawExcl: real, rawVat: real, min: real)
    requires AfterBound(tariff.minPrice) == Some(min)
    ensures var incl := InclTotal(policy, tariff, rawExcl, rawVat);
            var kept := incl >= policy.RoundCurrency(min);
            match LimitOf(policy, tariff, rawExcl, rawVat)
            case Some(Maximum) =>
              tariff.maxPrice.Some? &&
              var (n, m) := (policy.RoundCurrency(min), policy.RoundCurrency(tariff.maxPrice.value.beforeTaxes));
              (match tariff.maxPrice.value.afterTaxes
               case Some(max) =>
                 kept <==> n <= policy.RoundCurrency(max) || n <= ExclTotal(policy, tariff, rawExcl)
               case None =>
                 kept <==> n <= m || n <= policy.RoundCurrency(m + TaxAt(rawExcl, rawVat, m)))
            case _ => kept
  {
    hide PricingPolicy.RoundCurrency, ExclTotal, BaseRatio, ScaledVat;
    UnclampedTotals(policy, tariff, rawExcl, rawVat);
    if LimitOf(policy, tariff, rawExcl, rawVat) != Some(Maximum) {
      NotLowered(policy, tariff, rawExcl, rawVat);
    } else if AfterBound(tariff.maxPrice).None? {
      MaximumAlone(policy, tariff, rawExcl, rawVat);
    }
  }

  /** The tax on a base moved to `base`, at the share it was of what was metered. */
  function TaxAt(rawExcl: real, rawVat: real, base: real): real {
    if rawExcl == 0.0 then 0.0 else rawVat * (base / rawExcl)
  }

  /** A maximum that decides the total and names no after-tax bound: the totals are its own. */
  lemma MaximumAlone(policy: PricingPolicy, tariff: Tariff, rawExcl: real, rawVat: real)
    requires LimitOf(policy, tariff, rawExcl, rawVat) == Some(Maximum) && AfterBound(tariff.maxPrice).None?
    ensures tariff.maxPrice.Some?
    ensures var m := policy.RoundCurrency(tariff.maxPrice.value.beforeTaxes);
            && ExclTotal(policy, tariff, rawExcl) == m
            && InclTotal(policy, tariff, rawExcl, rawVat)
               == Max(policy.RoundCurrency(m + TaxAt(rawExcl, rawVat, m)), m)
  {
    hide PricingPolicy.RoundCurrency, Raised, Lowered, IsCurrency;
    var raised := Raised(policy, policy.RoundCurrency(rawExcl), BeforeBound(tariff.minPrice));
    RaisedIsClamp(policy, rawExcl, BeforeBound(tariff.minPrice));
    LoweredIsClamp(policy, raised, BeforeBound(tariff.maxPrice));
    var excl := ExclTotal(policy, tariff, rawExcl);
    assert ScaledVat(rawExcl, rawVat, BaseRatio(policy, tariff, rawExcl, rawVat)) == TaxAt(rawExcl, rawVat, excl) by {
      hide LimitOf, ExclTotal;
    }
    hide LimitOf, ExclTotal, ScaledVat, TaxAt, BaseRatio;
  }

  /** A total the maximum does not decide is not lowered after tax. */
  lemma NotLowered(policy: PricingPolicy, tariff: Tariff, rawExcl: real, rawVat: real)
    requires LimitOf(policy, tariff, rawExcl, rawVat) != Some(Maximum)
    ensures BoundedIncl(policy, tariff, rawExcl + rawVat)
            == Raised(policy, policy.RoundCurrency(rawExcl + rawVat), AfterBound(tariff.minPrice))
  {
    hide PricingPolicy.RoundCurrency, Raised, Lowered, IsCurrency;
    var incl := Raised(policy, policy.RoundCurrency(rawExcl + rawVat), AfterBound(tariff.minPrice));
    RaisedIsClamp(policy, rawExcl + rawVat, AfterBound(tariff.minPrice));
    LoweredIsClamp(policy, incl, AfterBound(tariff.maxPrice));
  }

  /**
   * A maximum with no after-tax bound recomputes the inclusive total, and so can undo an after-tax
   * minimum: a session metered at 8.00, of at least 10.00 after tax and at most 5.00 before it,
   * costs 5.00.
   */
  lemma MaximumUndoesAfterTaxMinimum(tariff: Tariff)
    requires tariff.minPrice == Some(PriceLimit(0.0, Some(10.0))) && tariff.maxPrice == Some(PriceLimit(5.0, None))
    ensures InclTotal(DEFAULT, tariff, 8.0, 0.0) == 5.0 < DEFAULT.RoundCurrency(10.0)
  {
    WholeEuros(8);
    WholeEuros(10);
    WholeEuros(5);
    WholeEuros(0);
  }

  lemma WholeEuros(n: int)
    ensures DEFAULT.RoundCurrency(n as real) == n as real
  {
    assert Pow10(2) == 100.0;
    WholeAt(n as real * 100.0, n * 100);
    RoundIdentity(DEFAULT.rounding, 100.0, n as real);
  }

  /** Nothing costs less than nothing when neither the session nor the limits do. */
  lemma TotalsNonNegative(policy: PricingPolicy, tariff: Tariff, rawExcl: real, rawVat: real)
    requires rawExcl >= 0.0
    requires BeforeBound(tariff.minPrice).Some? ==> BeforeBound(tariff.minPrice).value >= 0.0
    requires BeforeBound(tariff.maxPrice).Some? ==> BeforeBound(tariff.maxPrice).value >= 0.0
    ensures InclTotal(policy, tariff, rawExcl, rawVat) >= ExclTotal(policy, tariff, rawExcl) >= 0.0
  {
    hide PricingPolicy.RoundCurrency, IsCurrency, LimitOf, BaseRatio, ScaledVat, BoundedIncl;
    ZeroIsExact(policy);
    CurrencyIdentity(policy, 0.0);
    CurrencyMonotone(policy, 0.0, rawExcl);
    if tariff.maxPrice.Some? {
      CurrencyMonotone(policy, 0.0, tariff.maxPrice.value.beforeTaxes);
    }
  }
}
