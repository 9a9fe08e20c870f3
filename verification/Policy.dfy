/** The decisions OCPI leaves open: rounding and block billing. Models `src/tariffs/policy.rs`. */
module Policy {
  import opened Decimals

  datatype Quantisation = StepSize | NoQuantisation

  datatype PricingPolicy = PricingPolicy(
    componentDecimals: nat,
    currencyDecimals: nat,
    quantityDecimals: nat,
    rounding: Strategy,
    quantisation: Quantisation
  ) {
    /** Rounds an intermediate amount. */
    function RoundComponent(x: real): real {
      Round(rounding, Pow10(componentDecimals), x)
    }

    /** Rounds a presentable amount. */
    function RoundCurrency(x: real): real {
      Round(rounding, Pow10(currencyDecimals), x)
    }

    /** Rounds a quantity for reporting. */
    function RoundQuantity(x: real): real {
      Round(rounding, Pow10(quantityDecimals), x)
    }

    /** The smallest amount the component precision can express. */
    function ComponentUnit(): (u: real)
      ensures u > 0.0
    {
      1.0 / Pow10(componentDecimals)
    }

    /** The smallest presentable amount. */
    function CurrencyUnit(): (u: real)
      ensures u > 0.0
    {
      1.0 / Pow10(currencyDecimals)
    }
  }

  /** Whether `x` is expressible at component precision. */
  predicate IsComponent(policy: PricingPolicy, x: real) {
    OnGrid(Pow10(policy.componentDecimals), x)
  }

  /** Whether `x` is a presentable amount. */
  predicate IsCurrency(policy: PricingPolicy, x: real) {
    OnGrid(Pow10(policy.currencyDecimals), x)
  }

  lemma RoundedIsComponent(policy: PricingPolicy)
    ensures forall x :: IsComponent(policy, policy.RoundComponent(x))
  {
    forall x
      ensures IsComponent(policy, policy.RoundComponent(x))
    {
      RoundOnGrid(policy.rounding, Pow10(policy.componentDecimals), x);
    }
  }

  lemma RoundedIsCurrency(policy: PricingPolicy)
    ensures forall x :: IsCurrency(policy, policy.RoundCurrency(x))
  {
    forall x
      ensures IsCurrency(policy, policy.RoundCurrency(x))
    {
      RoundOnGrid(policy.rounding, Pow10(policy.currencyDecimals), x);
    }
  }

  lemma ComponentIdentity(policy: PricingPolicy, x: real)
    requires IsComponent(policy, x)
    ensures policy.RoundComponent(x) == x
  {
    RoundIdentity(policy.rounding, Pow10(policy.componentDecimals), x);
  }

  lemma CurrencyIdentity(policy: PricingPolicy, x: real)
    requires IsCurrency(policy, x)
    ensures policy.RoundCurrency(x) == x
  {
    RoundIdentity(policy.rounding, Pow10(policy.currencyDecimals), x);
  }

  lemma ComponentMonotone(policy: PricingPolicy, x: real, y: real)
    requires x <= y
    ensures policy.RoundComponent(x) <= policy.RoundComponent(y)
  {
    RoundMonotone(policy.rounding, Pow10(policy.componentDecimals), x, y);
  }

  lemma CurrencyMonotone(policy: PricingPolicy, x: real, y: real)
    requires x <= y
    ensures policy.RoundCurrency(x) <= policy.RoundCurrency(y)
  {
    RoundMonotone(policy.rounding, Pow10(policy.currencyDecimals), x, y);
  }

  lemma ComponentSum(policy: PricingPolicy, x: real, y: real)
    requires IsComponent(policy, x) && IsComponent(policy, y)
    ensures IsComponent(policy, x + y) && IsComponent(policy, x - y)
  {
    OnGridSum(Pow10(policy.componentDecimals), x, y);
  }

  lemma CurrencySum(policy: PricingPolicy, x: real, y: real)
    requires IsCurrency(policy, x) && IsCurrency(policy, y)
    ensures IsCurrency(policy, x + y) && IsCurrency(policy, x - y)
  {
    OnGridSum(Pow10(policy.currencyDecimals), x, y);
  }

  lemma ZeroIsExact(policy: PricingPolicy)
    ensures IsComponent(policy, 0.0) && IsCurrency(policy, 0.0)
  {
    ZeroOnGrid(Pow10(policy.componentDecimals));
    ZeroOnGrid(Pow10(policy.currencyDecimals));
  }

  /** The policy used when nobody names another. */
  const DEFAULT := PricingPolicy(4, 2, 6, MidpointAwayFromZero, StepSize)

  /** Millionths of a unit: the precision a quantity is read at before the ceiling is taken. */
  const MICRO := 1000000.0

  /** How many whole units `quantity` is read as, to a millionth. */
  function InUnits(quantity: real, scale: nat): real {
    Round(MidpointAwayFromZero, MICRO, quantity * scale as real)
  }

  /** The smallest whole number of blocks of `step` that is not below `units`. */
  function Blocks(units: real, step: nat): int
    requires step > 0
  {
    Ceil(units / step as real)
  }

  /** The units in that many blocks. */
  function Billed(units: real, step: nat): real
    requires step > 0
  {
    Blocks(units, step) as real * step as real
  }

  /**
   * The quantity billed for `quantity`: rounded up to whole blocks of `step` units, where one
   * unit of quantity is `scale` of the units `step` counts.
   */
  function Apply(q: Quantisation, quantity: real, step: nat, scale: nat): real
    requires scale > 0
  {
    if q.NoQuantisation? || step == 0 then
      quantity
    else
      Billed(InUnits(quantity, scale), step) / scale as real
  }

  /** `k` blocks of `step` cover `n`, and one block fewer does not. */
  predicate FewestBlocks(k: int, step: nat, n: int) {
    (k - 1) * step < n <= k * step
  }

  lemma CeilLeast(x: real, n: int)
    ensures x <= Ceil(x) as real < x + 1.0
    ensures n as real >= x ==> n >= Ceil(x)
  {
  }

  /** A whole number read with an error below half a millionth is read exactly. */
  lemma ReadExactly(quantity: real, n: int, scale: nat)
    requires scale > 0
    requires Abs(quantity * scale as real - n as real) < 0.0000005
    ensures InUnits(quantity, scale) == n as real
  {
    var x := quantity * scale as real;
    var y := x * MICRO;
    var m := n * 1000000;
    assert m as real == n as real * MICRO;
    assert -0.5 < y - m as real < 0.5;
    assert y.Floor == m || y.Floor == m - 1;
    assert RoundInt(MidpointAwayFromZero, y) == m;
    DivOf(m as real, n as real, MICRO);
  }

  lemma CoverAt(q: real, k: real, d: real, units: real, billed: real)
    requires d > 0.0 && q <= k < q + 1.0
    requires units == q * d && billed == k * d
    ensures units <= billed < units + d
  {
    var t := k - q;
    var u := t * d;
    assert 0.0 <= u < d;
    assert u == billed - units;
  }

  /** The blocks cover what was measured and overshoot it by less than one block. */
  lemma BlocksCover(units: real, step: nat)
    requires step > 0
    ensures units <= Billed(units, step) < units + step as real
  {
    var q := units / step as real;
    CeilLeast(q, 0);
    DivOf(units, q, step as real);
    CoverAt(q, Ceil(q) as real, step as real, units, Billed(units, step));
  }

  /**
   * `n` whole seconds or watt-hours stored as a decimal with an error below 5e-7 units are billed
   * as the fewest blocks of `step` that cover `n`: never an extra block.
   */
  lemma BlockBillingExact(quantity: real, n: int, step: nat, scale: nat)
    requires scale > 0 && step > 0
    requires Abs(quantity * scale as real - n as real) < 0.0000005
    ensures FewestBlocks(Blocks(n as real, step), step, n)
    ensures Apply(StepSize, quantity, step, scale) * scale as real == (Blocks(n as real, step) * step) as real
  {
    var k := Blocks(n as real, step);
    ReadExactly(quantity, n, scale);
    BlocksCover(n as real, step);
    CastProduct(k, step);
    assert (k - 1) * step == k * step - step;
    DivOf(Billed(n as real, step), Apply(StepSize, quantity, step, scale), scale as real);
  }

  lemma CastProduct(k: int, n: int)
    ensures (k * n) as real == k as real * n as real
  {
  }

  /** Billing more never costs fewer blocks. */
  lemma ApplyMonotone(q: Quantisation, a: real, b: real, step: nat, scale: nat)
    requires scale > 0 && a <= b
    ensures Apply(q, a, step, scale) <= Apply(q, b, step, scale)
  {
    if q.StepSize? && step > 0 {
      ScaleMonotone(a, b, scale as real);
      RoundMonotone(MidpointAwayFromZero, MICRO, a * scale as real, b * scale as real);
      BilledMonotone(InUnits(a, scale), InUnits(b, scale), step);
      DivMonotone(Billed(InUnits(a, scale), step), Billed(InUnits(b, scale), step), scale as real);
    }
  }

  lemma BilledMonotone(x: real, y: real, step: nat)
    requires step > 0 && x <= y
    ensures Billed(x, step) <= Billed(y, step)
  {
    DivMonotone(x, y, step as real);
    CeilMonotone(x / step as real, y / step as real);
    ScaleMonotone(Blocks(x, step) as real, Blocks(y, step) as real, step as real);
  }

  lemma CeilMonotone(x: real, y: real)
    requires x <= y
    ensures Ceil(x) <= Ceil(y)
  {
  }

  /**
   * Billing what was already billed changes nothing, even when the billed quantity comes back
   * with a representation error below 5e-7 units.
   */
  lemma ApplyIdempotent(quantity: real, again: real, step: nat, scale: nat)
    requires scale > 0 && step > 0
    requires Abs((again - Apply(StepSize, quantity, step, scale)) * scale as real) < 0.0000005
    ensures Apply(StepSize, again, step, scale) == Apply(StepSize, quantity, step, scale)
  {
    hide Blocks, InUnits;
    BilledAgain(again, Blocks(InUnits(quantity, scale), step), step, scale);
  }

  /** `k` blocks that come back with a small error are `k` blocks again. */
  lemma BilledAgain(again: real, k: int, step: nat, scale: nat)
    requires scale > 0 && step > 0
    requires Abs((again - k as real * step as real / scale as real) * scale as real) < 0.0000005
    ensures Blocks(InUnits(again, scale), step) == k
  {
    hide Blocks, InUnits;
    CastProduct(k, step);
    ErrorInUnits(again, (k * step) as real, scale as real);
    ReadExactly(again, k * step, scale);
    BlocksOfMultiple(k, step);
  }

  lemma ErrorInUnits(x: real, units: real, d: real)
    requires d > 0.0
    ensures (x - units / d) * d == x * d - units
  {
    var q := units / d;
    DivOf(units, q, d);
    Distribute(x, q, d);
  }

  lemma BlocksOfMultiple(k: int, step: nat)
    requires step > 0
    ensures Blocks((k * step) as real, step) == k
  {
    CastProduct(k, step);
    DivOf((k * step) as real, k as real, step as real);
    WholeAt(k as real, k);
  }

  /** Block billing bills less than half a millionth of a unit below what was measured. */
  lemma ApplyNotBelow(q: Quantisation, quantity: real, step: nat, scale: nat)
    requires scale > 0
    ensures Apply(q, quantity, step, scale) >= quantity - 0.0000005 / scale as real
  {
    DivMonotone(0.0, 0.0000005, scale as real);
    if q.StepSize? && step > 0 {
      RoundError(MidpointAwayFromZero, MICRO, quantity * scale as real);
      BlocksCover(InUnits(quantity, scale), step);
      NotBelowAt(quantity, Billed(InUnits(quantity, scale), step), 0.0000005, scale as real);
    }
  }

  lemma NotBelowAt(x: real, m: real, c: real, d: real)
    requires d > 0.0 && x * d - c <= m
    ensures m / d >= x - c / d
  {
    var e := c / d;
    DivMonotone(x * d - c, m, d);
    DivOf(c, e, d);
    Distribute(x, e, d);
    DivOf(x * d - c, x - e, d);
  }
}
