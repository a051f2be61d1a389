/**
 * Numeric helpers of the indexer (src/utils/utils.ts): powers of ten, the
 * raw-to-decimal conversion, the two APY loops and min/max. BigDecimal values
 * are exact reals here.
 */
module Utils {

  /** 10^d for d >= 0; 1 for every d <= 0 (the counting loop never runs). */
  function Pow10(d: int): (r: real)
    ensures r >= 1.0
    decreases if d > 0 then d else 0
  {
    if d <= 0 then 1.0 else 10.0 * Pow10(d - 1)
  }

  /** 10^d as an integer, the raw amount that represents one whole token. */
  function IntPow10(d: nat): (r: nat)
    ensures r >= 1
  {
    if d == 0 then 1 else 10 * IntPow10(d - 1)
  }

  /** base^n by repeated multiplication, as the APY loops compute it. */
  function Power(base: real, n: nat): real
  {
    if n == 0 then 1.0 else Power(base, n - 1) * base
  }

  /** `exponentToBigDecimal`: multiplies 1 by 10 once per unit of `decimals`. */
  method ExponentToBigDecimal(decimals: int) returns (bd: real)
    ensures bd == Pow10(decimals)
  {
    bd := 1.0;
    var i := 0;
    while i < decimals
      invariant 0 <= i
      invariant decimals >= 0 ==> i <= decimals
      invariant decimals <= 0 ==> i == 0
      invariant bd == Pow10(i)
    {
      bd := bd * 10.0;
      i := i + 1;
    }
  }

  lemma Pow10NonPositive(d: int)
    requires d <= 0
    ensures Pow10(d) == 1.0
  {
  }

  lemma {:induction false} Pow10Add(a: nat, b: nat)
    ensures Pow10(a + b) == Pow10(a) * Pow10(b)
  {
    if a > 0 {
      Pow10Add(a - 1, b);
    }
  }

  lemma {:induction false} Pow10MatchesIntPow10(d: nat)
    ensures Pow10(d) == IntPow10(d) as real
  {
    if d > 0 {
      Pow10MatchesIntPow10(d - 1);
    }
  }

  /**
   * `tokenAmountToDecimal`: the raw amount scaled down by 10^decimals, with the
   * amount itself returned unscaled when decimals is 0.
   */
  function TokenAmountToDecimal(tokenAmount: int, decimals: int): (r: real)
    ensures decimals == 0 ==> r == tokenAmount as real
    ensures r * Pow10(decimals) == tokenAmount as real
  {
    if decimals == 0 then tokenAmount as real
    else tokenAmount as real / Pow10(decimals)
  }

  /** The raw amount 10^d converted at d decimals is exactly one whole token. */
  lemma OneWholeToken(d: nat)
    ensures TokenAmountToDecimal(IntPow10(d), d) == 1.0
  {
    Pow10MatchesIntPow10(d);
  }

  /** The closed form of `calculateApy`: (1 + rate * blocksPerDay)^daysPerYear - 1. */
  function CompoundedApy(ratePerBlock: real, blocksPerDay: real, daysPerYear: nat): real
  {
    Power(ratePerBlock * blocksPerDay + 1.0, daysPerYear) - 1.0
  }

  /**
   * `calculateApy`; BLOCKS_PER_DAY and DAYS_PER_YEAR are parameters because
   * the constants module the source imports them from does not define them.
   */
  method CalculateApy(ratePerBlock: real, blocksPerDay: real, daysPerYear: nat) returns (apy: real)
    ensures apy == CompoundedApy(ratePerBlock, blocksPerDay, daysPerYear)
  {
    var base := ratePerBlock * blocksPerDay + 1.0;
    apy := 1.0;
    var i := 0;
    while i < daysPerYear
      invariant i <= daysPerYear
      invariant apy == Power(base, i)
    {
      apy := apy * base;
      i := i + 1;
    }
    apy := apy - 1.0;
  }

  lemma {:induction false} PowerOfOne(n: nat)
    ensures Power(1.0, n) == 1.0
  {
    if n > 0 {
      PowerOfOne(n - 1);
    }
  }

  lemma PowerOfZero(n: nat)
    requires n > 0
    ensures Power(0.0, n) == 0.0
  {
  }

  lemma {:induction false} PowerAtLeastOne(base: real, n: nat)
    requires base >= 1.0
    ensures Power(base, n) >= 1.0
  {
    if n > 0 {
      PowerAtLeastOne(base, n - 1);
    }
  }

  /** A zero rate compounds to a zero APY, whatever the block and day counts. */
  lemma ZeroRateZeroApy(blocksPerDay: real, daysPerYear: nat)
    ensures CompoundedApy(0.0, blocksPerDay, daysPerYear) == 0.0
  {
    PowerOfOne(daysPerYear);
  }

  /** A non-negative rate never compounds to a negative APY. */
  lemma NonNegativeRateApy(ratePerBlock: real, blocksPerDay: real, daysPerYear: nat)
    requires ratePerBlock >= 0.0 && blocksPerDay >= 0.0
    ensures CompoundedApy(ratePerBlock, blocksPerDay, daysPerYear) >= 0.0
  {
    PowerAtLeastOne(ratePerBlock * blocksPerDay + 1.0, daysPerYear);
  }

  /**
   * The daily growth factor of the incentive APY: 1 + usdcPerComp * compSpeed
   * * blocksPerDay / denom, where denom = totalSupplyOrBorrow * usdcPerUnderlying;
   * 0 when denom is 0.
   */
  function CompDistributionBase(totalSupplyOrBorrow: real, compSpeed: real, usdcPerComp: real,
                                usdcPerUnderlying: real, blocksPerDay: real): real
  {
    var compDistributionPerDay := compSpeed * blocksPerDay;
    var denom := totalSupplyOrBorrow * usdcPerUnderlying;
    if denom != 0.0 then 1.0 + usdcPerComp * compDistributionPerDay / denom else 0.0
  }

  /** `calculateCompDistrubtionApy`: the base compounded DAYS_PER_YEAR times, minus one. */
  method CalculateCompDistrubtionApy(totalSupplyOrBorrow: real, compSpeed: real, usdcPerComp: real,
                                     usdcPerUnderlying: real, blocksPerDay: real, daysPerYear: nat)
    returns (apy: real)
    ensures apy == Power(CompDistributionBase(totalSupplyOrBorrow, compSpeed, usdcPerComp,
                                              usdcPerUnderlying, blocksPerDay), daysPerYear) - 1.0
  {
    var compDistributionPerDay := compSpeed * blocksPerDay;
    var denom := totalSupplyOrBorrow * usdcPerUnderlying;
    var base := if denom != 0.0 then 1.0 + usdcPerComp * compDistributionPerDay / denom else 0.0;
    assert base == CompDistributionBase(totalSupplyOrBorrow, compSpeed, usdcPerComp, usdcPerUnderlying, blocksPerDay);
    apy := 1.0;
    for i := 0 to daysPerYear
      invariant apy == Power(base, i)
    {
      apy := apy * base;
    }
    apy := apy - 1.0;
  }

  /** No emission means no incentive yield, as long as someone holds the market. */
  lemma NoSpeedNoIncentive(totalSupplyOrBorrow: real, usdcPerComp: real, usdcPerUnderlying: real,
                           blocksPerDay: real, daysPerYear: nat)
    requires totalSupplyOrBorrow * usdcPerUnderlying != 0.0
    ensures Power(CompDistributionBase(totalSupplyOrBorrow, 0.0, usdcPerComp, usdcPerUnderlying, blocksPerDay),
                  daysPerYear) - 1.0 == 0.0
  {
    PowerOfOne(daysPerYear);
  }

  /** With a zero denominator the base is 0, so the incentive APY comes out as -1, not 0. */
  lemma ZeroDenominatorIncentive(totalSupplyOrBorrow: real, compSpeed: real, usdcPerComp: real,
                                 usdcPerUnderlying: real, blocksPerDay: real, daysPerYear: nat)
    requires totalSupplyOrBorrow * usdcPerUnderlying == 0.0
    requires daysPerYear > 0
    ensures Power(CompDistributionBase(totalSupplyOrBorrow, compSpeed, usdcPerComp, usdcPerUnderlying, blocksPerDay),
                  daysPerYear) - 1.0 == -1.0
  {
    PowerOfZero(daysPerYear);
  }

  /** `minBigDecimal`: one of the two arguments, no larger than either. */
  function MinBigDecimal(a: real, b: real): (r: real)
    ensures r == a || r == b
    ensures r <= a && r <= b
  {
    if a < b then a else b
  }

  /** `maxBigDecimal`: one of the two arguments, no smaller than either. */
  function MaxBigDecimal(a: real, b: real): (r: real)
    ensures r == a || r == b
    ensures r >= a && r >= b
  {
    if a > b then a else b
  }
}
