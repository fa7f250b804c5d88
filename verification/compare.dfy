/**
 The comparison run: the WETH price quoted by a WETH/USDT pool and by a
 WETH/DAI pool, their mean, their percentage difference, and whether that
 difference calls for an arbitrage alert. Locating the two pools and reading
 their reserves and token0 happen remotely; what those reads return is the
 input here.
 */
module Compare {
  import opened Addresses
  import opened Tokens
  import opened Decimals
  import opened Pools
  import opened Divergence

  /** What one remote read of a pool returns: its reserves and its token0. */
  datatype PoolRead = PoolRead(reserves: Reserves, token0: Address)

  /** Everything the comparison computes from the two quotes. */
  datatype Report = Report(price1: Num, price2: Num, average: Num, difference: Num, alert: bool)

  /** A quote is never a negative amount. */
  predicate NotNegative(q: Num) {
    q.Finite? ==> q.value >= 0.0
  }

  /** When two quotes diverge enough to alert: both are finite amounts and
      four hundred times their gap exceeds their sum, that is the gap is more
      than a quarter percent of the sum (half a percent of the mean). */
  predicate Diverge(q1: Num, q2: Num) {
    && q1.Finite? && q2.Finite?
    && 400.0 * Abs(q1.value - q2.value) > q1.value + q2.value
  }

  /** A finite difference, taken as a percentage of a finite mean, gives back
      the gap price1 - price2. */
  predicate PercentOfMean(r: Report) {
    r.difference.Finite? ==>
      && r.average.Finite? && r.price1.Finite? && r.price2.Finite?
      && r.difference.value * r.average.value == 100.0 * (r.price1.value - r.price2.value)
  }

  /** The mean of two quotes: finite when both are, infinite when one is
      infinite and neither is not-a-number, and not-a-number otherwise. */
  function AverageOf(q1: Num, q2: Num): (m: Num)
    ensures m.Finite? <==> q1.Finite? && q2.Finite?
    ensures m.Finite? ==> m.value - q1.value == q2.value - m.value
    ensures m.NaN? <==> q1.NaN? || q2.NaN?
  {
    if q1.NaN? || q2.NaN? then NaN
    else if q1.Infinity? || q2.Infinity? then Infinity
    else Finite(Average(q1.value, q2.value))
  }

  /** The mean, the percentage difference and the alert for two quotes. The
      difference is a finite percentage only when both quotes are finite and
      not both zero; every other case (an infinite quote, a quote that is not
      a number, 0 / 0) makes it not-a-number, and not-a-number never compares
      greater than the threshold, so the alert fires exactly when the quotes
      diverge. */
  function Evaluate(price1: Num, price2: Num): (r: Report)
    requires NotNegative(price1) && NotNegative(price2)
    ensures r.price1 == price1 && r.price2 == price2
    ensures r.average == AverageOf(price1, price2)
    ensures r.difference.Finite? <==> price1.Finite? && price2.Finite? && price1.value + price2.value > 0.0
    ensures PercentOfMean(r)
    ensures !r.difference.Finite? ==> r.difference.NaN?
    ensures r.alert <==> Diverge(price1, price2)
  {
    var average := AverageOf(price1, price2);
    if price1.Finite? && price2.Finite? && price1.value + price2.value != 0.0 then
      var difference := Difference(price1.value, price2.value);
      AlertIffGap(price1.value, price2.value);
      Report(price1, price2, average, Finite(difference), Alert(difference))
    else
      Report(price1, price2, average, NaN, false)
  }

  /** Swapping the two quotes keeps the mean and the alert and negates a
      finite difference. */
  lemma EvaluateSwapped(price1: Num, price2: Num)
    requires NotNegative(price1) && NotNegative(price2)
    ensures Evaluate(price2, price1).average == Evaluate(price1, price2).average
    ensures Evaluate(price2, price1).alert == Evaluate(price1, price2).alert
    ensures Evaluate(price1, price2).difference.Finite? ==>
      Evaluate(price2, price1).difference == Finite(-Evaluate(price1, price2).difference.value)
  {
    if price1.Finite? && price2.Finite? && price1.value + price2.value != 0.0 {
      DifferenceAntisymmetric(price1.value, price2.value);
    }
  }

  /** Quotes WETH in USDT from the first pool and in DAI from the second and
      compares the two: the mean of the quotes, the difference in percent of
      the mean (not-a-number unless both quotes are finite and not both zero),
      and the alert, which fires exactly when both pools quote a finite price
      and the prices diverge. */
  function ComparePrices(pool1: PoolRead, pool2: PoolRead): (r: Report)
    ensures r.price1 == Quote(pool1.reserves, pool1.token0, WETH, USDT, TokenDecimals)
    ensures r.price2 == Quote(pool2.reserves, pool2.token0, WETH, DAI, TokenDecimals)
    ensures r.average == AverageOf(r.price1, r.price2)
    ensures r.difference.Finite? <==>
      r.price1.Finite? && r.price2.Finite? && r.price1.value + r.price2.value > 0.0
    ensures PercentOfMean(r)
    ensures !r.difference.Finite? ==> r.difference.NaN?
    ensures r.alert <==> Diverge(r.price1, r.price2)
  {
    var price1 := Quote(pool1.reserves, pool1.token0, WETH, USDT, TokenDecimals);
    var price2 := Quote(pool2.reserves, pool2.token0, WETH, DAI, TokenDecimals);
    Evaluate(price1, price2)
  }

  /** The powers of ten the configured tokens use. */
  lemma Pow10Values()
    ensures Pow10(6) == 1_000_000
    ensures Pow10(18) == 1_000_000_000_000_000_000
  {
  }

  /** WETH priced by a pool of 100 WETH against 300000 USDT (token0 WETH). */
  const PoolUsdt: PoolRead := PoolRead(Reserves(100_000_000_000_000_000_000, 300_000_000_000), WETH)

  /** WETH priced by a pool of 149000 DAI against 50 WETH (token0 DAI, so
      the WETH balance sits in the second slot). */
  const PoolDai: PoolRead :=
    PoolRead(Reserves(149_000_000_000_000_000_000_000, 50_000_000_000_000_000_000), DAI)

  /** WETH priced by a pool of 100 WETH against 300000 DAI (token0 WETH). */
  const PoolDaiLevel: PoolRead :=
    PoolRead(Reserves(100_000_000_000_000_000_000, 300_000_000_000_000_000_000_000), WETH)

  /** The WETH/USDT sample pool quotes 3000. */
  lemma PoolUsdtPrice()
    ensures PriceDefined(PoolUsdt.reserves, PoolUsdt.token0, WETH, USDT, TokenDecimals)
    ensures PoolPrice(PoolUsdt.reserves, PoolUsdt.token0, WETH, USDT, TokenDecimals) == 3000.0
  {
    Pow10Values();
    TokenTable();
    PoolPriceWholeUnits(PoolUsdt.reserves, WETH, WETH, USDT, TokenDecimals, 100, 300000);
  }

  /** A pool that reports DAI as its token0, in any letter case, keeps WETH's
      balance in its second slot. */
  lemma DaiFirstSlots(reserves: Reserves, token0: Address)
    requires SameAddress(token0, DAI)
    ensures SelectSlots(reserves, token0, WETH) == Slots(reserves.reserve1, reserves.reserve0)
  {
    DistinctTokens();
    SameAddressIsEquivalence(token0, DAI, WETH);
    SameAddressIsEquivalence(DAI, token0, WETH);
  }

  /** 149000 DAI against 50 WETH is 2980 DAI per WETH. */
  lemma QuoteOfDaiPool()
    ensures (149000 as real) / (50 as real) == 2980.0
  {
  }

  /** The WETH/DAI sample pool, whose token0 is DAI, quotes 2980 whichever
      letter case token0 is reported in. */
  lemma PoolDaiPrice(token0: Address)
    requires SameAddress(token0, DAI)
    ensures PriceDefined(PoolDai.reserves, token0, WETH, DAI, TokenDecimals)
    ensures PoolPrice(PoolDai.reserves, token0, WETH, DAI, TokenDecimals) == 2980.0
  {
    Pow10Values();
    TokenTable();
    DaiFirstSlots(PoolDai.reserves, token0);
    QuoteOfDaiPool();
    PoolPriceWholeUnits(PoolDai.reserves, token0, WETH, DAI, TokenDecimals, 50, 149000);
  }

  /** The level WETH/DAI sample pool quotes 3000. */
  lemma PoolDaiLevelPrice()
    ensures PriceDefined(PoolDaiLevel.reserves, PoolDaiLevel.token0, WETH, DAI, TokenDecimals)
    ensures PoolPrice(PoolDaiLevel.reserves, PoolDaiLevel.token0, WETH, DAI, TokenDecimals) == 3000.0
  {
    Pow10Values();
    TokenTable();
    PoolPriceWholeUnits(PoolDaiLevel.reserves, WETH, WETH, DAI, TokenDecimals, 100, 300000);
  }

  /** The two sample pools quote 3000 and 2980; the mean is 2990, the
      difference 200/299 percent (about 0.67), and the alert fires. */
  lemma DivergentPools()
    ensures ComparePrices(PoolUsdt, PoolDai)
         == Report(Finite(3000.0), Finite(2980.0), Finite(2990.0), Finite(200.0 / 299.0), true)
  {
    PoolUsdtPrice();
    SameAddressIsEquivalence(DAI, DAI, DAI);
    PoolDaiPrice(DAI);
    DifferenceClosedForm(3000.0, 2980.0);
  }

  /** Two pools quoting the same 3000 give a zero difference and no alert. */
  lemma AgreeingPools()
    ensures ComparePrices(PoolUsdt, PoolDaiLevel)
         == Report(Finite(3000.0), Finite(3000.0), Finite(3000.0), Finite(0.0), false)
  {
    PoolUsdtPrice();
    PoolDaiLevelPrice();
    DifferenceZeroIffEqual(3000.0, 3000.0);
  }

  /** A USDT pool holding no WETH quotes an infinite price: the mean is
      infinite, the difference is not a number, and no alert fires. */
  lemma DrainedPool()
    ensures ComparePrices(PoolRead(Reserves(0, 300_000_000_000), WETH), PoolDai)
         == Report(Infinity, Finite(2980.0), Infinity, NaN, false)
  {
    SameAddressIsEquivalence(DAI, DAI, DAI);
    PoolDaiPrice(DAI);
  }
}
