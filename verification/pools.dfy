/**
 The price one pool quotes: units of token B per one unit of token A, read off
 the pool's two raw reserves. The pool stores its reserves in its own slot
 order (token0 first); the caller names the pair as (tokenA, tokenB). The
 remote reads of the reserves and of token0 are inputs here.
 */
module Pools {
  import opened Addresses
  import opened Decimals
  import opened RealArith

  /** The two raw balances a pool reports, in the pool's slot order. */
  datatype Reserves = Reserves(reserve0: nat, reserve1: nat)

  /** The pool's raw balances re-ordered to the caller's pair (tokenA, tokenB). */
  datatype Slots = Slots(reserveA: nat, reserveB: nat)

  /** Assigns the pool's reserves to tokenA and tokenB: the first slot belongs
      to tokenA when the pool's token0 is tokenA ignoring case; otherwise the
      slots are taken the other way round. Either way the two balances are
      the pool's two balances, neither lost nor duplicated. */
  function SelectSlots(reserves: Reserves, token0: Address, tokenA: Address): (s: Slots)
    ensures multiset{s.reserveA, s.reserveB} == multiset{reserves.reserve0, reserves.reserve1}
    ensures SameAddress(token0, tokenA) ==>
      s.reserveA == reserves.reserve0 && s.reserveB == reserves.reserve1
    ensures !SameAddress(token0, tokenA) ==>
      s.reserveA == reserves.reserve1 && s.reserveB == reserves.reserve0
  {
    if SameAddress(token0, tokenA) then
      Slots(reserves.reserve0, reserves.reserve1)
    else
      Slots(reserves.reserve1, reserves.reserve0)
  }

  /** What the price computation needs of its inputs: both tokens have an entry
      in the decimals table and the balance divided by is not zero. */
  predicate PriceDefined(reserves: Reserves, token0: Address, tokenA: Address, tokenB: Address,
                         decimals: map<Address, nat>)
  {
    && tokenA in decimals
    && tokenB in decimals
    && SelectSlots(reserves, token0, tokenA).reserveA > 0
  }

  /** The pool's price of tokenA in units of tokenB: the human-scale B balance
      over the human-scale A balance. It is never negative, and it is zero
      exactly when the pool holds none of tokenB. */
  function PoolPrice(reserves: Reserves, token0: Address, tokenA: Address, tokenB: Address,
                     decimals: map<Address, nat>): (price: real)
    requires PriceDefined(reserves, token0, tokenA, tokenB, decimals)
    ensures price >= 0.0
    ensures price > 0.0 <==> SelectSlots(reserves, token0, tokenA).reserveB > 0
  {
    var s := SelectSlots(reserves, token0, tokenA);
    Normalize(s.reserveB, decimals[tokenB]) / Normalize(s.reserveA, decimals[tokenA])
  }

  /** The price converts amounts: the pool's whole human-scale A balance,
      valued at the price, is its whole human-scale B balance. */
  lemma PoolPriceConverts(reserves: Reserves, token0: Address, tokenA: Address,
                          tokenB: Address, decimals: map<Address, nat>)
    requires PriceDefined(reserves, token0, tokenA, tokenB, decimals)
    ensures var s := SelectSlots(reserves, token0, tokenA);
      PoolPrice(reserves, token0, tokenA, tokenB, decimals) * Normalize(s.reserveA, decimals[tokenA])
        == Normalize(s.reserveB, decimals[tokenB])
  {
    var s := SelectSlots(reserves, token0, tokenA);
    QuotientTimesDivisor(Normalize(s.reserveB, decimals[tokenB]), Normalize(s.reserveA, decimals[tokenA]));
  }

  /** The price is the scaled-down B reserve over the scaled-down A reserve:
      (reserveB / 10^decimalsB) / (reserveA / 10^decimalsA). */
  lemma PoolPriceClosedForm(reserves: Reserves, token0: Address, tokenA: Address,
                            tokenB: Address, decimals: map<Address, nat>)
    requires PriceDefined(reserves, token0, tokenA, tokenB, decimals)
    ensures var s := SelectSlots(reserves, token0, tokenA);
      PoolPrice(reserves, token0, tokenA, tokenB, decimals)
        == (s.reserveB as real / Pow10(decimals[tokenB]) as real)
         / (s.reserveA as real / Pow10(decimals[tokenA]) as real)
  {
    var s := SelectSlots(reserves, token0, tokenA);
    var da, db := decimals[tokenA], decimals[tokenB];
    NormalizeIsDivision(s.reserveA, da);
    NormalizeIsDivision(s.reserveB, db);
    DivCongruent(Normalize(s.reserveB, db), Normalize(s.reserveA, da),
                 s.reserveB as real / Pow10(db) as real, s.reserveA as real / Pow10(da) as real);
  }

  /** The price over the raw integers, with no fractional intermediate: the B
      reserve shifted up by A's decimals over the A reserve shifted up by B's,
      that is (reserveB * 10^decimalsA) / (reserveA * 10^decimalsB). */
  lemma PoolPriceIntegerForm(reserves: Reserves, token0: Address, tokenA: Address,
                             tokenB: Address, decimals: map<Address, nat>)
    requires PriceDefined(reserves, token0, tokenA, tokenB, decimals)
    ensures var s := SelectSlots(reserves, token0, tokenA);
      PoolPrice(reserves, token0, tokenA, tokenB, decimals)
        == ShiftUp(s.reserveB as real, decimals[tokenA]) / ShiftUp(s.reserveA as real, decimals[tokenB])
  {
    var s := SelectSlots(reserves, token0, tokenA);
    ShiftedRatio(s.reserveA, decimals[tokenA], s.reserveB, decimals[tokenB]);
  }

  /** The ratio of two normalized balances is the ratio of the raw balances,
      each shifted up by the other one's decimals. */
  lemma ShiftedRatio(ra: nat, da: nat, rb: nat, db: nat)
    requires ra > 0
    ensures Normalize(rb, db) / Normalize(ra, da) == ShiftUp(rb as real, da) / ShiftUp(ra as real, db)
  {
    var x, y := Normalize(ra, da), Normalize(rb, db);
    var n := da + db;
    ShiftUpAdd(x, da, db);
    ShiftUpAdd(y, db, da);
    assert ShiftUp(ra as real, db) == ShiftUp(x, n);
    assert ShiftUp(rb as real, da) == ShiftUp(y, n);
    ShiftRatio(y, x, n);
    DivCongruent(ShiftUp(y, n), ShiftUp(x, n), ShiftUp(rb as real, da), ShiftUp(ra as real, db));
  }

  /** Slot selection looks only at the lower-cased addresses: respelling the
      pool's token0 or the requested tokenA in another letter case picks the
      same slots. */
  lemma SelectSlotsIgnoresCase(reserves: Reserves, token0: Address, token0': Address,
                               tokenA: Address, tokenA': Address)
    requires SameAddress(token0, token0') && SameAddress(tokenA, tokenA')
    ensures SelectSlots(reserves, token0, tokenA) == SelectSlots(reserves, token0', tokenA')
  {
    SameAddressIsEquivalence(token0', token0, tokenA);
    SameAddressIsEquivalence(token0, tokenA, tokenA');
    SameAddressIsEquivalence(token0, token0', tokenA');
    SameAddressIsEquivalence(token0', tokenA', tokenA);
  }

  /** The price does not depend on how the pool spells token0, nor on how the
      caller spells tokenA as far as the slot choice goes; the decimals lookup,
      though, is by exact key, so a respelled tokenA gives the same price only
      when the table holds the same precision under both spellings. */
  lemma PoolPriceIgnoresCase(reserves: Reserves, token0: Address, token0': Address,
                             tokenA: Address, tokenA': Address, tokenB: Address,
                             decimals: map<Address, nat>)
    requires PriceDefined(reserves, token0, tokenA, tokenB, decimals)
    requires SameAddress(token0, token0') && SameAddress(tokenA, tokenA')
    requires tokenA' in decimals && decimals[tokenA'] == decimals[tokenA]
    ensures PriceDefined(reserves, token0', tokenA', tokenB, decimals)
    ensures PoolPrice(reserves, token0', tokenA', tokenB, decimals)
         == PoolPrice(reserves, token0, tokenA, tokenB, decimals)
  {
    SelectSlotsIgnoresCase(reserves, token0, token0', tokenA, tokenA');
  }

  /** For a pool that holds exactly the two requested tokens, naming the pair
      the other way round swaps the two slots. */
  lemma SelectSlotsReversed(reserves: Reserves, token0: Address, tokenA: Address, tokenB: Address)
    requires SameAddress(token0, tokenA) || SameAddress(token0, tokenB)
    requires !SameAddress(tokenA, tokenB)
    ensures var ab := SelectSlots(reserves, token0, tokenA);
      SelectSlots(reserves, token0, tokenB) == Slots(ab.reserveB, ab.reserveA)
  {
    SameAddressIsEquivalence(token0, tokenA, tokenB);
    SameAddressIsEquivalence(token0, tokenB, tokenA);
    SameAddressIsEquivalence(tokenA, token0, tokenB);
    SameAddressIsEquivalence(tokenB, token0, tokenA);
  }

  /** Asking the same pool for the pair the other way round gives the
      reciprocal price, provided the pool holds exactly those two tokens
      (token0 is one of them and they are different accounts). */
  lemma PoolPriceReciprocal(reserves: Reserves, token0: Address, tokenA: Address,
                            tokenB: Address, decimals: map<Address, nat>)
    requires tokenA in decimals && tokenB in decimals
    requires reserves.reserve0 > 0 && reserves.reserve1 > 0
    requires SameAddress(token0, tokenA) || SameAddress(token0, tokenB)
    requires !SameAddress(tokenA, tokenB)
    ensures PriceDefined(reserves, token0, tokenA, tokenB, decimals)
    ensures PriceDefined(reserves, token0, tokenB, tokenA, decimals)
    ensures PoolPrice(reserves, token0, tokenB, tokenA, decimals)
         == 1.0 / PoolPrice(reserves, token0, tokenA, tokenB, decimals)
  {
    var ab := SelectSlots(reserves, token0, tokenA);
    SelectSlotsReversed(reserves, token0, tokenA, tokenB);
    var x := Normalize(ab.reserveA, decimals[tokenA]);
    var y := Normalize(ab.reserveB, decimals[tokenB]);
    assert PoolPrice(reserves, token0, tokenA, tokenB, decimals) == y / x;
    assert PoolPrice(reserves, token0, tokenB, tokenA, decimals) == x / y;
    DivCongruent(1.0, PoolPrice(reserves, token0, tokenA, tokenB, decimals), 1.0, y / x);
    ReciprocalQuotient(x, y);
  }

  /** Only the ratio of the reserves matters: a pool holding k times as much of
      both tokens quotes the same price. */
  lemma PoolPriceScaleInvariant(reserves: Reserves, k: nat, token0: Address,
                                tokenA: Address, tokenB: Address, decimals: map<Address, nat>)
    requires PriceDefined(reserves, token0, tokenA, tokenB, decimals)
    requires k > 0
    ensures PriceDefined(Reserves(k * reserves.reserve0, k * reserves.reserve1), token0, tokenA, tokenB, decimals)
    ensures PoolPrice(Reserves(k * reserves.reserve0, k * reserves.reserve1), token0, tokenA, tokenB, decimals)
         == PoolPrice(reserves, token0, tokenA, tokenB, decimals)
  {
    var s := SelectSlots(reserves, token0, tokenA);
    assert SelectSlots(Reserves(k * reserves.reserve0, k * reserves.reserve1), token0, tokenA)
        == Slots(k * s.reserveA, k * s.reserveB);
    ScaledRatio(k, s.reserveA, decimals[tokenA], s.reserveB, decimals[tokenB]);
  }

  /** Scaling both raw balances by the same positive factor keeps the ratio
      of the normalized balances. */
  lemma ScaledRatio(k: nat, ra: nat, da: nat, rb: nat, db: nat)
    requires k > 0 && ra > 0
    ensures Normalize(k * rb, db) / Normalize(k * ra, da) == Normalize(rb, db) / Normalize(ra, da)
  {
    NormalizeScale(k, ra, da);
    NormalizeScale(k, rb, db);
    ScaledQuotient(k as real, Normalize(rb, db), Normalize(ra, da),
                   Normalize(k * rb, db), Normalize(k * ra, da));
  }

  /** A pool holding whole numbers of both tokens quotes the ratio of those
      numbers: unitsB tokens of B against unitsA tokens of A. */
  lemma PoolPriceWholeUnits(reserves: Reserves, token0: Address, tokenA: Address, tokenB: Address,
                            decimals: map<Address, nat>, unitsA: nat, unitsB: nat)
    requires tokenA in decimals && tokenB in decimals && unitsA > 0
    requires SelectSlots(reserves, token0, tokenA)
          == Slots(unitsA * Pow10(decimals[tokenA]), unitsB * Pow10(decimals[tokenB]))
    ensures PriceDefined(reserves, token0, tokenA, tokenB, decimals)
    ensures PoolPrice(reserves, token0, tokenA, tokenB, decimals) == unitsB as real / unitsA as real
  {
    var da, db := decimals[tokenA], decimals[tokenB];
    NormalizeWhole(unitsA, da);
    NormalizeWhole(unitsB, db);
    DivCongruent(Normalize(unitsB * Pow10(db), db), Normalize(unitsA * Pow10(da), da),
                 unitsB as real, unitsA as real);
  }

  /** The values an arbitrary-precision decimal number takes here: a finite
      amount, positive infinity (a positive amount divided by zero) or
      not-a-number (zero divided by zero, and anything computed from it). */
  datatype Num = Finite(value: real) | Infinity | NaN

  /** The quote the pool gives whatever its balances: the price when the A
      balance is positive; dividing by an empty A balance gives infinity when
      the pool still holds some B, and not-a-number when it holds nothing. */
  function Quote(reserves: Reserves, token0: Address, tokenA: Address, tokenB: Address,
                 decimals: map<Address, nat>): (q: Num)
    requires tokenA in decimals && tokenB in decimals
    ensures q.Finite? <==> PriceDefined(reserves, token0, tokenA, tokenB, decimals)
    ensures q.Finite? ==> q.value == PoolPrice(reserves, token0, tokenA, tokenB, decimals) && q.value >= 0.0
    ensures q.Infinity? <==>
      SelectSlots(reserves, token0, tokenA).reserveA == 0 && SelectSlots(reserves, token0, tokenA).reserveB > 0
    ensures q.NaN? <==> reserves.reserve0 == 0 && reserves.reserve1 == 0
  {
    var s := SelectSlots(reserves, token0, tokenA);
    if s.reserveA > 0 then
      Finite(PoolPrice(reserves, token0, tokenA, tokenB, decimals))
    else if s.reserveB > 0 then
      Infinity
    else
      NaN
  }
}
