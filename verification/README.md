# Uniswap V2 price divergence check, modelled in Dafny

The program reads two Uniswap V2 pools, WETH/USDT and WETH/DAI, and prices WETH
in each. It then computes the mean of the two prices and the percentage
difference relative to that mean. It reports a possible arbitrage when the
difference exceeds 0.5 percent in either direction.

This project models that computation over exact rational (`real`) arithmetic.
It proves what the computation guarantees:

- how a pool's two raw reserves are assigned to the requested token pair;
- how a raw balance is scaled by its token's decimals;
- what the resulting price is, in several independent forms;
- how the mean, the difference and the alert relate to the two prices.

The remote reads are inputs of the model: a pool's reserves and its `token0`.

Modules, one per file:

- `Addresses` (`addresses.dfy`): addresses as strings and ASCII lower-casing. `SameAddress` is the case-insensitive comparison the price code performs.
- `Tokens` (`tokens.dfy`): the three configured token addresses and the decimals table.
- `Decimals` (`decimals.dfy`): moving the decimal point. `ShiftDown` and `ShiftUp` are mutually inverse, and `Normalize` turns a raw balance into a human amount.
- `Pools` (`pools.dfy`): slot selection, the pool price, and the `Quote` a pool gives for any balances, including empty ones. An empty A balance gives infinity, or not-a-number when both balances are empty; an empty B balance gives a price of 0.
- `Divergence` (`divergence.dfy`): the mean, the percentage difference and the alert threshold.
- `Compare` (`compare.dfy`): the whole comparison over two pool reads, plus sample pools.
- `RealArith` (`real_arith.dfy`): one-step facts about real products and quotients that the proofs name explicitly.

## Model

| member | source | states |
|---|---|---|
| Addresses.LowerChar | Main.ts:47 | an ASCII upper-case letter maps to the matching lower-case letter; every other character is unchanged |
| Addresses.ToLower | Main.ts:47 | lower-casing keeps the length, and each character becomes the lower-case form of the input character at the same position |
| Addresses.ToLowerIdempotent | Main.ts:47 | lower-casing an already lower-cased string changes nothing |
| Addresses.SameAddress | Main.ts:47 | two addresses are the same account when they agree position by position ignoring ASCII case |
| Addresses.SameAddressIffLowerEqual | Main.ts:47 | the source compares two lower-cased strings for equality; this holds exactly when the addresses agree character by character ignoring case, in both directions |
| Addresses.SameAddressUpToCase | Main.ts:47 | an address and its lower-cased spelling compare as the same token |
| Addresses.SameAddressIsEquivalence | Main.ts:47 | the case-insensitive comparison is reflexive, symmetric and transitive |
| Tokens.DistinctTokens | Main.ts:14-16 | WETH, USDT and DAI are three different tokens even ignoring case |
| Tokens.TokenTable | Main.ts:27-31 | the decimals table has exactly the keys WETH, USDT and DAI, with 18, 6 and 18 decimals |
| Tokens.OneSpellingPerToken | Main.ts:27-31 | two keys of the table that name the same account ignoring case are the same key, so the exact-spelling lookup misses every other spelling of a configured token, such as its lower-case form |
| Decimals.ShiftDown | Main.ts:56-57 | moving the decimal point left by n places is undone by moving it right by n places, and it keeps the sign |
| Decimals.Normalize | Main.ts:56-57 | the human amount of a raw balance shifted back up by the token's decimals is the raw balance; it is never negative and is positive exactly when the raw balance is |
| Decimals.ShiftUpIsPow10 | Main.ts:56-57 | shifting right by n places multiplies by 10^n |
| Decimals.ShiftDownIsDivision | Main.ts:56-57 | moving the decimal point left by n places divides by 10^n |
| Decimals.ShiftUpOfWhole | Main.ts:56-57 | a whole number with the decimal point moved right by n places is the integer units * 10^n, so whole token amounts have exact raw balances |
| Decimals.NormalizeIsDivision | Main.ts:56-57 | normalizing is dividing the raw balance by 10^decimals |
| Decimals.ShiftRoundTrip | Main.ts:56-57 | shifting down then up, and up then down, by the same places both return the input |
| Decimals.NormalizeWhole | Main.ts:56-57 | a raw balance of a whole number of tokens normalizes to exactly that number |
| Decimals.NormalizeScale | Main.ts:56-57 | normalizing is linear: k times a raw balance normalizes to k times its amount |
| Pools.SelectSlots | Main.ts:47-53 | when token0 equals tokenA ignoring case, reserve0 goes to A and reserve1 to B; otherwise the other way round; either way the two balances are the pool's two balances (a permutation) |
| Pools.SelectSlotsIgnoresCase | Main.ts:47 | respelling token0 or tokenA in any letter case selects the same slots |
| Pools.SelectSlotsReversed | Main.ts:47-53 | for a pool whose token0 is one of two distinct requested tokens, asking for (B, A) instead of (A, B) swaps the two slots |
| Pools.PoolPrice | Main.ts:56-59 | the price is never negative, and it is positive exactly when the B balance is |
| Pools.PoolPriceConverts | Main.ts:59 | the price times the pool's human A balance is its human B balance |
| Pools.PoolPriceClosedForm | Main.ts:46-59 | the price equals (reserveB / 10^decimalsB) / (reserveA / 10^decimalsA) over the selected slots |
| Pools.PoolPriceIntegerForm | Main.ts:46-59 | the price equals (reserveB * 10^decimalsA) / (reserveA * 10^decimalsB), with no fractional intermediate |
| Pools.PoolPriceIgnoresCase | Main.ts:46-59 | respelling token0 in any case keeps the price; respelling tokenA keeps it when the decimals table gives that spelling the same precision |
| Pools.PoolPriceReciprocal | Main.ts:46-59 | for a pool holding both requested tokens with positive balances, the (B, A) price is the reciprocal of the (A, B) price |
| Pools.PoolPriceScaleInvariant | Main.ts:46-59 | a pool holding k times both balances quotes the same price |
| Pools.PoolPriceWholeUnits | Main.ts:46-59 | a pool holding whole numbers of both tokens quotes unitsB / unitsA |
| Pools.Quote | Main.ts:46-59 | the quote is finite exactly when the A balance is positive, and then it is the price; it is infinite exactly when A is empty and B is not; it is not a number exactly when both balances are empty |
| Divergence.Abs | Main.ts:84 | the magnitude is not negative and equals the input or its negation |
| Divergence.Average | Main.ts:77 | the mean is equally far from both prices and lies between them |
| Divergence.Difference | Main.ts:80 | the difference is the number that, as a percentage of the mean, gives back the gap price1 - price2 |
| Divergence.Alert | Main.ts:84 | the alert fires exactly when the difference is strictly above 0.5 or strictly below -0.5 |
| Divergence.DifferenceClosedForm | Main.ts:77-80 | the difference equals 200 * (price1 - price2) / (price1 + price2) |
| Divergence.DifferenceZeroIffEqual | Main.ts:77-80 | the difference is zero exactly when the prices are equal |
| Divergence.DifferenceSign | Main.ts:77-80 | for a positive sum, the difference is positive exactly when price1 > price2 and negative exactly when price1 < price2 |
| Divergence.DifferenceAntisymmetric | Main.ts:77-80 | swapping the prices keeps the mean and negates the difference |
| Divergence.DifferenceBounded | Main.ts:77-80 | for prices that are not negative, the difference lies in [-200, 200] and reaches 200 exactly when price2 is zero |
| Divergence.DifferenceScaleInvariant | Main.ts:77-80 | scaling both prices by k > 0 does not change the difference |
| Divergence.AlertIffGap | Main.ts:77-84 | for prices that are not negative, the alert fires exactly when 400 * the gap between the prices exceeds their sum |
| Compare.AverageOf | Main.ts:77 | the mean of two quotes is finite exactly when both are, and then it is the midpoint; it is not a number exactly when either quote is not a number |
| Compare.Evaluate | Main.ts:76-86 | the difference is finite exactly when both quotes are finite with a positive sum, and then it is the gap in percent of the mean; otherwise it is not a number; the alert fires exactly when both quotes are finite and diverge |
| Compare.EvaluateSwapped | Main.ts:77-84 | swapping the two quotes keeps the mean and the alert, and negates a finite difference |
| Compare.ComparePrices | Main.ts:63-86 | price1 is the WETH/USDT pool's quote and price2 the WETH/DAI pool's; the average is their mean; the difference is finite exactly when both quotes are finite with a positive sum, and then it is the gap in percent of the mean, otherwise it is not a number; the alert fires exactly when both quotes are finite and they diverge |
| Compare.DaiFirstSlots | Main.ts:47-53 | in a pool whose token0 is DAI, in any letter case, WETH's balance is the second slot |
| Compare.PoolUsdtPrice | Main.ts:70 | a pool of 100 WETH and 300000 USDT (18 and 6 decimals) quotes 3000 |
| Compare.PoolDaiPrice | Main.ts:71 | a pool of 149000 DAI and 50 WETH, with token0 DAI in any case, quotes 2980 |
| Compare.PoolDaiLevelPrice | Main.ts:71 | a pool of 100 WETH and 300000 DAI quotes 3000 |
| Compare.DivergentPools | Main.ts:63-86 | quotes of 3000 and 2980 give a mean of 2990 and a difference of 200/299 percent (about 0.67), and the alert fires |
| Compare.AgreeingPools | Main.ts:63-86 | two quotes of 3000 give a zero difference and no alert |
| Compare.DrainedPool | Main.ts:56-86 | a USDT pool holding no WETH quotes infinity; the mean is infinite, the difference is not a number, and no alert fires |

## Left out

- Pools.PoolPrice: the quotient is exact. bignumber.js rounds `dividedBy` to 20 decimal places, half up, so the program's price can differ from the model's in the 20th decimal place.
- Divergence.Difference: `div(2)` and `div(averagePrice)` are exact here. The library rounds both to 20 decimal places, so a difference extremely close to 0.5 can land on the other side of the threshold in the program.
- Pools.PoolPriceReciprocal: reciprocity is exact. In the program each direction's quote is the exact quotient rounded to 20 decimal places, so the two quotes are reciprocal only up to that rounding, and the error in the reciprocal grows with the square of the price.
- Pools.Quote: requires both tokens to be in the decimals table. For a missing token the program passes `-undefined`, which is NaN, to `shiftedBy`. `shiftedBy` throws on it, and the promise rejects into `.catch(console.error)` (Main.ts:89). `Compare.ComparePrices` uses only configured tokens, so it never takes that path.
- Reserves are unbounded naturals. The pool's 112-bit reserve width is not modelled. Neither is the `number` type the `Reserves` interface declares: the values are passed straight to the BigNumber constructor.
- Lower-casing is ASCII only. `toLowerCase` also maps non-ASCII letters, which hexadecimal addresses never contain.
- Finding the pools is not modelled: `getPoolAddress` (Main.ts:34-37) and the factory's `getPair`.
- The web3 connection and the contract calls `getReserves` and `token0` (Main.ts:42-44) are not modelled. Their results are the inputs `PoolRead(reserves, token0)`. The two calls are separate remote reads and need not see the same block; the model takes them as one snapshot.
- Console output is not modelled: the pool addresses, the prices, `toFixed(2)` and the arbitrage message (Main.ts:67-68, 73-74, 82, 85). The message is modelled as the boolean `alert`.
- `async`/`await` sequencing and the top-level `.catch` (Main.ts:89) are not modelled.
- The program has no guard against empty balances or a zero mean, and the model follows it:
  - an empty B balance gives a price of 0, not an error;
  - an empty A balance gives infinity, or not-a-number when both balances are empty, not an error;
  - two zero prices give a not-a-number difference and no alert, not a division-by-zero error.
