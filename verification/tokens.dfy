/**
 The fixed configuration the comparison runs with: the three token addresses
 (as the chain spells them, in checksummed mixed case) and the table of their
 decimal precisions.
 */
module Tokens {
  import opened Addresses

  const WETH: Address := "0xC02aaA39b223FE8D0A0e5C4F27eAD9083C756Cc2"
  const USDT: Address := "0xdAC17F958D2ee523a2206206994597C13D831ec7"
  const DAI: Address := "0x6B175474E89094C44Da98b954EedeAC495271d0F"

  /** Decimal precision per token address. The lookup is an exact string
      match on the key: a differently cased spelling of an address is absent. */
  const TokenDecimals: map<Address, nat> := map[WETH := 18, USDT := 6, DAI := 18]

  /** The three configured tokens are distinct accounts, even ignoring case:
      their addresses already differ at the third character. */
  lemma DistinctTokens()
    ensures !SameAddress(WETH, USDT) && !SameAddress(WETH, DAI) && !SameAddress(USDT, DAI)
  {
    assert LowerChar(WETH[2]) != LowerChar(USDT[2]);
    assert LowerChar(WETH[2]) != LowerChar(DAI[2]);
    assert LowerChar(USDT[2]) != LowerChar(DAI[2]);
  }

  /** The table knows exactly the three configured tokens, with 18, 6 and 18 decimals. */
  lemma TokenTable()
    ensures TokenDecimals.Keys == {WETH, USDT, DAI}
    ensures TokenDecimals[WETH] == 18 && TokenDecimals[USDT] == 6 && TokenDecimals[DAI] == 18
  {
    assert WETH[2] != USDT[2] && WETH[2] != DAI[2] && USDT[2] != DAI[2];
  }

  /** Lookup is by exact spelling: the table never holds two spellings of
      one account, so a spelling of a configured token other than the
      configured one (all lower case, say) is missing from the table. */
  lemma OneSpellingPerToken(a: Address, t: Address)
    requires a in TokenDecimals && t in TokenDecimals
    requires SameAddress(a, t)
    ensures a == t
  {
    TokenTable();
    DistinctTokens();
    SameAddressIsEquivalence(a, t, t);
    SameAddressIsEquivalence(WETH, USDT, DAI);
    SameAddressIsEquivalence(USDT, DAI, WETH);
    SameAddressIsEquivalence(DAI, WETH, USDT);
  }
}
