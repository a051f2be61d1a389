/**
 * Price resolution across the two oracle eras (src/mapping-helpers/oracle.ts).
 * Each resolver takes the stored protocol (read-only: none of them writes to
 * the store), the chain and the block. A reverted oracle-2 read yields 0.
 */
module Oracle {
  import opened Wrappers
  import opened Constants
  import opened Contracts
  import opened Schema
  import opened Utils

  /**
   * `getTokenPrice`: after the oracle switch, the protocol's oracle price of the
   * cToken scaled by 10^(36 - underlyingDecimals); up to and including the switch
   * block, the first oracle's price of the underlying scaled by 10^18.
   */
  function GetTokenPrice(protocol: Option<Protocol>, chain: Chain, blockNumber: Block,
                         eventAddress: Address, underlyingAddress: Address, underlyingDecimals: int): (r: real)
    ensures protocol.None? ==> r == 0.0
    ensures protocol.Some? && blockNumber > PRICE_ORACLE_1_CHANGED_TO_2_BLOCK_NUMBER ==>
      match chain.oracle2TryGetUnderlyingPrice(protocol.value.priceOracle, eventAddress, blockNumber)
      case None => r == 0.0
      case Some(price) => r * Pow10(36 - underlyingDecimals) == price as real
    ensures protocol.Some? && blockNumber <= PRICE_ORACLE_1_CHANGED_TO_2_BLOCK_NUMBER ==>
      r * Pow10(18) == chain.oracle1GetPrice(PRICE_ORACLE_1_ADDRESS, underlyingAddress, blockNumber) as real
  {
    if protocol.None? then 0.0
    else if blockNumber > PRICE_ORACLE_1_CHANGED_TO_2_BLOCK_NUMBER then
      match chain.oracle2TryGetUnderlyingPrice(protocol.value.priceOracle, eventAddress, blockNumber)
      case None => 0.0
      case Some(price) => price as real / Pow10(36 - underlyingDecimals)
    else
      chain.oracle1GetPrice(PRICE_ORACLE_1_ADDRESS, underlyingAddress, blockNumber) as real / Pow10(18)
  }

  /**
   * `getUSDCpriceETH`, the price of USDC in ETH: the protocol oracle's cUSDC price
   * scaled by 10^30 after the switch, the first oracle's USDC price scaled by 10^18
   * before it.
   */
  function GetUsdcPriceEth(protocol: Option<Protocol>, chain: Chain, blockNumber: Block): (r: real)
    ensures protocol.None? ==> r == 0.0
    ensures protocol.Some? && blockNumber > PRICE_ORACLE_1_CHANGED_TO_2_BLOCK_NUMBER ==>
      match chain.oracle2TryGetUnderlyingPrice(protocol.value.priceOracle, CUSDC_ADDRESS, blockNumber)
      case None => r == 0.0
      case Some(price) => r * Pow10(30) == price as real
    ensures protocol.Some? && blockNumber <= PRICE_ORACLE_1_CHANGED_TO_2_BLOCK_NUMBER ==>
      r * Pow10(18) == chain.oracle1GetPrice(PRICE_ORACLE_1_ADDRESS, USDC_ADDRESS, blockNumber) as real
  {
    if protocol.None? then 0.0
    else if blockNumber > PRICE_ORACLE_1_CHANGED_TO_2_BLOCK_NUMBER then
      match chain.oracle2TryGetUnderlyingPrice(protocol.value.priceOracle, CUSDC_ADDRESS, blockNumber)
      case None => 0.0
      case Some(price) => price as real / Pow10(18 - 6 + 18)
    else
      chain.oracle1GetPrice(PRICE_ORACLE_1_ADDRESS, USDC_ADDRESS, blockNumber) as real / Pow10(18)
  }

  /**
   * `getETHinUSD`: 0 before the USD-price block; from it on, the protocol
   * oracle's cETH price scaled by 10^18, or 0 when the read reverts.
   */
  function GetEthInUsd(protocol: Option<Protocol>, chain: Chain, blockNumber: Block): (r: real)
    ensures protocol.None? || blockNumber < USD_PRICE_BASE_BLOCK_NUMBER ==> r == 0.0
    ensures protocol.Some? && blockNumber >= USD_PRICE_BASE_BLOCK_NUMBER ==>
      match chain.oracle2TryGetUnderlyingPrice(protocol.value.priceOracle, CETH_ADDRESS, blockNumber)
      case None => r == 0.0
      case Some(price) => r * Pow10(18) == price as real
  {
    if protocol.None? then 0.0
    else if blockNumber < USD_PRICE_BASE_BLOCK_NUMBER then 0.0
    else
      match chain.oracle2TryGetUnderlyingPrice(protocol.value.priceOracle, CETH_ADDRESS, blockNumber)
      case None => 0.0
      case Some(price) => price as real / Pow10(18)
  }

  /** `getCOMPinUSD` is a stub that answers 1 for every block. */
  function GetCompInUsd(blockNumber: Block): (r: real)
    ensures r == 1.0
  {
    1.0
  }

  /** In the first era the token price does not depend on which oracle the protocol records. */
  lemma FirstEraIgnoresProtocolOracle(p: Protocol, q: Protocol, chain: Chain, blockNumber: Block,
                                      eventAddress: Address, underlyingAddress: Address, underlyingDecimals: int)
    requires blockNumber <= PRICE_ORACLE_1_CHANGED_TO_2_BLOCK_NUMBER
    ensures GetTokenPrice(Some(p), chain, blockNumber, eventAddress, underlyingAddress, underlyingDecimals)
         == GetTokenPrice(Some(q), chain, blockNumber, eventAddress, underlyingAddress, underlyingDecimals)
  {
  }

  /** The resolvers read only the protocol's oracle address, never its totals or market list. */
  lemma ResolversReadOnlyTheOracle(p: Protocol, q: Protocol, chain: Chain, blockNumber: Block,
                                   eventAddress: Address, underlyingAddress: Address, underlyingDecimals: int)
    requires p.priceOracle == q.priceOracle
    ensures GetTokenPrice(Some(p), chain, blockNumber, eventAddress, underlyingAddress, underlyingDecimals)
         == GetTokenPrice(Some(q), chain, blockNumber, eventAddress, underlyingAddress, underlyingDecimals)
    ensures GetUsdcPriceEth(Some(p), chain, blockNumber) == GetUsdcPriceEth(Some(q), chain, blockNumber)
    ensures GetEthInUsd(Some(p), chain, blockNumber) == GetEthInUsd(Some(q), chain, blockNumber)
  {
  }
}
