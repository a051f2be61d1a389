/**
 * The older revision of the market helpers (src/market.ts): the same creation
 * without the SAI override, and an update that keeps only the gate and the
 * latestBlockNumber / totalSupply assignments.
 */
module LegacyMarket {
  import opened Constants
  import opened Contracts
  import opened Schema
  import opened EntityStore
  import MarketHelpers

  /** `createMarket` of the older revision: name and symbol always come from the ERC20. */
  function CreateMarket(chain: Chain, marketAddress: Address, blockNumber: Block, unassigned: real): (m: Market)
    ensures m.id == marketAddress
    ensures m.creationBlockNumber == blockNumber && m.latestBlockNumber == blockNumber
    ensures m.cTokenSymbol == chain.symbol(marketAddress, blockNumber)
    ensures m.cTokenDecimals == chain.decimals(marketAddress, blockNumber)
    ensures marketAddress == CETH_ADDRESS ==>
      && m.underlyingName == "Ether" && m.underlyingSymbol == "ETH"
      && m.underlyingAddress == ETH_ADDRESS && m.underlyingDecimals == 18
    ensures marketAddress != CETH_ADDRESS ==>
      var underlying := chain.underlying(marketAddress, blockNumber);
      && m.underlyingAddress == underlying
      && m.underlyingName == chain.erc20Name(underlying, blockNumber)
      && m.underlyingSymbol == chain.erc20Symbol(underlying, blockNumber)
      && m.underlyingDecimals == chain.erc20Decimals(underlying, blockNumber)
    ensures MarketHelpers.ZeroedDynamics(m) && MarketHelpers.UnassignedPrices(m, unassigned)
  {
    var (underlyingName, underlyingSymbol, underlyingAddress, underlyingDecimals) :=
      if marketAddress == CETH_ADDRESS then ("Ether", "ETH", ETH_ADDRESS, 18)
      else
        var underlying := chain.underlying(marketAddress, blockNumber);
        (chain.erc20Name(underlying, blockNumber), chain.erc20Symbol(underlying, blockNumber),
         underlying, chain.erc20Decimals(underlying, blockNumber));
    Market(
      id := marketAddress,
      creationBlockNumber := blockNumber,
      latestBlockNumber := blockNumber,
      cTokenSymbol := chain.symbol(marketAddress, blockNumber),
      cTokenDecimals := chain.decimals(marketAddress, blockNumber),
      underlyingName := underlyingName,
      underlyingSymbol := underlyingSymbol,
      underlyingAddress := underlyingAddress,
      underlyingDecimals := underlyingDecimals,
      collatoralFactor := 0.0, reserveFactor := 0.0, cash := 0.0, exchangeRate := 0.0,
      supplyRate := 0.0, borrowRate := 0.0,
      supplyApy := 0.0, borrowApy := 0.0, totalSupplyApy := 0.0, totalBorrowApy := 0.0,
      totalSupply := 0.0, totalBorrow := 0.0, totalReserves := 0.0, utalization := 0.0,
      numberOfSuppliers := 0, numberOfborrowers := 0,
      usdcPerUnderlying := 0.0,
      ethPerUnderlying := unassigned, usdcPerEth := unassigned,
      usdcPerComp := unassigned, underlyingPerCToken := unassigned)
  }

  /** Both revisions build the same market unless the underlying is SAI. */
  lemma CreateMarketAgreesOutsideSai(chain: Chain, marketAddress: Address, blockNumber: Block, unassigned: real)
    requires marketAddress == CETH_ADDRESS || chain.underlying(marketAddress, blockNumber) != SAI_ADDRESS
    ensures CreateMarket(chain, marketAddress, blockNumber, unassigned)
         == MarketHelpers.CreateMarket(chain, marketAddress, blockNumber, unassigned)
  {
  }

  /** For a SAI underlying the two revisions differ only in the underlying name and symbol. */
  lemma CreateMarketSaiDifference(chain: Chain, marketAddress: Address, blockNumber: Block, unassigned: real)
    requires marketAddress != CETH_ADDRESS && chain.underlying(marketAddress, blockNumber) == SAI_ADDRESS
    ensures
      var legacy := CreateMarket(chain, marketAddress, blockNumber, unassigned);
      var current := MarketHelpers.CreateMarket(chain, marketAddress, blockNumber, unassigned);
      legacy.(underlyingName := current.underlyingName, underlyingSymbol := current.underlyingSymbol) == current
  {
  }

  /** The market the older `updateMarket` saves: only the accrual block and the supply are refreshed. */
  function RefreshMarket(m: Market, chain: Chain, blockNumber: Block): (r: Market)
    requires m.cTokenDecimals != 0
    ensures r.latestBlockNumber == chain.accrualBlockNumber(m.id, blockNumber)
    ensures r.totalSupply * (m.cTokenDecimals as real) == chain.totalSupply(m.id, blockNumber) as real
    ensures r.(latestBlockNumber := m.latestBlockNumber, totalSupply := m.totalSupply) == m
  {
    m.(latestBlockNumber := chain.accrualBlockNumber(m.id, blockNumber),
       totalSupply := chain.totalSupply(m.id, blockNumber) as real / m.cTokenDecimals as real)
  }

  /** The store after the older `updateMarket(marketAddress, blockNumber)`. */
  function UpdateMarketState(s: StoreState, marketAddress: Address, blockNumber: Block, chain: Chain): StoreState
    requires marketAddress in s.markets ==> s.markets[marketAddress].cTokenDecimals != 0
  {
    if marketAddress in s.markets && s.markets[marketAddress].latestBlockNumber != blockNumber
    then s.(markets := s.markets[marketAddress := RefreshMarket(s.markets[marketAddress], chain, blockNumber)])
    else s
  }

  /** The older `updateMarket`: two field assignments behind the gate, then a save. */
  method UpdateMarket(st: Store, marketAddress: Address, blockNumber: Block, chain: Chain)
    requires marketAddress in st.markets ==> st.markets[marketAddress].cTokenDecimals != 0
    modifies st`markets
    ensures st.Snapshot() == UpdateMarketState(old(st.Snapshot()), marketAddress, blockNumber, chain)
  {
    if marketAddress in st.markets && st.markets[marketAddress].latestBlockNumber != blockNumber {
      var market := st.markets[marketAddress];
      var contractAddress := market.id;
      market := market.(latestBlockNumber := chain.accrualBlockNumber(contractAddress, blockNumber));
      market := market.(totalSupply := chain.totalSupply(contractAddress, blockNumber) as real
                                       / market.cTokenDecimals as real);
      st.markets := st.markets[marketAddress := market];
    }
  }

  /** Nothing changes unless the market exists and was not yet updated at this block number. */
  lemma UpdateMarketGate(s: StoreState, marketAddress: Address, blockNumber: Block, chain: Chain)
    requires marketAddress in s.markets ==> s.markets[marketAddress].cTokenDecimals != 0
    ensures UpdateMarketState(s, marketAddress, blockNumber, chain) != s ==>
      marketAddress in s.markets && s.markets[marketAddress].latestBlockNumber != blockNumber
  {
  }

  /** The update writes only the one market, and in it only the two refreshed fields. */
  lemma UpdateMarketFrame(s: StoreState, marketAddress: Address, blockNumber: Block, chain: Chain)
    requires marketAddress in s.markets ==> s.markets[marketAddress].cTokenDecimals != 0
    ensures
      var s1 := UpdateMarketState(s, marketAddress, blockNumber, chain);
      && s1.(markets := s.markets) == s
      && s1.markets.Keys == s.markets.Keys
      && (forall k :: k in s.markets && k != marketAddress ==> s1.markets[k] == s.markets[k])
      && (marketAddress in s.markets ==>
            var m := s.markets[marketAddress];
            s1.markets[marketAddress].(latestBlockNumber := m.latestBlockNumber, totalSupply := m.totalSupply) == m)
  {
    if marketAddress in s.markets && s.markets[marketAddress].latestBlockNumber != blockNumber {
      var r := RefreshMarket(s.markets[marketAddress], chain, blockNumber);
      var s1 := s.(markets := s.markets[marketAddress := r]);
      assert s1 == UpdateMarketState(s, marketAddress, blockNumber, chain);
      assert s1.(markets := s.markets) == s;
    }
  }

  /** A second update with the same reads leaves the store as the first left it. */
  lemma UpdateMarketIdempotent(s: StoreState, marketAddress: Address, blockNumber: Block, chain: Chain)
    requires marketAddress in s.markets ==> s.markets[marketAddress].cTokenDecimals != 0
    ensures
      var s1 := UpdateMarketState(s, marketAddress, blockNumber, chain);
      (marketAddress in s1.markets ==> s1.markets[marketAddress].cTokenDecimals != 0)
      && UpdateMarketState(s1, marketAddress, blockNumber, chain) == s1
  {
  }

  lemma UpdateMarketPreservesValid(s: StoreState, marketAddress: Address, blockNumber: Block, chain: Chain)
    requires Valid(s)
    ensures Valid(UpdateMarketState(s, marketAddress, blockNumber, chain))
  {
    UpdateMarketFrame(s, marketAddress, blockNumber, chain);
  }
}
