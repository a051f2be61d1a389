/**
 * The market reconciler (src/mapping-helpers/market.ts): `createMarket` builds
 * a fresh market record from the cToken's descriptors, `updateMarket` re-derives
 * prices, totals and rates from reads pinned to the block, at most once per block.
 */
module MarketHelpers {
  import opened Wrappers
  import opened Constants
  import opened Contracts
  import opened Schema
  import opened Utils
  import opened Oracle
  import opened EntityStore

  /** Every dynamic field that `createMarket` starts at zero. */
  predicate ZeroedDynamics(m: Market)
  {
    && m.collatoralFactor == 0.0 && m.reserveFactor == 0.0 && m.cash == 0.0 && m.exchangeRate == 0.0
    && m.supplyRate == 0.0 && m.borrowRate == 0.0
    && m.supplyApy == 0.0 && m.borrowApy == 0.0 && m.totalSupplyApy == 0.0 && m.totalBorrowApy == 0.0
    && m.totalSupply == 0.0 && m.totalBorrow == 0.0 && m.totalReserves == 0.0 && m.utalization == 0.0
    && m.numberOfSuppliers == 0 && m.numberOfborrowers == 0 && m.usdcPerUnderlying == 0.0
  }

  /** The fields `createMarket` never assigns, which read as the store's unassigned value. */
  predicate UnassignedPrices(m: Market, unassigned: real)
  {
    m.ethPerUnderlying == unassigned && m.usdcPerEth == unassigned
    && m.usdcPerComp == unassigned && m.underlyingPerCToken == unassigned
  }

  /**
   * `createMarket`: a new, unsaved market for a cToken. cETH gets fixed Ether
   * descriptors; the SAI underlying gets fixed name and symbol because its ERC20
   * returns unusable ones; every other market copies its ERC20 descriptors.
   */
  function CreateMarket(chain: Chain, marketAddress: Address, blockNumber: Block, unassigned: real): (m: Market)
    ensures m.id == marketAddress
    ensures m.creationBlockNumber == blockNumber && m.latestBlockNumber == blockNumber
    ensures m.cTokenSymbol == chain.symbol(marketAddress, blockNumber)
    ensures m.cTokenDecimals == chain.decimals(marketAddress, blockNumber)
    ensures marketAddress == CETH_ADDRESS ==>
      && m.underlyingName == "Ether" && m.underlyingSymbol == "ETH"
      && m.underlyingAddress == ETH_ADDRESS && m.underlyingDecimals == 18
    ensures marketAddress != CETH_ADDRESS ==>
      var underlying := chain.underlying(marketAddress, blockNumber);
      && m.underlyingAddress == underlying
      && m.underlyingDecimals == chain.erc20Decimals(underlying, blockNumber)
      && (underlying == SAI_ADDRESS ==>
            m.underlyingName == "Sai Stablecoin v1.0 (SAI)" && m.underlyingSymbol == "SAI")
      && (underlying != SAI_ADDRESS ==>
            && m.underlyingName == chain.erc20Name(underlying, blockNumber)
            && m.underlyingSymbol == chain.erc20Symbol(underlying, blockNumber))
    ensures ZeroedDynamics(m) && UnassignedPrices(m, unassigned)
  {
    var (underlyingName, underlyingSymbol, underlyingAddress, underlyingDecimals) :=
      if marketAddress == CETH_ADDRESS then ("Ether", "ETH", ETH_ADDRESS, 18)
      else
        var underlying := chain.underlying(marketAddress, blockNumber);
        var decimals := chain.erc20Decimals(underlying, blockNumber);
        if underlying != SAI_ADDRESS
        then (chain.erc20Name(underlying, blockNumber), chain.erc20Symbol(underlying, blockNumber), underlying, decimals)
        else ("Sai Stablecoin v1.0 (SAI)", "SAI", underlying, decimals);
    Market(
      id := marketAddress,
      creationBlockNumber := blockNumber,
      latestBlockNumber := blockNumber,
      cTokenSymbol := chain.symbol(marketAddress, blockNumber),
      cTokenDecimals := chain.decimals(marketAddress, blockNumber),
      underlyingName := underlyingName,
      underlyingSymbol := underlyingSymbol,
      underlyingAddress := underlyingAddress,
      underlyingDecimals := underlyingDecimals,
      collatoralFactor := 0.0, reserveFactor := 0.0, cash := 0.0, exchangeRate := 0.0,
      supplyRate := 0.0, borrowRate := 0.0,
      supplyApy := 0.0, borrowApy := 0.0, totalSupplyApy := 0.0, totalBorrowApy := 0.0,
      totalSupply := 0.0, totalBorrow := 0.0, totalReserves := 0.0, utalization := 0.0,
      numberOfSuppliers := 0, numberOfborrowers := 0,
      usdcPerUnderlying := 0.0,
      ethPerUnderlying := unassigned, usdcPerEth := unassigned,
      usdcPerComp := unassigned, underlyingPerCToken := unassigned)
  }

  /** The two price fields the price step of `updateMarket` writes. */
  datatype Prices = Prices(ethPerUnderlying: real, usdcPerUnderlying: real)

  function PricesOf(m: Market): Prices
  {
    Prices(m.ethPerUnderlying, m.usdcPerUnderlying)
  }

  function WithPrices(m: Market, p: Prices): Market
  {
    m.(ethPerUnderlying := p.ethPerUnderlying, usdcPerUnderlying := p.usdcPerUnderlying)
  }

  /**
   * The price step of `updateMarket`. After the USD-price block: the ETH price in
   * USD is the reference; cETH updates only usdcPerUnderlying, other markets set
   * ethPerUnderlying = tokenUSD / ethUSD and, except cUSDC, usdcPerUnderlying =
   * tokenUSD. Up to that block: the USDC price in ETH is the reference; cETH sets
   * usdcPerUnderlying = ethPerUnderlying / usdcInEth, other markets set
   * ethPerUnderlying = tokenPriceEth and, except cUSDC, usdcPerUnderlying =
   * ethPerUnderlying / usdcInEth. None when the reference price is zero: the update
   * aborts without saving.
   */
  function NewPrices(m: Market, protocol: Option<Protocol>, chain: Chain, blockNumber: Block): Option<Prices>
  {
    if blockNumber > USD_PRICE_BASE_BLOCK_NUMBER then
      var ethPriceInUsd := GetEthInUsd(protocol, chain, blockNumber);
      if ethPriceInUsd == 0.0 then None
      else if m.id == CETH_ADDRESS then Some(Prices(m.ethPerUnderlying, ethPriceInUsd))
      else
        var tokenPriceUsd := GetTokenPrice(protocol, chain, blockNumber, m.id, m.underlyingAddress, m.underlyingDecimals);
        Some(Prices(tokenPriceUsd / ethPriceInUsd,
                    if m.id != CUSDC_ADDRESS then tokenPriceUsd else m.usdcPerUnderlying))
    else
      var usdPriceInEth := GetUsdcPriceEth(protocol, chain, blockNumber);
      if usdPriceInEth == 0.0 then None
      else if m.id == CETH_ADDRESS then Some(Prices(m.ethPerUnderlying, m.ethPerUnderlying / usdPriceInEth))
      else
        var tokenPriceEth := GetTokenPrice(protocol, chain, blockNumber, m.id, m.underlyingAddress, m.underlyingDecimals);
        Some(Prices(tokenPriceEth,
                    if m.id != CUSDC_ADDRESS then tokenPriceEth / usdPriceInEth else m.usdcPerUnderlying))
  }

  function PricedMarket(m: Market, protocol: Option<Protocol>, chain: Chain, blockNumber: Block): Option<Market>
  {
    match NewPrices(m, protocol, chain, blockNumber)
    case None => None
    case Some(p) => Some(WithPrices(m, p))
  }

  /** The fields the contract step of `updateMarket` re-reads from the cToken. */
  datatype ContractFields = ContractFields(
    latestBlockNumber: nat, totalSupply: real, exchangeRate: real, totalReserves: real,
    totalBorrow: real, cash: real, borrowRate: real, supplyRate: real)

  /**
   * The reads of the contract step. totalSupply is divided by the cToken decimals
   * COUNT and the exchange rate multiplied by it (not by 10^decimals), as the
   * source does; a reverted supply-rate read gives a zero supply rate.
   */
  function ContractReads(m: Market, chain: Chain, blockNumber: Block): (c: ContractFields)
    requires m.cTokenDecimals != 0
    ensures c.latestBlockNumber == chain.accrualBlockNumber(m.id, blockNumber)
    ensures c.totalSupply * (m.cTokenDecimals as real) == chain.totalSupply(m.id, blockNumber) as real
    ensures c.exchangeRate * Pow10(m.underlyingDecimals) * Pow10(18)
         == chain.exchangeRateStored(m.id, blockNumber) as real * m.cTokenDecimals as real
    ensures c.totalReserves * Pow10(m.underlyingDecimals) == chain.totalReserves(m.id, blockNumber) as real
    ensures c.totalBorrow * Pow10(m.underlyingDecimals) == chain.totalBorrows(m.id, blockNumber) as real
    ensures c.cash * Pow10(m.underlyingDecimals) == chain.getCash(m.id, blockNumber) as real
    ensures c.borrowRate * Pow10(18) == chain.borrowRatePerBlock(m.id, blockNumber) as real * BLOCKS_PER_YEAR
    ensures match chain.trySupplyRatePerBlock(m.id, blockNumber)
      case None => c.supplyRate == 0.0
      case Some(rate) => c.supplyRate * Pow10(18) == rate as real * BLOCKS_PER_YEAR
  {
    var exchangeRate := chain.exchangeRateStored(m.id, blockNumber) as real / Pow10(m.underlyingDecimals)
                        * (m.cTokenDecimals as real) / Pow10(18);
    assert exchangeRate * Pow10(m.underlyingDecimals) * Pow10(18)
        == chain.exchangeRateStored(m.id, blockNumber) as real * m.cTokenDecimals as real by {
      var a := chain.exchangeRateStored(m.id, blockNumber) as real;
      var p := Pow10(m.underlyingDecimals);
      var q := Pow10(18);
      var c := m.cTokenDecimals as real;
      assert a / p * c / q * q == a / p * c;
      assert a / p * c * p == a * c;
    }
    ContractFields(
      latestBlockNumber := chain.accrualBlockNumber(m.id, blockNumber),
      totalSupply := chain.totalSupply(m.id, blockNumber) as real / m.cTokenDecimals as real,
      exchangeRate := exchangeRate,
      totalReserves := TokenAmountToDecimal(chain.totalReserves(m.id, blockNumber), m.underlyingDecimals),
      totalBorrow := TokenAmountToDecimal(chain.totalBorrows(m.id, blockNumber), m.underlyingDecimals),
      cash := TokenAmountToDecimal(chain.getCash(m.id, blockNumber), m.underlyingDecimals),
      borrowRate := chain.borrowRatePerBlock(m.id, blockNumber) as real * BLOCKS_PER_YEAR / Pow10(18),
      supplyRate := match chain.trySupplyRatePerBlock(m.id, blockNumber)
        case None => 0.0
        case Some(rate) => rate as real * BLOCKS_PER_YEAR / Pow10(18))
  }

  function WithContract(m: Market, c: ContractFields): Market
  {
    m.(latestBlockNumber := c.latestBlockNumber, totalSupply := c.totalSupply, exchangeRate := c.exchangeRate,
       totalReserves := c.totalReserves, totalBorrow := c.totalBorrow, cash := c.cash,
       borrowRate := c.borrowRate, supplyRate := c.supplyRate)
  }

  function WithContractState(m: Market, chain: Chain, blockNumber: Block): Market
    requires m.cTokenDecimals != 0
  {
    WithContract(m, ContractReads(m, chain, blockNumber))
  }

  /** The market `updateMarket` saves, or None when it aborts at the price step. */
  function RefreshMarket(m: Market, protocol: Option<Protocol>, chain: Chain, blockNumber: Block): Option<Market>
    requires m.cTokenDecimals != 0
  {
    match PricedMarket(m, protocol, chain, blockNumber)
    case None => None
    case Some(priced) => Some(WithContractState(priced, chain, blockNumber))
  }

  /** The store after `updateMarket(marketAddress, blockNumber)`. */
  function UpdateMarketState(s: StoreState, marketAddress: Address, blockNumber: Block, chain: Chain): StoreState
    requires marketAddress in s.markets ==> s.markets[marketAddress].cTokenDecimals != 0
  {
    if marketAddress !in s.markets then s
    else
      var m := s.markets[marketAddress];
      if m.latestBlockNumber == blockNumber then s
      else match RefreshMarket(m, s.protocol, chain, blockNumber)
        case None => s
        case Some(refreshed) => s.(markets := s.markets[marketAddress := refreshed])
  }

  /** `updateMarket`: loads the market, checks the once-per-block gate, runs both steps and saves. */
  method UpdateMarket(st: Store, marketAddress: Address, blockNumber: Block, chain: Chain)
    requires marketAddress in st.markets ==> st.markets[marketAddress].cTokenDecimals != 0
    modifies st`markets
    ensures st.Snapshot() == UpdateMarketState(old(st.Snapshot()), marketAddress, blockNumber, chain)
  {
    if marketAddress !in st.markets {
      return;
    }
    var market := st.markets[marketAddress];
    if market.latestBlockNumber != blockNumber {
      var priced := PriceMarket(market, st.protocol, chain, blockNumber);
      if priced.None? {
        return;
      }
      market := ReadContractState(priced.value, chain, blockNumber);
      st.markets := st.markets[marketAddress := market];
    }
  }

  /** The price step of `updateMarket`, assigning the price fields in the source's order. */
  method PriceMarket(market: Market, protocol: Option<Protocol>, chain: Chain, blockNumber: Block)
    returns (priced: Option<Market>)
    ensures priced == PricedMarket(market, protocol, chain, blockNumber)
  {
    var m := market;
    var contractAddress := m.id;
    if blockNumber > USD_PRICE_BASE_BLOCK_NUMBER {
      var ethPriceInUsd := GetEthInUsd(protocol, chain, blockNumber);
      if ethPriceInUsd == 0.0 {
        return None;
      }
      if CETH_ADDRESS == m.id {
        m := m.(usdcPerUnderlying := ethPriceInUsd);
      } else {
        var tokenPriceUsd := GetTokenPrice(protocol, chain, blockNumber, contractAddress,
                                           m.underlyingAddress, m.underlyingDecimals);
        m := m.(ethPerUnderlying := tokenPriceUsd / ethPriceInUsd);
        if CUSDC_ADDRESS != m.id {
          m := m.(usdcPerUnderlying := tokenPriceUsd);
        }
      }
    } else {
      var usdPriceInEth := GetUsdcPriceEth(protocol, chain, blockNumber);
      if usdPriceInEth == 0.0 {
        return None;
      }
      if CETH_ADDRESS == m.id {
        m := m.(usdcPerUnderlying := m.ethPerUnderlying / usdPriceInEth);
      } else {
        var tokenPriceEth := GetTokenPrice(protocol, chain, blockNumber, contractAddress,
                                           m.underlyingAddress, m.underlyingDecimals);
        m := m.(ethPerUnderlying := tokenPriceEth);
        if CUSDC_ADDRESS != m.id {
          m := m.(usdcPerUnderlying := m.ethPerUnderlying / usdPriceInEth);
        }
      }
    }
    priced := Some(m);
  }

  /** The contract step of `updateMarket`, assigning the re-read fields in the source's order. */
  method ReadContractState(market: Market, chain: Chain, blockNumber: Block) returns (m: Market)
    requires market.cTokenDecimals != 0
    ensures m == WithContractState(market, chain, blockNumber)
  {
    m := market;
    var contractAddress := m.id;
    m := m.(latestBlockNumber := chain.accrualBlockNumber(contractAddress, blockNumber));
    m := m.(totalSupply := chain.totalSupply(contractAddress, blockNumber) as real / m.cTokenDecimals as real);
    var underlyingScale := ExponentToBigDecimal(m.underlyingDecimals);
    var mantissa := ExponentToBigDecimal(18);
    m := m.(exchangeRate := chain.exchangeRateStored(contractAddress, blockNumber) as real
                            / underlyingScale * (m.cTokenDecimals as real) / mantissa);
    m := m.(totalReserves := TokenAmountToDecimal(chain.totalReserves(contractAddress, blockNumber),
                                                  m.underlyingDecimals));
    m := m.(totalBorrow := TokenAmountToDecimal(chain.totalBorrows(contractAddress, blockNumber),
                                                m.underlyingDecimals));
    m := m.(cash := TokenAmountToDecimal(chain.getCash(contractAddress, blockNumber), m.underlyingDecimals));
    m := m.(borrowRate := chain.borrowRatePerBlock(contractAddress, blockNumber) as real
                          * BLOCKS_PER_YEAR / mantissa);
    var supplyRatePerBlock := chain.trySupplyRatePerBlock(contractAddress, blockNumber);
    if supplyRatePerBlock.None? {
      m := m.(supplyRate := 0.0);
    } else {
      m := m.(supplyRate := supplyRatePerBlock.value as real * BLOCKS_PER_YEAR / mantissa);
    }
  }

  /** The descriptors that no update touches. */
  predicate SameDescriptors(m: Market, r: Market)
  {
    && r.id == m.id && r.creationBlockNumber == m.creationBlockNumber
    && r.cTokenSymbol == m.cTokenSymbol && r.cTokenDecimals == m.cTokenDecimals
    && r.underlyingName == m.underlyingName && r.underlyingSymbol == m.underlyingSymbol
    && r.underlyingAddress == m.underlyingAddress && r.underlyingDecimals == m.underlyingDecimals
  }

  lemma RefreshKeepsDescriptors(m: Market, protocol: Option<Protocol>, chain: Chain, blockNumber: Block)
    requires m.cTokenDecimals != 0
    ensures match RefreshMarket(m, protocol, chain, blockNumber)
      case None => true
      case Some(r) => SameDescriptors(m, r) && r.utalization == m.utalization && r.supplyApy == m.supplyApy
  {
  }

  /** A missing market, or one already updated at this block number, is left as it is. */
  lemma UpdateMarketGate(s: StoreState, marketAddress: Address, blockNumber: Block, chain: Chain)
    requires marketAddress in s.markets ==> s.markets[marketAddress].cTokenDecimals != 0
    requires marketAddress !in s.markets || s.markets[marketAddress].latestBlockNumber == blockNumber
    ensures UpdateMarketState(s, marketAddress, blockNumber, chain) == s
  {
  }

  /** The update aborts exactly when the regime's reference price resolves to zero. */
  lemma AbortsOnZeroReferencePrice(m: Market, protocol: Option<Protocol>, chain: Chain, blockNumber: Block)
    requires m.cTokenDecimals != 0
    ensures RefreshMarket(m, protocol, chain, blockNumber).None? <==>
      if blockNumber > USD_PRICE_BASE_BLOCK_NUMBER then GetEthInUsd(protocol, chain, blockNumber) == 0.0
      else GetUsdcPriceEth(protocol, chain, blockNumber) == 0.0
  {
  }

  /** Without a protocol entity every price resolves to zero, so the update never saves. */
  lemma NoProtocolNoUpdate(s: StoreState, marketAddress: Address, blockNumber: Block, chain: Chain)
    requires marketAddress in s.markets ==> s.markets[marketAddress].cTokenDecimals != 0
    requires s.protocol.None?
    ensures UpdateMarketState(s, marketAddress, blockNumber, chain) == s
  {
  }

  /** The USD regime's price fields, market by market. */
  lemma UsdRegimePrices(m: Market, protocol: Option<Protocol>, chain: Chain, blockNumber: Block)
    requires blockNumber > USD_PRICE_BASE_BLOCK_NUMBER
    requires GetEthInUsd(protocol, chain, blockNumber) != 0.0
    ensures PricedMarket(m, protocol, chain, blockNumber).Some?
    ensures
      var r := PricedMarket(m, protocol, chain, blockNumber).value;
      var ethUsd := GetEthInUsd(protocol, chain, blockNumber);
      var tokenUsd := GetTokenPrice(protocol, chain, blockNumber, m.id, m.underlyingAddress, m.underlyingDecimals);
      && (m.id == CETH_ADDRESS ==> r == m.(usdcPerUnderlying := ethUsd))
      && (m.id != CETH_ADDRESS ==> r.ethPerUnderlying * ethUsd == tokenUsd)
      && (m.id == CUSDC_ADDRESS ==> r.usdcPerUnderlying == m.usdcPerUnderlying)
      && (m.id != CETH_ADDRESS && m.id != CUSDC_ADDRESS ==> r.usdcPerUnderlying == tokenUsd)
  {
    assert CETH_ADDRESS[2] != CUSDC_ADDRESS[2];
  }

  /** The ETH regime's price fields, market by market. */
  lemma EthRegimePrices(m: Market, protocol: Option<Protocol>, chain: Chain, blockNumber: Block)
    requires blockNumber <= USD_PRICE_BASE_BLOCK_NUMBER
    requires GetUsdcPriceEth(protocol, chain, blockNumber) != 0.0
    ensures PricedMarket(m, protocol, chain, blockNumber).Some?
    ensures
      var r := PricedMarket(m, protocol, chain, blockNumber).value;
      var usdInEth := GetUsdcPriceEth(protocol, chain, blockNumber);
      var tokenEth := GetTokenPrice(protocol, chain, blockNumber, m.id, m.underlyingAddress, m.underlyingDecimals);
      && (m.id == CETH_ADDRESS ==> r == m.(usdcPerUnderlying := m.ethPerUnderlying / usdInEth))
      && (m.id != CETH_ADDRESS ==> r.ethPerUnderlying == tokenEth)
      && (m.id == CUSDC_ADDRESS ==> r.usdcPerUnderlying == m.usdcPerUnderlying)
      && (m.id != CETH_ADDRESS && m.id != CUSDC_ADDRESS ==> r.usdcPerUnderlying * usdInEth == tokenEth)
  {
    assert CETH_ADDRESS[2] != CUSDC_ADDRESS[2];
  }

  /** The price step is a fixpoint: priced twice is priced once. */
  lemma PricedFixpoint(m: Market, protocol: Option<Protocol>, chain: Chain, blockNumber: Block)
    requires PricedMarket(m, protocol, chain, blockNumber).Some?
    ensures
      var p := PricedMarket(m, protocol, chain, blockNumber).value;
      PricedMarket(p, protocol, chain, blockNumber) == Some(p)
  {
  }

  /** The price step reads only descriptors and prices, which the contract step does not write. */
  lemma NewPricesIgnoreContractFields(m: Market, c: ContractFields, protocol: Option<Protocol>, chain: Chain,
                                      blockNumber: Block)
    ensures NewPrices(WithContract(m, c), protocol, chain, blockNumber) == NewPrices(m, protocol, chain, blockNumber)
  {
    var w := WithContract(m, c);
    assert w.id == m.id && w.underlyingAddress == m.underlyingAddress && w.underlyingDecimals == m.underlyingDecimals;
    assert PricesOf(w) == PricesOf(m);
  }

  /** The contract reads use only descriptors, which the price step does not write. */
  lemma ContractReadsIgnorePrices(m: Market, p: Prices, chain: Chain, blockNumber: Block)
    requires m.cTokenDecimals != 0
    ensures WithPrices(m, p).cTokenDecimals != 0
    ensures ContractReads(WithPrices(m, p), chain, blockNumber) == ContractReads(m, chain, blockNumber)
  {
    var w := WithPrices(m, p);
    assert w.id == m.id && w.cTokenDecimals == m.cTokenDecimals && w.underlyingDecimals == m.underlyingDecimals;
  }

  /** The price step neither reads nor writes the fields the contract step writes. */
  lemma PricingCommutesWithContractState(m: Market, protocol: Option<Protocol>, chain: Chain, blockNumber: Block)
    requires m.cTokenDecimals != 0
    requires PricedMarket(m, protocol, chain, blockNumber).Some?
    ensures
      var p := PricedMarket(m, protocol, chain, blockNumber).value;
      p.cTokenDecimals != 0 &&
      PricedMarket(WithContractState(m, chain, blockNumber), protocol, chain, blockNumber)
        == Some(WithContractState(p, chain, blockNumber))
  {
    var c := ContractReads(m, chain, blockNumber);
    var pr := NewPrices(m, protocol, chain, blockNumber).value;
    NewPricesIgnoreContractFields(m, c, protocol, chain, blockNumber);
    ContractReadsIgnorePrices(m, pr, chain, blockNumber);
    assert WithPrices(WithContract(m, c), pr) == WithContract(WithPrices(m, pr), c);
  }

  /** The contract step rewrites its fields from the same reads, so applying it twice changes nothing. */
  lemma ContractStateIdempotent(m: Market, chain: Chain, blockNumber: Block)
    requires m.cTokenDecimals != 0
    ensures
      var c := WithContractState(m, chain, blockNumber);
      c.cTokenDecimals != 0 && WithContractState(c, chain, blockNumber) == c
  {
  }

  /**
   * Re-running the refresh on its own result with the same pinned reads gives the
   * same market: the update re-derives every field from reads, never from deltas.
   */
  lemma RefreshIdempotent(m: Market, protocol: Option<Protocol>, chain: Chain, blockNumber: Block)
    requires m.cTokenDecimals != 0
    requires RefreshMarket(m, protocol, chain, blockNumber).Some?
    ensures
      var r := RefreshMarket(m, protocol, chain, blockNumber).value;
      r.cTokenDecimals != 0 && RefreshMarket(r, protocol, chain, blockNumber) == Some(r)
  {
    var p := PricedMarket(m, protocol, chain, blockNumber).value;
    var r := WithContractState(p, chain, blockNumber);
    PricedFixpoint(m, protocol, chain, blockNumber);
    PricingCommutesWithContractState(p, protocol, chain, blockNumber);
    ContractStateIdempotent(p, chain, blockNumber);
    assert PricedMarket(r, protocol, chain, blockNumber) == Some(r);
  }

  /**
   * A second update in the same block leaves the store as the first left it,
   * whether or not the gate stops it (the saved latestBlockNumber is the
   * contract's accrual block, which may differ from the argument).
   */
  lemma UpdateMarketIdempotent(s: StoreState, marketAddress: Address, blockNumber: Block, chain: Chain)
    requires marketAddress in s.markets ==> s.markets[marketAddress].cTokenDecimals != 0
    ensures
      var s1 := UpdateMarketState(s, marketAddress, blockNumber, chain);
      (marketAddress in s1.markets ==> s1.markets[marketAddress].cTokenDecimals != 0)
      && UpdateMarketState(s1, marketAddress, blockNumber, chain) == s1
  {
    if marketAddress in s.markets && s.markets[marketAddress].latestBlockNumber != blockNumber {
      var m := s.markets[marketAddress];
      if RefreshMarket(m, s.protocol, chain, blockNumber).Some? {
        RefreshIdempotent(m, s.protocol, chain, blockNumber);
        var r := RefreshMarket(m, s.protocol, chain, blockNumber).value;
        var s1 := s.(markets := s.markets[marketAddress := r]);
        assert s1 == UpdateMarketState(s, marketAddress, blockNumber, chain);
        assert s1.markets[marketAddress] == r && s1.protocol == s.protocol;
        if r.latestBlockNumber != blockNumber {
          assert UpdateMarketState(s1, marketAddress, blockNumber, chain)
              == s1.(markets := s1.markets[marketAddress := r]);
          assert s1.markets[marketAddress := r] == s1.markets;
        }
      }
    }
  }

  /** The update writes only the one market's record, and keeps its descriptors. */
  lemma UpdateMarketFrame(s: StoreState, marketAddress: Address, blockNumber: Block, chain: Chain)
    requires marketAddress in s.markets ==> s.markets[marketAddress].cTokenDecimals != 0
    ensures
      var s1 := UpdateMarketState(s, marketAddress, blockNumber, chain);
      && s1.(markets := s.markets) == s
      && s1.markets.Keys == s.markets.Keys
      && (forall k :: k in s.markets && k != marketAddress ==> s1.markets[k] == s.markets[k])
      && (marketAddress in s.markets ==> SameDescriptors(s.markets[marketAddress], s1.markets[marketAddress]))
  {
    if marketAddress in s.markets {
      RefreshKeepsDescriptors(s.markets[marketAddress], s.protocol, chain, blockNumber);
    }
  }

  lemma UpdateMarketPreservesValid(s: StoreState, marketAddress: Address, blockNumber: Block, chain: Chain)
    requires Valid(s)
    ensures Valid(UpdateMarketState(s, marketAddress, blockNumber, chain))
  {
    UpdateMarketFrame(s, marketAddress, blockNumber, chain);
  }
}
