/**
 * The Comptroller event handlers (src/mapping/comptroller.ts): listing a new
 * market, and recording a new price oracle. Both create the protocol when it
 * is missing.
 */
module Comptroller {
  import opened Wrappers
  import opened Constants
  import opened Contracts
  import opened Schema
  import opened EntityStore
  import MarketHelpers
  import ProtocolHelpers

  /** The oracle a protocol created while listing a market starts with: oracle 2 after the switch block. */
  function ListingOracle(blockNumber: Block): (oracle: Address)
    ensures blockNumber <= PRICE_ORACLE_1_CHANGED_TO_2_BLOCK_NUMBER ==> oracle == PRICE_ORACLE_1_ADDRESS
    ensures blockNumber > PRICE_ORACLE_1_CHANGED_TO_2_BLOCK_NUMBER ==> oracle == PRICE_ORACLE_2_LISTING_ADDRESS
  {
    if blockNumber > PRICE_ORACLE_1_CHANGED_TO_2_BLOCK_NUMBER then PRICE_ORACLE_2_LISTING_ADDRESS
    else PRICE_ORACLE_1_ADDRESS
  }

  predicate IsHexDigit(c: char)
  {
    '0' <= c <= '9' || 'a' <= c <= 'f' || 'A' <= c <= 'F'
  }

  /** An address in its text form: `0x` and exactly forty hex digits. */
  predicate IsHexAddress(a: string)
  {
    |a| == 42 && a[0] == '0' && a[1] == 'x' && forall i :: 2 <= i < 42 ==> IsHexDigit(a[i])
  }

  /**
   * The oracle 1 address is well formed, but the oracle 2 string a listing
   * after the switch block uses is not an address: it is a well-formed one
   * followed by a space.
   */
  lemma ListingOracleMalformedAfterSwitch(blockNumber: Block)
    ensures blockNumber <= PRICE_ORACLE_1_CHANGED_TO_2_BLOCK_NUMBER ==> IsHexAddress(ListingOracle(blockNumber))
    ensures blockNumber > PRICE_ORACLE_1_CHANGED_TO_2_BLOCK_NUMBER ==>
      var oracle := ListingOracle(blockNumber);
      && !IsHexAddress(oracle) && |oracle| == 43 && oracle[42] == ' ' && IsHexAddress(oracle[..42])
  {
    var oracle := ListingOracle(blockNumber);
    if blockNumber > PRICE_ORACLE_1_CHANGED_TO_2_BLOCK_NUMBER {
      assert oracle[..42] == "0x6d2299c48a8dd07a872fdd0f8233924872ad1071";
    }
  }

  /** The protocol as loaded, or the one created when the store has none. */
  function LoadOrCreateProtocol(s: StoreState, oracle: Address, blockNumber: Block): Protocol
  {
    if s.protocol.Some? then s.protocol.value else ProtocolHelpers.CreateProtocol(oracle, blockNumber)
  }

  /**
   * The store after `handleMarketListed`: the market built by `createMarket`
   * saved under its address (replacing any earlier one) and its id appended to
   * the protocol's list. A protocol created after the switch block records the
   * oracle 2 string as written, which is not a well-formed address
   * (ListingOracleMalformedAfterSwitch).
   */
  function MarketListedState(s: StoreState, chain: Chain, cToken: Address, blockNumber: Block): StoreState
  {
    var protocol := LoadOrCreateProtocol(s, ListingOracle(blockNumber), blockNumber);
    var market := MarketHelpers.CreateMarket(chain, cToken, blockNumber, s.unassigned);
    s.(markets := s.markets[market.id := market],
       protocol := Some(protocol.(markets := protocol.markets + [market.id])))
  }

  /** `handleMarketListed`. */
  method HandleMarketListed(st: Store, chain: Chain, cToken: Address, blockNumber: Block)
    modifies st`protocol, st`markets
    ensures st.Snapshot() == MarketListedState(old(st.Snapshot()), chain, cToken, blockNumber)
  {
    var protocol;
    if st.protocol.None? {
      var oracleAddress := PRICE_ORACLE_1_ADDRESS;
      if blockNumber > PRICE_ORACLE_1_CHANGED_TO_2_BLOCK_NUMBER {
        oracleAddress := PRICE_ORACLE_2_LISTING_ADDRESS;
      }
      protocol := ProtocolHelpers.CreateProtocol(oracleAddress, blockNumber);
    } else {
      protocol := st.protocol.value;
    }
    var market := MarketHelpers.CreateMarket(chain, cToken, blockNumber, st.unassigned);
    var marketList := protocol.markets;
    marketList := marketList + [market.id];
    protocol := protocol.(markets := marketList);
    st.markets := st.markets[market.id := market];
    st.protocol := Some(protocol);
  }

  /**
   * Listing writes the new market and the protocol only: the list keeps its
   * old entries and gains exactly the new id at the end, every other market
   * is kept, and an existing protocol keeps everything but its list.
   */
  lemma MarketListedFrame(s: StoreState, chain: Chain, cToken: Address, blockNumber: Block)
    ensures
      var r := MarketListedState(s, chain, cToken, blockNumber);
      && r.(markets := s.markets, protocol := s.protocol) == s
      && ListedMarkets(r) == ListedMarkets(s) + [cToken]
      && r.markets == s.markets[cToken := MarketHelpers.CreateMarket(chain, cToken, blockNumber, s.unassigned)]
      && (s.protocol.Some? ==> r.protocol.value.(markets := s.protocol.value.markets) == s.protocol.value)
  {
  }

  /** A protocol created by a listing starts with the oracle of the block's era and lists only this market. */
  lemma MarketListedCreatesProtocol(s: StoreState, chain: Chain, cToken: Address, blockNumber: Block)
    requires s.protocol.None?
    ensures
      var p := MarketListedState(s, chain, cToken, blockNumber).protocol.value;
      && p.id == PROTOCOL_ID && p.markets == [cToken]
      && p.priceOracle == ListingOracle(blockNumber)
      && p.lastNewOracleBlockNumber == blockNumber && p.latestBlockNumber == blockNumber
      && p.totalSupplyUsd == 0.0 && p.totalBorrowUsd == 0.0 && p.totalReservesUsd == 0.0
  {
  }

  /**
   * A second listing of the same market is not filtered: the market is rebuilt
   * from scratch (its prices and totals reset) and its id appears once more.
   */
  lemma RelistingResetsMarket(s: StoreState, chain: Chain, cToken: Address, blockNumber: Block)
    requires cToken in s.markets && cToken in ListedMarkets(s)
    ensures
      var r := MarketListedState(s, chain, cToken, blockNumber);
      && MarketHelpers.ZeroedDynamics(r.markets[cToken])
      && r.markets[cToken].creationBlockNumber == blockNumber
      && multiset(ListedMarkets(r))[cToken] == multiset(ListedMarkets(s))[cToken] + 1
      && multiset(ListedMarkets(s))[cToken] >= 1
  {
    MarketListedFrame(s, chain, cToken, blockNumber);
  }

  /** With a usable decimals count on the new cToken, listing keeps the store invariant. */
  lemma MarketListedPreservesValid(s: StoreState, chain: Chain, cToken: Address, blockNumber: Block)
    requires Valid(s)
    requires chain.decimals(cToken, blockNumber) != 0
    ensures Valid(MarketListedState(s, chain, cToken, blockNumber))
  {
    var r := MarketListedState(s, chain, cToken, blockNumber);
    var m := MarketHelpers.CreateMarket(chain, cToken, blockNumber, s.unassigned);
    var p := LoadOrCreateProtocol(s, ListingOracle(blockNumber), blockNumber);
    var listed := p.markets + [cToken];
    assert m.id == cToken && m.cTokenDecimals != 0;
    assert r == s.(markets := s.markets[cToken := m], protocol := Some(p.(markets := listed)));
    assert p.markets == ListedMarkets(s);
    assert MarketsAreListed(r) by {
      forall id
        ensures id in r.markets <==> id in listed
      {
        assert id in listed <==> id in p.markets || id == cToken;
      }
    }
    ValidAfterMarketWrite(s, r);
  }

  /** The store after `handleNewPriceOracle`: the protocol (created if absent) points at the new oracle. */
  function NewPriceOracleState(s: StoreState, newPriceOracle: Address, blockNumber: Block): StoreState
  {
    var protocol := LoadOrCreateProtocol(s, newPriceOracle, blockNumber);
    s.(protocol := Some(protocol.(priceOracle := newPriceOracle, lastNewOracleBlockNumber := blockNumber)))
  }

  /** `handleNewPriceOracle`. */
  method HandleNewPriceOracle(st: Store, newPriceOracle: Address, blockNumber: Block)
    modifies st`protocol
    ensures st.Snapshot() == NewPriceOracleState(old(st.Snapshot()), newPriceOracle, blockNumber)
  {
    var protocol;
    if st.protocol.None? {
      protocol := ProtocolHelpers.CreateProtocol(newPriceOracle, blockNumber);
    } else {
      protocol := st.protocol.value;
    }
    protocol := protocol.(priceOracle := newPriceOracle);
    protocol := protocol.(lastNewOracleBlockNumber := blockNumber);
    st.protocol := Some(protocol);
  }

  /**
   * Only the protocol changes, and in an existing protocol only the oracle and
   * its block: the listed markets and the USD totals are kept.
   */
  lemma NewPriceOracleFrame(s: StoreState, newPriceOracle: Address, blockNumber: Block)
    ensures
      var r := NewPriceOracleState(s, newPriceOracle, blockNumber);
      && r.(protocol := s.protocol) == s
      && r.protocol.Some?
      && r.protocol.value.priceOracle == newPriceOracle
      && r.protocol.value.lastNewOracleBlockNumber == blockNumber
      && (s.protocol.Some? ==>
            r.protocol.value.(priceOracle := s.protocol.value.priceOracle,
                              lastNewOracleBlockNumber := s.protocol.value.lastNewOracleBlockNumber)
            == s.protocol.value)
      && (s.protocol.None? ==> ListedMarkets(r) == [])
  {
  }

  /** Announcing the same oracle twice at one block is the same as announcing it once. */
  lemma NewPriceOracleIdempotent(s: StoreState, newPriceOracle: Address, blockNumber: Block)
    ensures
      var r := NewPriceOracleState(s, newPriceOracle, blockNumber);
      NewPriceOracleState(r, newPriceOracle, blockNumber) == r
  {
  }

  lemma NewPriceOraclePreservesValid(s: StoreState, newPriceOracle: Address, blockNumber: Block)
    requires Valid(s)
    ensures Valid(NewPriceOracleState(s, newPriceOracle, blockNumber))
  {
    var r := NewPriceOracleState(s, newPriceOracle, blockNumber);
    assert ListedMarkets(r) == ListedMarkets(s);
  }
}
