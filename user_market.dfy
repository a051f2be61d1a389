/**
 * A user's position in one market (src/mapping-helpers/userMarket.ts):
 * creation, and the balance refresh that lazily creates the user and the
 * position and re-reads the balances at the block.
 */
module UserMarketHelpers {
  import opened Wrappers
  import opened Contracts
  import opened Schema
  import opened Utils
  import opened EntityStore
  import opened UserHelpers

  /** The position `createUserMarket` builds, keyed by user id ++ market id, outside the market at zero. */
  function NewUserMarket(userId: Address, marketId: Address, blockNumber: Block): (um: UserMarket)
    ensures um.id == userId + marketId && um.user == userId && um.market == marketId
    ensures um.creationBlockNumber == blockNumber && um.latestBlockNumber == blockNumber
    ensures !um.enteredMarket
    ensures um.totalSupply == 0.0 && um.totalBorrow == 0.0 && um.cTokenBalance == 0.0
  {
    UserMarket(userId + marketId, userId, marketId, blockNumber, blockNumber, false, 0.0, 0.0, 0.0)
  }

  function CreateUserMarketState(s: StoreState, userId: Address, marketId: Address, blockNumber: Block): StoreState
  {
    s.(userMarkets := s.userMarkets[userId + marketId := NewUserMarket(userId, marketId, blockNumber)])
  }

  /** `createUserMarket`: builds the position, saves it and returns it. */
  method CreateUserMarket(st: Store, userAddress: Address, marketAddress: Address, blockNumber: Block)
    returns (userMarket: UserMarket)
    modifies st`userMarkets
    ensures userMarket == NewUserMarket(userAddress, marketAddress, blockNumber)
    ensures st.Snapshot() == CreateUserMarketState(old(st.Snapshot()), userAddress, marketAddress, blockNumber)
  {
    var userId := userAddress;
    var marketId := marketAddress;
    var userMarketId := userId + marketId;
    userMarket := UserMarket(userMarketId, userId, marketId, blockNumber, blockNumber, false, 0.0, 0.0, 0.0);
    st.userMarkets := st.userMarkets[userMarketId := userMarket];
  }

  /**
   * The refreshed position: latest block set; on a successful balanceOf the
   * cToken balance is re-read at the cToken decimals and the supply is that
   * balance times underlyingPerCToken; on a successful borrowBalanceCurrent the
   * borrow is re-read at the underlying decimals. A reverted read keeps the old
   * values. Nothing else changes.
   */
  function RefreshBalances(um: UserMarket, market: Market, chain: Chain, userAddress: Address,
                           marketAddress: Address, blockNumber: Block): (r: UserMarket)
    ensures r.latestBlockNumber == blockNumber
    ensures match chain.tryBalanceOf(marketAddress, userAddress, blockNumber)
      case None => r.cTokenBalance == um.cTokenBalance && r.totalSupply == um.totalSupply
      case Some(balance) =>
        && r.cTokenBalance * Pow10(market.cTokenDecimals) == balance as real
        && r.totalSupply == r.cTokenBalance * market.underlyingPerCToken
    ensures match chain.tryBorrowBalanceCurrent(marketAddress, userAddress, blockNumber)
      case None => r.totalBorrow == um.totalBorrow
      case Some(borrow) => r.totalBorrow * Pow10(market.underlyingDecimals) == borrow as real
    ensures r.(latestBlockNumber := um.latestBlockNumber, cTokenBalance := um.cTokenBalance,
               totalSupply := um.totalSupply, totalBorrow := um.totalBorrow) == um
  {
    var withSupply := match chain.tryBalanceOf(marketAddress, userAddress, blockNumber)
      case None => um
      case Some(balance) =>
        var cTokenBalance := TokenAmountToDecimal(balance, market.cTokenDecimals);
        um.(cTokenBalance := cTokenBalance, totalSupply := cTokenBalance * market.underlyingPerCToken);
    var withBorrow := match chain.tryBorrowBalanceCurrent(marketAddress, userAddress, blockNumber)
      case None => withSupply
      case Some(borrow) => withSupply.(totalBorrow := TokenAmountToDecimal(borrow, market.underlyingDecimals));
    withBorrow.(latestBlockNumber := blockNumber)
  }

  /** The user, created and saved when absent. */
  function EnsureUser(s: StoreState, userAddress: Address, blockNumber: Block): (r: StoreState)
    ensures r.(users := s.users) == s
    ensures userAddress in r.users
  {
    if userAddress in s.users then s else CreateUserState(s, userAddress, blockNumber)
  }

  /** The position, created and saved when absent. */
  function EnsureUserMarket(s: StoreState, userAddress: Address, marketAddress: Address, blockNumber: Block)
    : (r: StoreState)
    ensures r.(userMarkets := s.userMarkets) == s
    ensures userAddress + marketAddress in r.userMarkets
  {
    if userAddress + marketAddress in s.userMarkets then s
    else CreateUserMarketState(s, userAddress, marketAddress, blockNumber)
  }

  /**
   * The store after `updateUserMarketBalance(user, market, block)`: nothing when
   * the market is absent; otherwise the user and the position are created if
   * absent and the position's balances refreshed.
   */
  function UpdateUserMarketBalanceState(s: StoreState, userAddress: Address, marketAddress: Address,
                                        blockNumber: Block, chain: Chain): (r: StoreState)
    ensures r.markets == s.markets && r.protocol == s.protocol
  {
    if marketAddress !in s.markets then s
    else
      var key := userAddress + marketAddress;
      var withRow := EnsureUserMarket(EnsureUser(s, userAddress, blockNumber), userAddress, marketAddress, blockNumber);
      var refreshed := RefreshBalances(withRow.userMarkets[key], s.markets[marketAddress], chain,
                                       userAddress, marketAddress, blockNumber);
      withRow.(userMarkets := withRow.userMarkets[key := refreshed])
  }

  /** `updateUserMarketBalance`. */
  method UpdateUserMarketBalance(st: Store, userAddress: Address, marketAddress: Address, blockNumber: Block,
                                 chain: Chain)
    modifies st`users, st`userMarkets
    ensures st.Snapshot()
         == UpdateUserMarketBalanceState(old(st.Snapshot()), userAddress, marketAddress, blockNumber, chain)
  {
    var userId := userAddress;
    var marketId := marketAddress;
    var userMarketId := userId + marketId;
    if marketId !in st.markets {
      return;
    }
    var market := st.markets[marketId];
    if userId !in st.users {
      var user := CreateUser(st, userAddress, blockNumber);
      st.users := st.users[user.id := user];
    }
    assert st.Snapshot() == EnsureUser(old(st.Snapshot()), userAddress, blockNumber);
    var userMarket;
    if userMarketId in st.userMarkets {
      userMarket := st.userMarkets[userMarketId];
    } else {
      userMarket := CreateUserMarket(st, userAddress, marketAddress, blockNumber);
    }
    ghost var loaded := userMarket;
    assert st.Snapshot() == EnsureUserMarket(EnsureUser(old(st.Snapshot()), userAddress, blockNumber),
                                             userAddress, marketAddress, blockNumber);
    assert st.userMarkets[userMarketId] == loaded;
    userMarket := ReadBalances(userMarket, market, chain, userAddress, marketAddress, blockNumber);
    st.userMarkets := st.userMarkets[userMarketId := userMarket];
  }

  /** The balance part of `updateUserMarketBalance`: the block, then each read that succeeds. */
  method ReadBalances(loaded: UserMarket, market: Market, chain: Chain, userAddress: Address,
                      marketAddress: Address, blockNumber: Block) returns (userMarket: UserMarket)
    ensures userMarket == RefreshBalances(loaded, market, chain, userAddress, marketAddress, blockNumber)
  {
    userMarket := loaded.(latestBlockNumber := blockNumber);
    var tryBalanceOf := chain.tryBalanceOf(marketAddress, userAddress, blockNumber);
    if tryBalanceOf.Some? {
      userMarket := userMarket.(cTokenBalance := TokenAmountToDecimal(tryBalanceOf.value, market.cTokenDecimals));
      userMarket := userMarket.(totalSupply := userMarket.cTokenBalance * market.underlyingPerCToken);
    }
    var tryBorrowBalance := chain.tryBorrowBalanceCurrent(marketAddress, userAddress, blockNumber);
    if tryBorrowBalance.Some? {
      userMarket := userMarket.(totalBorrow := TokenAmountToDecimal(tryBorrowBalance.value, market.underlyingDecimals));
    }
  }

  /** Without the market nothing is created or changed: no user and no position. */
  lemma AbsentMarketNoChange(s: StoreState, userAddress: Address, marketAddress: Address, blockNumber: Block,
                             chain: Chain)
    requires marketAddress !in s.markets
    ensures UpdateUserMarketBalanceState(s, userAddress, marketAddress, blockNumber, chain) == s
  {
  }

  /** With the market present, the user is created only if absent, and no other entity changes. */
  lemma UpdateUserMarketBalanceFrame(s: StoreState, userAddress: Address, marketAddress: Address,
                                     blockNumber: Block, chain: Chain)
    requires marketAddress in s.markets
    ensures
      var r := UpdateUserMarketBalanceState(s, userAddress, marketAddress, blockNumber, chain);
      && r.(users := s.users, userMarkets := s.userMarkets) == s
      && r.users == (if userAddress in s.users then s.users
                     else s.users[userAddress := NewUser(userAddress, blockNumber)])
  {
  }

  /** Only the position under user ++ market is written; every other position is kept. */
  lemma UpdateUserMarketBalanceKeys(s: StoreState, userAddress: Address, marketAddress: Address,
                                    blockNumber: Block, chain: Chain)
    requires marketAddress in s.markets
    ensures
      var r := UpdateUserMarketBalanceState(s, userAddress, marketAddress, blockNumber, chain);
      var key := userAddress + marketAddress;
      && r.userMarkets.Keys == s.userMarkets.Keys + {key}
      && (forall k :: k in s.userMarkets && k != key ==> r.userMarkets[k] == s.userMarkets[k])
  {
  }

  /**
   * The written position carries the block; an existing one keeps its id,
   * creation block and entered flag, and a new one is NewUserMarket apart from
   * the balances just read.
   */
  lemma UpdateUserMarketBalanceRow(s: StoreState, userAddress: Address, marketAddress: Address,
                                   blockNumber: Block, chain: Chain)
    requires marketAddress in s.markets
    ensures
      var r := UpdateUserMarketBalanceState(s, userAddress, marketAddress, blockNumber, chain);
      var key := userAddress + marketAddress;
      && key in r.userMarkets
      && r.userMarkets[key].latestBlockNumber == blockNumber
      && (key in s.userMarkets ==>
            && r.userMarkets[key].creationBlockNumber == s.userMarkets[key].creationBlockNumber
            && r.userMarkets[key].enteredMarket == s.userMarkets[key].enteredMarket
            && r.userMarkets[key].id == s.userMarkets[key].id)
      && (key !in s.userMarkets ==>
            var created := NewUserMarket(userAddress, marketAddress, blockNumber);
            r.userMarkets[key].(cTokenBalance := 0.0, totalSupply := 0.0, totalBorrow := 0.0) == created)
  {
  }

  /** Balances are overwritten from reads, not accumulated, so a refresh of a refresh changes nothing. */
  lemma RefreshBalancesIdempotent(um: UserMarket, market: Market, chain: Chain, userAddress: Address,
                                  marketAddress: Address, blockNumber: Block)
    ensures
      var r := RefreshBalances(um, market, chain, userAddress, marketAddress, blockNumber);
      RefreshBalances(r, market, chain, userAddress, marketAddress, blockNumber) == r
  {
  }

  /** A second call with the same reads and block leaves the store as the first left it. */
  lemma UpdateUserMarketBalanceIdempotent(s: StoreState, userAddress: Address, marketAddress: Address,
                                          blockNumber: Block, chain: Chain)
    ensures
      var r := UpdateUserMarketBalanceState(s, userAddress, marketAddress, blockNumber, chain);
      UpdateUserMarketBalanceState(r, userAddress, marketAddress, blockNumber, chain) == r
  {
    if marketAddress in s.markets {
      var r := UpdateUserMarketBalanceState(s, userAddress, marketAddress, blockNumber, chain);
      var key := userAddress + marketAddress;
      UpdateUserMarketBalanceFrame(s, userAddress, marketAddress, blockNumber, chain);
      UpdateUserMarketBalanceRow(s, userAddress, marketAddress, blockNumber, chain);
      assert r.markets == s.markets && userAddress in r.users;
      assert EnsureUser(r, userAddress, blockNumber) == r;
      assert EnsureUserMarket(r, userAddress, marketAddress, blockNumber) == r;
      var row := r.userMarkets[key];
      RefreshBalancesIdempotent(row, s.markets[marketAddress], chain, userAddress, marketAddress, blockNumber);
      assert r.userMarkets[key := row] == r.userMarkets;
    }
  }

  lemma UpdateUserMarketBalancePreservesValid(s: StoreState, userAddress: Address, marketAddress: Address,
                                              blockNumber: Block, chain: Chain)
    requires Valid(s)
    ensures Valid(UpdateUserMarketBalanceState(s, userAddress, marketAddress, blockNumber, chain))
  {
    if marketAddress in s.markets {
      var r := UpdateUserMarketBalanceState(s, userAddress, marketAddress, blockNumber, chain);
      var key := userAddress + marketAddress;
      UpdateUserMarketBalanceFrame(s, userAddress, marketAddress, blockNumber, chain);
      UpdateUserMarketBalanceKeys(s, userAddress, marketAddress, blockNumber, chain);
      UpdateUserMarketBalanceRow(s, userAddress, marketAddress, blockNumber, chain);
      var row := r.userMarkets[key];
      if key in s.userMarkets {
        var um := s.userMarkets[key];
        assert row.(latestBlockNumber := um.latestBlockNumber, cTokenBalance := um.cTokenBalance,
                    totalSupply := um.totalSupply, totalBorrow := um.totalBorrow) == um;
      } else {
        assert row.(cTokenBalance := 0.0, totalSupply := 0.0, totalBorrow := 0.0)
            == NewUserMarket(userAddress, marketAddress, blockNumber);
      }
      assert row.id == key && key == row.user + row.market && row.user in r.users && row.market in r.markets;
      PositionsLinkedAfterWrite(s, r, key);
      ValidAfterPositionWrite(s, r);
    }
  }

  /** Rewriting one position keeps the positions linked when the written row is itself linked. */
  lemma PositionsLinkedAfterWrite(s: StoreState, r: StoreState, key: string)
    requires UserMarketsAreLinked(s)
    requires r.userMarkets.Keys == s.userMarkets.Keys + {key}
    requires forall k :: k in s.userMarkets && k != key ==> r.userMarkets[k] == s.userMarkets[k]
    requires s.users.Keys <= r.users.Keys && s.markets.Keys <= r.markets.Keys
    requires
      var row := r.userMarkets[key];
      row.id == key && key == row.user + row.market && row.user in r.users && row.market in r.markets
    ensures UserMarketsAreLinked(r)
  {
    forall k | k in r.userMarkets
      ensures r.userMarkets[k].id == k && k == r.userMarkets[k].user + r.userMarkets[k].market
      ensures r.userMarkets[k].user in r.users && r.userMarkets[k].market in r.markets
    {
      if k != key {
        assert r.userMarkets[k] == s.userMarkets[k];
      }
    }
  }
}
