/**
 * The entity store the handlers load from and save to. `Store` holds one map
 * per entity type (the protocol is a singleton); `StoreState` is the value of
 * the whole store, which the specification functions of the operations take
 * and return.
 */
module EntityStore {
  import opened Wrappers
  import opened Schema
  import opened Constants

  datatype StoreState = StoreState(
    /** What a field that was never assigned reads as. */
    unassigned: real,
    protocol: Option<Protocol>,
    markets: map<string, Market>,
    users: map<string, User>,
    userMarkets: map<string, UserMarket>,
    hourData: map<string, MarketBucket>,
    dayData: map<string, MarketBucket>,
    weekData: map<string, MarketBucket>,
    protocolWeekData: map<string, ProtocolBucket>,
    mints: map<string, Mint>,
    redeems: map<string, Redeem>,
    borrows: map<string, Borrow>,
    repayBorrows: map<string, RepayBorrow>,
    transfers: map<string, Transfer>,
    liquidations: map<string, Liquidation>
  )

  function EmptyState(unassigned: real): StoreState
  {
    StoreState(unassigned, None, map[], map[], map[], map[], map[], map[], map[],
               map[], map[], map[], map[], map[], map[])
  }

  class Store {
    const unassigned: real
    var protocol: Option<Protocol>
    var markets: map<string, Market>
    var users: map<string, User>
    var userMarkets: map<string, UserMarket>
    var hourData: map<string, MarketBucket>
    var dayData: map<string, MarketBucket>
    var weekData: map<string, MarketBucket>
    var protocolWeekData: map<string, ProtocolBucket>
    var mints: map<string, Mint>
    var redeems: map<string, Redeem>
    var borrows: map<string, Borrow>
    var repayBorrows: map<string, RepayBorrow>
    var transfers: map<string, Transfer>
    var liquidations: map<string, Liquidation>

    constructor (unassigned: real)
      ensures Snapshot() == EmptyState(unassigned)
    {
      this.unassigned := unassigned;
      protocol := None;
      markets, users, userMarkets := map[], map[], map[];
      hourData, dayData, weekData, protocolWeekData := map[], map[], map[], map[];
      mints, redeems, borrows, repayBorrows, transfers, liquidations := map[], map[], map[], map[], map[], map[];
    }

    function Snapshot(): StoreState
      reads this
    {
      StoreState(unassigned, protocol, markets, users, userMarkets, hourData, dayData, weekData,
                 protocolWeekData, mints, redeems, borrows, repayBorrows, transfers, liquidations)
    }
  }

  /** The market ids the protocol lists, none while there is no protocol. */
  function ListedMarkets(s: StoreState): seq<string>
  {
    if s.protocol.Some? then s.protocol.value.markets else []
  }

  // The store invariant that event processing keeps.

  ghost predicate ProtocolIsSingleton(s: StoreState)
  {
    s.protocol.Some? ==> s.protocol.value.id == PROTOCOL_ID
  }

  /** A market is stored exactly when the protocol lists it. */
  ghost predicate MarketsAreListed(s: StoreState)
  {
    forall id :: id in s.markets <==> id in ListedMarkets(s)
  }

  /** Markets are stored under their own id and have a usable cToken decimals count. */
  ghost predicate MarketsAreKeyed(s: StoreState)
  {
    forall k :: k in s.markets ==> s.markets[k].id == k && s.markets[k].cTokenDecimals != 0
  }

  ghost predicate UsersAreKeyed(s: StoreState)
  {
    forall k :: k in s.users ==> s.users[k].id == k
  }

  /** A user-market is keyed by user id ++ market id, and both exist. */
  ghost predicate UserMarketsAreLinked(s: StoreState)
  {
    forall k :: k in s.userMarkets ==>
      var um := s.userMarkets[k];
      um.id == k && k == um.user + um.market && um.user in s.users && um.market in s.markets
  }

  ghost predicate MarketBucketsAreLinked(buckets: map<string, MarketBucket>, markets: map<string, Market>)
  {
    forall k :: k in buckets ==> buckets[k].id == k && buckets[k].market in markets
  }

  ghost predicate BucketsAreLinked(s: StoreState)
  {
    && MarketBucketsAreLinked(s.hourData, s.markets)
    && MarketBucketsAreLinked(s.dayData, s.markets)
    && MarketBucketsAreLinked(s.weekData, s.markets)
    && (forall k :: k in s.protocolWeekData ==> s.protocolWeekData[k].id == k)
  }

  // Event records are keyed by transaction hash and refer to positions that exist.

  ghost predicate MintsAreLinked(records: map<string, Mint>, positions: map<string, UserMarket>)
  {
    forall k :: k in records ==> records[k].id == k && records[k].userMarket in positions
  }

  ghost predicate RedeemsAreLinked(records: map<string, Redeem>, positions: map<string, UserMarket>)
  {
    forall k :: k in records ==> records[k].id == k && records[k].userMarket in positions
  }

  ghost predicate BorrowsAreLinked(records: map<string, Borrow>, positions: map<string, UserMarket>)
  {
    forall k :: k in records ==> records[k].id == k && records[k].userMarket in positions
  }

  ghost predicate RepayBorrowsAreLinked(records: map<string, RepayBorrow>, positions: map<string, UserMarket>)
  {
    forall k :: k in records ==> records[k].id == k && records[k].userMarket in positions
  }

  ghost predicate TransfersAreLinked(records: map<string, Transfer>, positions: map<string, UserMarket>)
  {
    forall k :: k in records ==>
      records[k].id == k && records[k].fromUserMarket in positions && records[k].toUserMarket in positions
  }

  ghost predicate LiquidationsAreLinked(records: map<string, Liquidation>, positions: map<string, UserMarket>)
  {
    forall k :: k in records ==>
      && records[k].id == k && records[k].borrowerUserLiquidationMarket in positions
      && records[k].borrowerUserSeizeMarket in positions && records[k].liquidatorUserMarket in positions
  }

  ghost predicate RecordsAreLinked(s: StoreState)
  {
    && MintsAreLinked(s.mints, s.userMarkets)
    && RedeemsAreLinked(s.redeems, s.userMarkets)
    && BorrowsAreLinked(s.borrows, s.userMarkets)
    && RepayBorrowsAreLinked(s.repayBorrows, s.userMarkets)
    && TransfersAreLinked(s.transfers, s.userMarkets)
    && LiquidationsAreLinked(s.liquidations, s.userMarkets)
  }

  ghost predicate Valid(s: StoreState)
  {
    && ProtocolIsSingleton(s)
    && MarketsAreListed(s)
    && MarketsAreKeyed(s)
    && UsersAreKeyed(s)
    && UserMarketsAreLinked(s)
    && BucketsAreLinked(s)
    && RecordsAreLinked(s)
  }

  /**
   * A write that only adds or rewrites users and positions keeps the store valid
   * as long as the users stay keyed and the positions stay linked.
   */
  lemma ValidAfterPositionWrite(s: StoreState, r: StoreState)
    requires Valid(s)
    requires r.(users := s.users, userMarkets := s.userMarkets) == s
    requires s.userMarkets.Keys <= r.userMarkets.Keys
    requires UsersAreKeyed(r) && UserMarketsAreLinked(r)
    ensures Valid(r)
  {
    assert r.markets == s.markets && r.protocol == s.protocol;
    assert r.hourData == s.hourData && r.dayData == s.dayData && r.weekData == s.weekData;
    assert r.protocolWeekData == s.protocolWeekData;
    assert r.mints == s.mints && r.redeems == s.redeems && r.borrows == s.borrows;
    assert r.repayBorrows == s.repayBorrows && r.transfers == s.transfers && r.liquidations == s.liquidations;
  }

  /** A write that only adds or rewrites history buckets keeps the store valid as long as they stay linked. */
  lemma ValidAfterBucketWrite(s: StoreState, r: StoreState)
    requires Valid(s)
    requires r.(hourData := s.hourData, dayData := s.dayData, weekData := s.weekData,
                protocolWeekData := s.protocolWeekData) == s
    requires BucketsAreLinked(r)
    ensures Valid(r)
  {
    assert r.markets == s.markets && r.protocol == s.protocol;
    assert r.users == s.users && r.userMarkets == s.userMarkets;
    assert r.mints == s.mints && r.redeems == s.redeems && r.borrows == s.borrows;
    assert r.repayBorrows == s.repayBorrows && r.transfers == s.transfers && r.liquidations == s.liquidations;
  }

  /**
   * A write that only adds or rewrites markets and the protocol keeps the store
   * valid as long as no market disappears and the market invariants hold.
   */
  lemma ValidAfterMarketWrite(s: StoreState, r: StoreState)
    requires Valid(s)
    requires r.(markets := s.markets, protocol := s.protocol) == s
    requires s.markets.Keys <= r.markets.Keys
    requires ProtocolIsSingleton(r) && MarketsAreListed(r) && MarketsAreKeyed(r)
    ensures Valid(r)
  {
    assert r.users == s.users && r.userMarkets == s.userMarkets;
    assert r.hourData == s.hourData && r.dayData == s.dayData && r.weekData == s.weekData;
    assert r.protocolWeekData == s.protocolWeekData;
    assert r.mints == s.mints && r.redeems == s.redeems && r.borrows == s.borrows;
    assert r.repayBorrows == s.repayBorrows && r.transfers == s.transfers && r.liquidations == s.liquidations;
  }

  // Logging one event record keeps the store valid when the record names positions that exist.

  lemma ValidAfterMintWrite(s: StoreState, key: string, record: Mint)
    requires Valid(s)
    requires record.id == key && record.userMarket in s.userMarkets
    ensures Valid(s.(mints := s.mints[key := record]))
  {
    var r := s.(mints := s.mints[key := record]);
    assert MintsAreLinked(r.mints, r.userMarkets);
    SameButRecords(s, r);
  }

  lemma ValidAfterRedeemWrite(s: StoreState, key: string, record: Redeem)
    requires Valid(s)
    requires record.id == key && record.userMarket in s.userMarkets
    ensures Valid(s.(redeems := s.redeems[key := record]))
  {
    var r := s.(redeems := s.redeems[key := record]);
    assert RedeemsAreLinked(r.redeems, r.userMarkets);
    SameButRecords(s, r);
  }

  lemma ValidAfterBorrowWrite(s: StoreState, key: string, record: Borrow)
    requires Valid(s)
    requires record.id == key && record.userMarket in s.userMarkets
    ensures Valid(s.(borrows := s.borrows[key := record]))
  {
    var r := s.(borrows := s.borrows[key := record]);
    assert BorrowsAreLinked(r.borrows, r.userMarkets);
    SameButRecords(s, r);
  }

  lemma ValidAfterRepayBorrowWrite(s: StoreState, key: string, record: RepayBorrow)
    requires Valid(s)
    requires record.id == key && record.userMarket in s.userMarkets
    ensures Valid(s.(repayBorrows := s.repayBorrows[key := record]))
  {
    var r := s.(repayBorrows := s.repayBorrows[key := record]);
    assert RepayBorrowsAreLinked(r.repayBorrows, r.userMarkets);
    SameButRecords(s, r);
  }

  lemma ValidAfterTransferWrite(s: StoreState, key: string, record: Transfer)
    requires Valid(s)
    requires record.id == key && record.fromUserMarket in s.userMarkets && record.toUserMarket in s.userMarkets
    ensures Valid(s.(transfers := s.transfers[key := record]))
  {
    var r := s.(transfers := s.transfers[key := record]);
    assert TransfersAreLinked(r.transfers, r.userMarkets);
    SameButRecords(s, r);
  }

  lemma ValidAfterLiquidationWrite(s: StoreState, key: string, record: Liquidation)
    requires Valid(s)
    requires record.id == key && record.borrowerUserLiquidationMarket in s.userMarkets
    requires record.borrowerUserSeizeMarket in s.userMarkets && record.liquidatorUserMarket in s.userMarkets
    ensures Valid(s.(liquidations := s.liquidations[key := record]))
  {
    var r := s.(liquidations := s.liquidations[key := record]);
    assert LiquidationsAreLinked(r.liquidations, r.userMarkets);
    SameButRecords(s, r);
  }

  /** A store that differs only in its event records, all of them linked, is valid with the original. */
  lemma SameButRecords(s: StoreState, r: StoreState)
    requires Valid(s)
    requires r.(mints := s.mints, redeems := s.redeems, borrows := s.borrows, repayBorrows := s.repayBorrows,
                transfers := s.transfers, liquidations := s.liquidations) == s
    requires r.mints == s.mints || MintsAreLinked(r.mints, r.userMarkets)
    requires r.redeems == s.redeems || RedeemsAreLinked(r.redeems, r.userMarkets)
    requires r.borrows == s.borrows || BorrowsAreLinked(r.borrows, r.userMarkets)
    requires r.repayBorrows == s.repayBorrows || RepayBorrowsAreLinked(r.repayBorrows, r.userMarkets)
    requires r.transfers == s.transfers || TransfersAreLinked(r.transfers, r.userMarkets)
    requires r.liquidations == s.liquidations || LiquidationsAreLinked(r.liquidations, r.userMarkets)
    ensures Valid(r)
  {
    assert r.markets == s.markets && r.protocol == s.protocol && r.users == s.users;
    assert r.userMarkets == s.userMarkets;
    assert r.hourData == s.hourData && r.dayData == s.dayData && r.weekData == s.weekData;
    assert r.protocolWeekData == s.protocolWeekData;
  }

  lemma EmptyStateIsValid(unassigned: real)
    ensures Valid(EmptyState(unassigned))
  {
  }
}
