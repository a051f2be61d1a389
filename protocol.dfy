/**
 * The protocol singleton (src/mapping-helpers/protocol.ts): creation, and the
 * summary update that re-totals the USD value of every listed market.
 */
module ProtocolHelpers {
  import opened Wrappers
  import opened Constants
  import opened Contracts
  import opened Schema
  import opened EntityStore

  /** `createProtocol`: the singleton with no markets and zero totals; not yet saved. */
  function CreateProtocol(priceOracle: Address, blockNumber: Block): (p: Protocol)
    ensures p.id == PROTOCOL_ID && p.priceOracle == priceOracle
    ensures p.lastNewOracleBlockNumber == blockNumber && p.latestBlockNumber == blockNumber
    ensures p.markets == []
    ensures p.totalSupplyUsd == 0.0 && p.totalBorrowUsd == 0.0 && p.totalReservesUsd == 0.0 && p.utalization == 0.0
  {
    Protocol(PROTOCOL_ID, priceOracle, blockNumber, blockNumber, [], 0.0, 0.0, 0.0, 0.0)
  }

  /** The three market amounts the summary converts to USD. */
  datatype Amount = SupplyAmount | BorrowAmount | ReservesAmount

  function AmountOf(m: Market, amount: Amount): real
  {
    match amount
    case SupplyAmount => m.totalSupply
    case BorrowAmount => m.totalBorrow
    case ReservesAmount => m.totalReserves
  }

  /** The sum, over the ids that name a stored market, of amount * usdcPerUnderlying. */
  function UsdTotal(ids: seq<string>, markets: map<string, Market>, amount: Amount): real
  {
    if |ids| == 0 then 0.0
    else
      var id := ids[|ids| - 1];
      UsdTotal(ids[..|ids| - 1], markets, amount)
        + if id in markets then AmountOf(markets[id], amount) * markets[id].usdcPerUnderlying else 0.0
  }

  /**
   * The protocol after the summary update: totals recomputed from the stored
   * markets (the supply of each market is added twice, as the loop does),
   * utilization as borrow over supply, and the block recorded. Markets, oracle
   * and oracle block are kept.
   */
  function Summarize(p: Protocol, markets: map<string, Market>, blockNumber: Block): (r: Protocol)
    ensures r.latestBlockNumber == blockNumber
    ensures r.totalSupplyUsd == 2.0 * UsdTotal(p.markets, markets, SupplyAmount)
    ensures r.totalBorrowUsd == UsdTotal(p.markets, markets, BorrowAmount)
    ensures r.totalReservesUsd == UsdTotal(p.markets, markets, ReservesAmount)
    ensures r.totalSupplyUsd == 0.0 ==> r.utalization == 0.0
    ensures r.totalSupplyUsd != 0.0 ==> r.utalization * r.totalSupplyUsd == r.totalBorrowUsd
    ensures r.id == p.id && r.priceOracle == p.priceOracle && r.markets == p.markets
    ensures r.lastNewOracleBlockNumber == p.lastNewOracleBlockNumber
  {
    var supplyUsd := 2.0 * UsdTotal(p.markets, markets, SupplyAmount);
    var borrowUsd := UsdTotal(p.markets, markets, BorrowAmount);
    p.(latestBlockNumber := blockNumber,
       totalSupplyUsd := supplyUsd,
       totalBorrowUsd := borrowUsd,
       totalReservesUsd := UsdTotal(p.markets, markets, ReservesAmount),
       utalization := if supplyUsd == 0.0 then 0.0 else borrowUsd / supplyUsd)
  }

  /** The store after `updateProtocolSummaryData(blockNumber)`; an absent protocol changes nothing. */
  function UpdateProtocolSummaryState(s: StoreState, blockNumber: Block): (r: StoreState)
    ensures r.(protocol := s.protocol) == s
  {
    match s.protocol
    case None => s
    case Some(p) => s.(protocol := Some(Summarize(p, s.markets, blockNumber)))
  }

  /** `updateProtocolSummaryData`: accumulates the totals in a loop over the listed ids, then saves. */
  method UpdateProtocolSummaryData(st: Store, blockNumber: Block)
    modifies st`protocol
    ensures st.Snapshot() == UpdateProtocolSummaryState(old(st.Snapshot()), blockNumber)
  {
    if st.protocol.None? {
      return;
    }
    var protocol := st.protocol.value;
    protocol := protocol.(latestBlockNumber := blockNumber);
    var marketsIds := protocol.markets;
    var numMarkets := |marketsIds|;
    var totalSupplyUsd, totalBorrowUsd, totalReservesUsd := 0.0, 0.0, 0.0;
    for i := 0 to numMarkets
      invariant totalSupplyUsd == 2.0 * UsdTotal(marketsIds[..i], st.markets, SupplyAmount)
      invariant totalBorrowUsd == UsdTotal(marketsIds[..i], st.markets, BorrowAmount)
      invariant totalReservesUsd == UsdTotal(marketsIds[..i], st.markets, ReservesAmount)
    {
      var marketId := marketsIds[i];
      if marketId in st.markets {
        var market := st.markets[marketId];
        var usdcPerUnderlying := market.usdcPerUnderlying;
        totalSupplyUsd := totalSupplyUsd + market.totalSupply * usdcPerUnderlying;
        totalBorrowUsd := totalBorrowUsd + market.totalBorrow * usdcPerUnderlying;
        totalReservesUsd := totalReservesUsd + market.totalReserves * usdcPerUnderlying;
        totalSupplyUsd := totalSupplyUsd + market.totalSupply * usdcPerUnderlying;
      }
      assert marketsIds[..i + 1][..i] == marketsIds[..i];
    }
    assert marketsIds[..numMarkets] == marketsIds;
    var utalization := if totalSupplyUsd == 0.0 then 0.0 else totalBorrowUsd / totalSupplyUsd;
    protocol := protocol.(totalSupplyUsd := totalSupplyUsd, totalBorrowUsd := totalBorrowUsd,
                          totalReservesUsd := totalReservesUsd, utalization := utalization);
    st.protocol := Some(protocol);
  }

  /** Totals over two lists of ids add up. */
  lemma {:induction false} UsdTotalAppend(a: seq<string>, b: seq<string>, markets: map<string, Market>, amount: Amount)
    ensures UsdTotal(a + b, markets, amount) == UsdTotal(a, markets, amount) + UsdTotal(b, markets, amount)
    decreases |b|
  {
    if |b| > 0 {
      assert (a + b)[..|a + b| - 1] == a + b[..|b| - 1];
      UsdTotalAppend(a, b[..|b| - 1], markets, amount);
    } else {
      assert a + b == a;
    }
  }

  /** Ids that name no stored market contribute nothing. */
  lemma {:induction false} AbsentIdsSkipped(ids: seq<string>, markets: map<string, Market>, amount: Amount)
    requires forall i :: 0 <= i < |ids| ==> ids[i] !in markets
    ensures UsdTotal(ids, markets, amount) == 0.0
  {
    if |ids| > 0 {
      AbsentIdsSkipped(ids[..|ids| - 1], markets, amount);
    }
  }

  /** Storing a market under an id the list does not hold leaves the total unchanged. */
  lemma {:induction false} UsdTotalIgnoresUnlisted(ids: seq<string>, markets: map<string, Market>, amount: Amount,
                                                   id: string, m: Market)
    requires id !in ids
    ensures UsdTotal(ids, markets[id := m], amount) == UsdTotal(ids, markets, amount)
  {
    if |ids| > 0 {
      assert ids[|ids| - 1] in ids;
      UsdTotalIgnoresUnlisted(ids[..|ids| - 1], markets, amount, id, m);
    }
  }

  /** Listing a market whose USD price is still zero does not move any total. */
  lemma ZeroPricedListingAddsNothing(ids: seq<string>, markets: map<string, Market>, amount: Amount, m: Market)
    requires m.usdcPerUnderlying == 0.0
    ensures UsdTotal(ids + [m.id], markets[m.id := m], amount) == UsdTotal(ids, markets[m.id := m], amount)
  {
    UsdTotalAppend(ids, [m.id], markets[m.id := m], amount);
  }

  /** A market listed twice is counted twice: the loop does not deduplicate. */
  lemma DuplicateListingCountsTwice(ids: seq<string>, markets: map<string, Market>, amount: Amount, id: string)
    requires id in markets
    ensures UsdTotal(ids + [id, id], markets, amount)
         == UsdTotal(ids, markets, amount) + 2.0 * AmountOf(markets[id], amount) * markets[id].usdcPerUnderlying
  {
    UsdTotalAppend(ids, [id, id], markets, amount);
    assert [id, id][..1] == [id];
    assert [id][..0] == [];
    var c := AmountOf(markets[id], amount) * markets[id].usdcPerUnderlying;
    assert UsdTotal([id], markets, amount) == c;
    assert UsdTotal([id, id], markets, amount) == 2.0 * c;
  }

  /** With prices and amounts non-negative, borrows within supply keep total borrows within total supply. */
  lemma {:induction false} BorrowsWithinSupply(ids: seq<string>, markets: map<string, Market>)
    requires forall k :: k in markets ==>
      0.0 <= markets[k].totalBorrow <= markets[k].totalSupply && markets[k].usdcPerUnderlying >= 0.0
    ensures 0.0 <= UsdTotal(ids, markets, BorrowAmount) <= UsdTotal(ids, markets, SupplyAmount)
  {
    if |ids| > 0 {
      BorrowsWithinSupply(ids[..|ids| - 1], markets);
      var id := ids[|ids| - 1];
      if id in markets {
        var m := markets[id];
        assert 0.0 <= m.totalBorrow * m.usdcPerUnderlying <= m.totalSupply * m.usdcPerUnderlying;
      }
    }
  }

  /**
   * Because supply is counted twice, the recorded utilization never exceeds 1/2
   * when every market's borrows are within its supply.
   */
  lemma UtilizationAtMostHalf(p: Protocol, markets: map<string, Market>, blockNumber: Block)
    requires forall k :: k in markets ==>
      0.0 <= markets[k].totalBorrow <= markets[k].totalSupply && markets[k].usdcPerUnderlying >= 0.0
    ensures 0.0 <= Summarize(p, markets, blockNumber).utalization <= 0.5
  {
    BorrowsWithinSupply(p.markets, markets);
    var r := Summarize(p, markets, blockNumber);
    if r.totalSupplyUsd != 0.0 {
      assert r.utalization == r.totalBorrowUsd / r.totalSupplyUsd;
    }
  }

  /** The summary reads only the store's markets and the list, so running it twice changes nothing more. */
  lemma UpdateProtocolSummaryIdempotent(s: StoreState, blockNumber: Block)
    ensures
      var s1 := UpdateProtocolSummaryState(s, blockNumber);
      UpdateProtocolSummaryState(s1, blockNumber) == s1
  {
  }

  lemma UpdateProtocolSummaryPreservesValid(s: StoreState, blockNumber: Block)
    requires Valid(s)
    ensures Valid(UpdateProtocolSummaryState(s, blockNumber))
  {
    var s1 := UpdateProtocolSummaryState(s, blockNumber);
    assert ListedMarkets(s1) == ListedMarkets(s);
  }
}
