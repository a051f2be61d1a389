/**
 * Time-bucketed running averages (src/mapping-helpers/historical-data.ts):
 * hour, day and week buckets per market, and a week bucket for the protocol.
 * Each update folds the current entity values into the bucket of the event's
 * timestamp with weights n/(n+1) and 1/(n+1), then counts the transaction.
 */
module HistoricalData {
  import opened Wrappers
  import opened Constants
  import opened Contracts
  import opened Schema
  import opened EntityStore

  // Bucket identifiers

  function DigitChar(d: nat): (c: char)
    requires d < 10
    ensures '0' <= c <= '9'
  {
    "0123456789"[d]
  }

  /** The decimal form `toString` gives a non-negative integer. */
  function NatToString(n: nat): (s: string)
    ensures |s| >= 1
    ensures forall i :: 0 <= i < |s| ==> '0' <= s[i] <= '9'
  {
    if n < 10 then [DigitChar(n)] else NatToString(n / 10) + [DigitChar(n % 10)]
  }

  lemma DigitCharInjective(a: nat, b: nat)
    requires a < 10 && b < 10 && DigitChar(a) == DigitChar(b)
    ensures a == b
  {
  }

  /** One digit exactly for the numbers below ten. */
  lemma NatToStringLength(n: nat)
    ensures (|NatToString(n)| == 1) == (n < 10)
  {
    if n >= 10 {
      assert |NatToString(n / 10)| >= 1;
    }
  }

  lemma {:induction false} NatToStringInjective(a: nat, b: nat)
    requires NatToString(a) == NatToString(b)
    ensures a == b
  {
    var sa, sb := NatToString(a), NatToString(b);
    NatToStringLength(a);
    NatToStringLength(b);
    if a < 10 {
      DigitCharInjective(a, b);
    } else {
      assert sa[|sa| - 1] == DigitChar(a % 10) && sb[|sb| - 1] == DigitChar(b % 10);
      DigitCharInjective(a % 10, b % 10);
      assert sa[..|sa| - 1] == NatToString(a / 10);
      assert sb[..|sb| - 1] == NatToString(b / 10);
      NatToStringInjective(a / 10, b / 10);
    }
  }

  /** The position of the first dash, or the length when there is none. */
  function FirstDash(x: string): (i: nat)
    ensures i <= |x|
  {
    if |x| == 0 || x[0] == '-' then 0 else 1 + FirstDash(x[1..])
  }

  lemma {:induction false} FirstDashAfterDigits(d: string, rest: string)
    requires forall i :: 0 <= i < |d| ==> '0' <= d[i] <= '9'
    ensures FirstDash(d + "-" + rest) == |d|
  {
    if |d| > 0 {
      assert (d + "-" + rest)[1..] == d[1..] + "-" + rest;
      FirstDashAfterDigits(d[1..], rest);
    }
  }

  /** A bucket key: the period id in decimal, a dash, then the market's cToken symbol or the protocol id. */
  function BucketKey(periodId: nat, suffix: string): string
  {
    NatToString(periodId) + "-" + suffix
  }

  /** Distinct period ids or suffixes give distinct keys: the digits never contain the dash. */
  lemma BucketKeyInjective(a: nat, s: string, b: nat, t: string)
    requires BucketKey(a, s) == BucketKey(b, t)
    ensures a == b && s == t
  {
    var da, db := NatToString(a), NatToString(b);
    var ka, kb := BucketKey(a, s), BucketKey(b, t);
    FirstDashAfterDigits(da, s);
    FirstDashAfterDigits(db, t);
    assert da == ka[..|da|] == kb[..|db|] == db;
    assert s == ka[|da| + 1..] == kb[|db| + 1..] == t;
    NatToStringInjective(a, b);
  }

  /** The id of the period holding `timestamp`. */
  function PeriodId(timestamp: nat, width: nat): nat
    requires width > 0
  {
    timestamp / width
  }

  /** The start of that period, its id times the width: at most the timestamp and within one width of it. */
  function PeriodStart(timestamp: nat, width: nat): (r: nat)
    requires width > 0
    ensures r <= timestamp < r + width
  {
    PeriodId(timestamp, width) * width
  }

  /** One fold step: prev * n/(n+1) + v * 1/(n+1). */
  function RunningMean(prev: real, v: real, n: nat): real
  {
    prev * ((n as real) / (n as real + 1.0)) + v * (1.0 / (n as real + 1.0))
  }

  /** The step turns the mean of n values into the mean of n + 1. */
  lemma RunningMeanStep(prev: real, v: real, n: nat)
    ensures RunningMean(prev, v, n) * (n as real + 1.0) == prev * (n as real) + v
  {
    var k := n as real + 1.0;
    var oldValueWeight := (n as real) / k;
    var newValueWeight := 1.0 / k;
    assert oldValueWeight * k == n as real;
    assert newValueWeight * k == 1.0;
    assert RunningMean(prev, v, n) * k == prev * (oldValueWeight * k) + v * (newValueWeight * k);
  }

  function Sum(vs: seq<real>): real
  {
    if |vs| == 0 then 0.0 else vs[0] + Sum(vs[1..])
  }

  /** The values folded one after the other into a bucket field that holds `acc` after n transactions. */
  function FoldAll(acc: real, n: nat, vs: seq<real>): real
    decreases |vs|
  {
    if |vs| == 0 then acc else FoldAll(RunningMean(acc, vs[0], n), n + 1, vs[1..])
  }

  /** A run of folds keeps the field at the mean of everything folded so far. */
  lemma {:induction false} FoldAllIsMean(acc: real, n: nat, vs: seq<real>)
    ensures FoldAll(acc, n, vs) * ((n + |vs|) as real) == acc * (n as real) + Sum(vs)
    decreases |vs|
  {
    if |vs| > 0 {
      RunningMeanStep(acc, vs[0], n);
      FoldAllIsMean(RunningMean(acc, vs[0], n), n + 1, vs[1..]);
    }
  }

  lemma DivideOut(x: real, k: real, total: real)
    requires k > 0.0 && x * k == total
    ensures x == total / k
  {
  }

  /**
   * From a field at count 0, folding v1..vk leaves (v1 + ... + vk) / k,
   * whatever the field held: the first fold gives it weight 0.
   */
  lemma FreshBucketHoldsMean(acc: real, vs: seq<real>)
    requires |vs| > 0
    ensures FoldAll(acc, 0, vs) == Sum(vs) / (|vs| as real)
  {
    FoldAllIsMean(acc, 0, vs);
    DivideOut(FoldAll(acc, 0, vs), |vs| as real, Sum(vs));
  }

  /** Folding 10, 20 and 30 into a fresh bucket passes through 10, 15 and 20. */
  lemma MeanExample()
    ensures RunningMean(0.0, 10.0, 0) == 10.0
    ensures RunningMean(10.0, 20.0, 1) == 15.0
    ensures RunningMean(15.0, 30.0, 2) == 20.0
    ensures FoldAll(0.0, 0, [10.0, 20.0, 30.0]) == 20.0
  {
    FreshBucketHoldsMean(0.0, [10.0, 20.0, 30.0]);
    assert Sum([10.0, 20.0, 30.0]) == 60.0 by {
      assert [10.0, 20.0, 30.0][1..] == [20.0, 30.0];
      assert [20.0, 30.0][1..] == [30.0];
      assert [30.0][1..] == [];
    }
  }

  /**
   * The hour bucket folds usdcPerComp twice with the weights of one count, so
   * the field holds (prev * n^2 + v * (2n + 1)) / (n + 1)^2 rather than the mean.
   */
  lemma DoubleFoldClosedForm(prev: real, v: real, n: nat)
    ensures RunningMean(RunningMean(prev, v, n), v, n) * ((n as real + 1.0) * (n as real + 1.0))
         == prev * (n as real) * (n as real) + v * (2.0 * (n as real) + 1.0)
  {
    var once := RunningMean(prev, v, n);
    var k := n as real + 1.0;
    RunningMeanStep(prev, v, n);
    RunningMeanStep(once, v, n);
    assert RunningMean(once, v, n) * k == once * (n as real) + v;
    assert RunningMean(once, v, n) * k * k == once * k * (n as real) + v * k;
  }

  /** Two hourly updates of 10 then 20 leave 17.5 in the hour usdcPerComp, where the mean is 15. */
  lemma DoubleFoldExample()
    ensures RunningMean(RunningMean(0.0, 10.0, 0), 10.0, 0) == 10.0
    ensures RunningMean(RunningMean(10.0, 20.0, 1), 20.0, 1) == 17.5
  {
  }

  // Market buckets

  /** The columns a market bucket averages, and the market value each one follows. */
  datatype MarketField =
    | SupplyApy | BorrowApy | TotalSupplyApy | TotalBorrowApy | TotalSupply | TotalBorrow
    | TotalReserves | Utalization | UsdcPerUnderlying | UsdcPerEth | UsdcPerComp

  function Column(b: MarketBucket, f: MarketField): real
  {
    match f
    case SupplyApy => b.supplyApy
    case BorrowApy => b.borrowApy
    case TotalSupplyApy => b.totalSupplyApy
    case TotalBorrowApy => b.totalBorrowApy
    case TotalSupply => b.totalSupply
    case TotalBorrow => b.totalBorrow
    case TotalReserves => b.totalReserves
    case Utalization => b.utalization
    case UsdcPerUnderlying => b.usdcPerUnderlying
    case UsdcPerEth => b.usdcPerEth
    case UsdcPerComp => b.usdcPerComp
  }

  function Reading(m: Market, f: MarketField): real
  {
    match f
    case SupplyApy => m.supplyApy
    case BorrowApy => m.borrowApy
    case TotalSupplyApy => m.totalSupplyApy
    case TotalBorrowApy => m.totalBorrowApy
    case TotalSupply => m.totalSupply
    case TotalBorrow => m.totalBorrow
    case TotalReserves => m.totalReserves
    case Utalization => m.utalization
    case UsdcPerUnderlying => m.usdcPerUnderlying
    case UsdcPerEth => m.usdcPerEth
    case UsdcPerComp => m.usdcPerComp
  }

  /** A new market bucket: zero columns and count, except usdcPerComp, which is never given a default. */
  function FreshMarketBucket(key: string, marketId: string, date: nat, unassigned: real): (b: MarketBucket)
    ensures b.id == key && b.market == marketId && b.date == date && b.txCount == 0
    ensures forall f :: f != UsdcPerComp ==> Column(b, f) == 0.0
    ensures b.usdcPerComp == unassigned
  {
    MarketBucket(key, marketId, date, 0.0, 0.0, 0.0, 0.0, 0.0, 0.0, 0.0, 0.0, 0.0, 0.0, unassigned, 0)
  }

  /**
   * One update of a market bucket: every column takes one fold step towards the
   * market's value (usdcPerComp two steps, with the same weights, when
   * `compTwice`), and the count goes up by one. Key, market and date are kept.
   */
  function FoldMarket(b: MarketBucket, m: Market, compTwice: bool): (r: MarketBucket)
    ensures r.id == b.id && r.market == b.market && r.date == b.date
    ensures r.txCount == b.txCount + 1
    ensures forall f :: f != UsdcPerComp ==> Column(r, f) == RunningMean(Column(b, f), Reading(m, f), b.txCount)
    ensures !compTwice ==> r.usdcPerComp == RunningMean(b.usdcPerComp, m.usdcPerComp, b.txCount)
    ensures compTwice ==>
      r.usdcPerComp == RunningMean(RunningMean(b.usdcPerComp, m.usdcPerComp, b.txCount), m.usdcPerComp, b.txCount)
  {
    var n := b.txCount;
    var comp := RunningMean(b.usdcPerComp, m.usdcPerComp, n);
    b.(supplyApy := RunningMean(b.supplyApy, m.supplyApy, n),
       borrowApy := RunningMean(b.borrowApy, m.borrowApy, n),
       totalSupplyApy := RunningMean(b.totalSupplyApy, m.totalSupplyApy, n),
       totalBorrowApy := RunningMean(b.totalBorrowApy, m.totalBorrowApy, n),
       totalSupply := RunningMean(b.totalSupply, m.totalSupply, n),
       totalBorrow := RunningMean(b.totalBorrow, m.totalBorrow, n),
       totalReserves := RunningMean(b.totalReserves, m.totalReserves, n),
       utalization := RunningMean(b.utalization, m.utalization, n),
       usdcPerUnderlying := RunningMean(b.usdcPerUnderlying, m.usdcPerUnderlying, n),
       usdcPerEth := RunningMean(b.usdcPerEth, m.usdcPerEth, n),
       usdcPerComp := if compTwice then RunningMean(comp, m.usdcPerComp, n) else comp,
       txCount := n + 1)
  }

  /** The first update of a bucket gives its old value weight 0, so the column takes the reading. */
  lemma FirstFoldTakesReading(prev: real, v: real)
    ensures RunningMean(prev, v, 0) == v
  {
  }

  /** The value one column follows across a run of market snapshots, in event order. */
  function Readings(ms: seq<Market>, f: MarketField): (vs: seq<real>)
    ensures |vs| == |ms|
    decreases |ms|
  {
    if |ms| == 0 then [] else [Reading(ms[0], f)] + Readings(ms[1..], f)
  }

  /** A run of updates of one bucket, the market as it stood at each event. */
  function FoldMarkets(b: MarketBucket, ms: seq<Market>, compTwice: bool): MarketBucket
    decreases |ms|
  {
    if |ms| == 0 then b else FoldMarkets(FoldMarket(b, ms[0], compTwice), ms[1..], compTwice)
  }

  /**
   * k updates of a bucket count k more transactions, keep its key, market and
   * date, and leave each column where the running mean of its readings puts it
   * (all columns but the hourly usdcPerComp, which is folded twice).
   */
  lemma {:induction false} FoldMarketsFollowsFoldAll(b: MarketBucket, ms: seq<Market>, compTwice: bool,
                                                     f: MarketField)
    ensures var r := FoldMarkets(b, ms, compTwice);
      && r.id == b.id && r.market == b.market && r.date == b.date
      && r.txCount == b.txCount + |ms|
      && ((f != UsdcPerComp || !compTwice) ==>
            Column(r, f) == FoldAll(Column(b, f), b.txCount, Readings(ms, f)))
    decreases |ms|
  {
    if |ms| > 0 {
      FoldMarketsFollowsFoldAll(FoldMarket(b, ms[0], compTwice), ms[1..], compTwice, f);
    }
  }

  /**
   * A new bucket after k updates holds in each column the mean of the k
   * readings. usdcPerComp too, in the day and week tables: the first update
   * gives its unassigned start value weight 0.
   */
  lemma FreshBucketColumnIsMean(key: string, marketId: string, date: nat, unassigned: real, ms: seq<Market>,
                                compTwice: bool, f: MarketField)
    requires |ms| > 0
    ensures var r := FoldMarkets(FreshMarketBucket(key, marketId, date, unassigned), ms, compTwice);
      && r.txCount == |ms|
      && ((f != UsdcPerComp || !compTwice) ==> Column(r, f) == Sum(Readings(ms, f)) / (|ms| as real))
  {
    var b := FreshMarketBucket(key, marketId, date, unassigned);
    FoldMarketsFollowsFoldAll(b, ms, compTwice, f);
    if f != UsdcPerComp || !compTwice {
      FreshBucketHoldsMean(Column(b, f), Readings(ms, f));
    }
  }

  /** The column assignments of one update, in the source's order, with the weights computed once. */
  method FoldSnapshot(bucket: MarketBucket, market: Market, compTwice: bool) returns (marketData: MarketBucket)
    ensures marketData == FoldMarket(bucket, market, compTwice)
  {
    var n := bucket.txCount;
    var txCount := n as real;
    var oldValueWeight := txCount / (txCount + 1.0);
    var newValueWeight := 1.0 / (txCount + 1.0);
    var supplyApy := bucket.supplyApy * oldValueWeight + market.supplyApy * newValueWeight;
    var borrowApy := bucket.borrowApy * oldValueWeight + market.borrowApy * newValueWeight;
    var totalSupplyApy := bucket.totalSupplyApy * oldValueWeight + market.totalSupplyApy * newValueWeight;
    var totalBorrowApy := bucket.totalBorrowApy * oldValueWeight + market.totalBorrowApy * newValueWeight;
    var totalSupply := bucket.totalSupply * oldValueWeight + market.totalSupply * newValueWeight;
    var totalBorrow := bucket.totalBorrow * oldValueWeight + market.totalBorrow * newValueWeight;
    var totalReserves := bucket.totalReserves * oldValueWeight + market.totalReserves * newValueWeight;
    var utalization := bucket.utalization * oldValueWeight + market.utalization * newValueWeight;
    var usdcPerUnderlying := bucket.usdcPerUnderlying * oldValueWeight + market.usdcPerUnderlying * newValueWeight;
    var usdcPerEth := bucket.usdcPerEth * oldValueWeight + market.usdcPerEth * newValueWeight;
    var usdcPerComp := bucket.usdcPerComp * oldValueWeight + market.usdcPerComp * newValueWeight;
    assert usdcPerComp == RunningMean(bucket.usdcPerComp, market.usdcPerComp, n);
    if compTwice {
      usdcPerComp := usdcPerComp * oldValueWeight + market.usdcPerComp * newValueWeight;
    }
    marketData := bucket.(supplyApy := supplyApy, borrowApy := borrowApy, totalSupplyApy := totalSupplyApy,
                          totalBorrowApy := totalBorrowApy, totalSupply := totalSupply, totalBorrow := totalBorrow,
                          totalReserves := totalReserves, utalization := utalization,
                          usdcPerUnderlying := usdcPerUnderlying, usdcPerEth := usdcPerEth,
                          usdcPerComp := usdcPerComp, txCount := n + 1);
  }

  /** The three market bucket tables. */
  datatype Period = Hour | Day | Week

  function Width(p: Period): (w: nat)
    ensures w > 0
  {
    match p
    case Hour => SEC_PER_HOUR
    case Day => SEC_PER_DAY
    case Week => SEC_PER_WEEK
  }

  function BucketsOf(s: StoreState, p: Period): map<string, MarketBucket>
  {
    match p
    case Hour => s.hourData
    case Day => s.dayData
    case Week => s.weekData
  }

  function WithBuckets(s: StoreState, p: Period, buckets: map<string, MarketBucket>): (r: StoreState)
    ensures BucketsOf(r, p) == buckets
  {
    match p
    case Hour => s.(hourData := buckets)
    case Day => s.(dayData := buckets)
    case Week => s.(weekData := buckets)
  }

  /** The key of the market's bucket for the period holding `timestamp`. */
  function MarketBucketKey(m: Market, p: Period, timestamp: nat): string
  {
    BucketKey(PeriodId(timestamp, Width(p)), m.cTokenSymbol)
  }

  /**
   * The store after `updateMarketHourData` / `updateMarketDayData` /
   * `updateMarketWeekData` for an event of `marketAddress` at `timestamp`.
   */
  function UpdateMarketBucketState(s: StoreState, p: Period, marketAddress: Address, timestamp: nat): StoreState
  {
    if marketAddress !in s.markets then s
    else
      var m := s.markets[marketAddress];
      var key := MarketBucketKey(m, p, timestamp);
      var buckets := BucketsOf(s, p);
      var bucket := if key in buckets then buckets[key]
                    else FreshMarketBucket(key, m.id, PeriodStart(timestamp, Width(p)), s.unassigned);
      WithBuckets(s, p, buckets[key := FoldMarket(bucket, m, p == Hour)])
  }

  /** `updateMarketHourData`. */
  method UpdateMarketHourData(st: Store, marketAddress: Address, timestamp: nat)
    modifies st`hourData
    ensures st.Snapshot() == UpdateMarketBucketState(old(st.Snapshot()), Hour, marketAddress, timestamp)
  {
    if marketAddress !in st.markets {
      return;
    }
    var market := st.markets[marketAddress];
    var hourId := timestamp / SEC_PER_HOUR;
    var hourStartTimestamp := hourId * SEC_PER_HOUR;
    var hourDataId := NatToString(hourId) + "-" + market.cTokenSymbol;
    var marketData;
    if hourDataId in st.hourData {
      marketData := st.hourData[hourDataId];
    } else {
      marketData := FreshMarketBucket(hourDataId, market.id, hourStartTimestamp, st.unassigned);
    }
    marketData := FoldSnapshot(marketData, market, true);
    st.hourData := st.hourData[hourDataId := marketData];
  }

  /** `updateMarketDayData`. */
  method UpdateMarketDayData(st: Store, marketAddress: Address, timestamp: nat)
    modifies st`dayData
    ensures st.Snapshot() == UpdateMarketBucketState(old(st.Snapshot()), Day, marketAddress, timestamp)
  {
    if marketAddress !in st.markets {
      return;
    }
    var market := st.markets[marketAddress];
    var dayId := timestamp / SEC_PER_DAY;
    var dayStartTimestamp := dayId * SEC_PER_DAY;
    var dayDataId := NatToString(dayId) + "-" + market.cTokenSymbol;
    var marketData;
    if dayDataId in st.dayData {
      marketData := st.dayData[dayDataId];
    } else {
      marketData := FreshMarketBucket(dayDataId, market.id, dayStartTimestamp, st.unassigned);
    }
    marketData := FoldSnapshot(marketData, market, false);
    st.dayData := st.dayData[dayDataId := marketData];
  }

  /** `updateMarketWeekData`. */
  method UpdateMarketWeekData(st: Store, marketAddress: Address, timestamp: nat)
    modifies st`weekData
    ensures st.Snapshot() == UpdateMarketBucketState(old(st.Snapshot()), Week, marketAddress, timestamp)
  {
    if marketAddress !in st.markets {
      return;
    }
    var market := st.markets[marketAddress];
    var weekId := timestamp / SEC_PER_WEEK;
    var weekStartTimestamp := weekId * SEC_PER_WEEK;
    var weekDataId := NatToString(weekId) + "-" + market.cTokenSymbol;
    var marketData;
    if weekDataId in st.weekData {
      marketData := st.weekData[weekDataId];
    } else {
      marketData := FreshMarketBucket(weekDataId, market.id, weekStartTimestamp, st.unassigned);
    }
    marketData := FoldSnapshot(marketData, market, false);
    st.weekData := st.weekData[weekDataId := marketData];
  }

  /** Without the market nothing is written. */
  lemma AbsentMarketNoBucket(s: StoreState, p: Period, marketAddress: Address, timestamp: nat)
    requires marketAddress !in s.markets
    ensures UpdateMarketBucketState(s, p, marketAddress, timestamp) == s
  {
  }

  /**
   * An update writes one bucket of one table: the bucket keyed by the period
   * id and the market's symbol. A new bucket is dated at the period start and
   * counts one transaction; an existing one keeps its date and market and
   * counts one more.
   */
  lemma UpdateMarketBucketFrame(s: StoreState, p: Period, marketAddress: Address, timestamp: nat)
    requires marketAddress in s.markets
    ensures
      var r := UpdateMarketBucketState(s, p, marketAddress, timestamp);
      var m := s.markets[marketAddress];
      var key := MarketBucketKey(m, p, timestamp);
      var before := BucketsOf(s, p);
      var after := BucketsOf(r, p);
      && WithBuckets(r, p, before) == s
      && after.Keys == before.Keys + {key}
      && (forall k :: k in before && k != key ==> after[k] == before[k])
      && (key in before ==>
            after[key].date == before[key].date && after[key].market == before[key].market
            && after[key].txCount == before[key].txCount + 1)
      && (key !in before ==>
            && after[key].date == PeriodStart(timestamp, Width(p)) && after[key].market == m.id
            && after[key].txCount == 1
            && forall f :: Column(after[key], f) == Reading(m, f))
  {
    var r := UpdateMarketBucketState(s, p, marketAddress, timestamp);
    var m := s.markets[marketAddress];
    FirstFoldTakesReading(s.unassigned, m.usdcPerComp);
    FirstFoldTakesReading(RunningMean(s.unassigned, m.usdcPerComp, 0), m.usdcPerComp);
    assert WithBuckets(r, p, BucketsOf(s, p)) == s by {
      match p
      case Hour =>
      case Day =>
      case Week =>
    }
  }

  lemma LinkedAfterBucketWrite(buckets: map<string, MarketBucket>, markets: map<string, Market>,
                                key: string, b: MarketBucket)
    requires MarketBucketsAreLinked(buckets, markets)
    requires b.id == key && b.market in markets
    ensures MarketBucketsAreLinked(buckets[key := b], markets)
  {
  }

  lemma UpdateMarketBucketPreservesValid(s: StoreState, p: Period, marketAddress: Address, timestamp: nat)
    requires Valid(s)
    ensures Valid(UpdateMarketBucketState(s, p, marketAddress, timestamp))
  {
    if marketAddress in s.markets {
      var r := UpdateMarketBucketState(s, p, marketAddress, timestamp);
      var m := s.markets[marketAddress];
      var key := MarketBucketKey(m, p, timestamp);
      var buckets := BucketsOf(s, p);
      var bucket := if key in buckets then buckets[key]
                    else FreshMarketBucket(key, m.id, PeriodStart(timestamp, Width(p)), s.unassigned);
      assert bucket.id == key && bucket.market in s.markets;
      LinkedAfterBucketWrite(buckets, s.markets, key, FoldMarket(bucket, m, p == Hour));
      match p
      case Hour => ValidAfterBucketWrite(s, r);
      case Day => ValidAfterBucketWrite(s, r);
      case Week => ValidAfterBucketWrite(s, r);
    }
  }

  // The protocol week bucket

  datatype ProtocolField = SupplyUsd | BorrowUsd | ReservesUsd | ProtocolUtalization

  function ProtocolColumn(b: ProtocolBucket, f: ProtocolField): real
  {
    match f
    case SupplyUsd => b.totalSupplyUsd
    case BorrowUsd => b.totalBorrowUsd
    case ReservesUsd => b.totalReservesUsd
    case ProtocolUtalization => b.utalization
  }

  function ProtocolReading(p: Protocol, f: ProtocolField): real
  {
    match f
    case SupplyUsd => p.totalSupplyUsd
    case BorrowUsd => p.totalBorrowUsd
    case ReservesUsd => p.totalReservesUsd
    case ProtocolUtalization => p.utalization
  }

  /** One update of the protocol week bucket: each column one fold step towards the protocol's value. */
  function FoldProtocol(b: ProtocolBucket, p: Protocol): (r: ProtocolBucket)
    ensures r.id == b.id && r.date == b.date && r.txCount == b.txCount + 1
    ensures forall f :: ProtocolColumn(r, f) == RunningMean(ProtocolColumn(b, f), ProtocolReading(p, f), b.txCount)
  {
    var n := b.txCount;
    b.(totalSupplyUsd := RunningMean(b.totalSupplyUsd, p.totalSupplyUsd, n),
       totalBorrowUsd := RunningMean(b.totalBorrowUsd, p.totalBorrowUsd, n),
       totalReservesUsd := RunningMean(b.totalReservesUsd, p.totalReservesUsd, n),
       utalization := RunningMean(b.utalization, p.utalization, n),
       txCount := n + 1)
  }

  /** A new protocol week bucket: zero columns and count. */
  function FreshProtocolBucket(key: string, date: nat): (b: ProtocolBucket)
    ensures b.id == key && b.date == date && b.txCount == 0
    ensures forall f :: ProtocolColumn(b, f) == 0.0
  {
    ProtocolBucket(key, date, 0.0, 0.0, 0.0, 0.0, 0)
  }

  function ProtocolReadings(ps: seq<Protocol>, f: ProtocolField): (vs: seq<real>)
    ensures |vs| == |ps|
    decreases |ps|
  {
    if |ps| == 0 then [] else [ProtocolReading(ps[0], f)] + ProtocolReadings(ps[1..], f)
  }

  /** A run of updates of one protocol week bucket, the protocol as it stood at each event. */
  function FoldProtocols(b: ProtocolBucket, ps: seq<Protocol>): ProtocolBucket
    decreases |ps|
  {
    if |ps| == 0 then b else FoldProtocols(FoldProtocol(b, ps[0]), ps[1..])
  }

  /** k updates count k more transactions, keep key and date, and fold each column's readings in order. */
  lemma {:induction false} FoldProtocolsFollowsFoldAll(b: ProtocolBucket, ps: seq<Protocol>, f: ProtocolField)
    ensures var r := FoldProtocols(b, ps);
      && r.id == b.id && r.date == b.date && r.txCount == b.txCount + |ps|
      && ProtocolColumn(r, f) == FoldAll(ProtocolColumn(b, f), b.txCount, ProtocolReadings(ps, f))
    decreases |ps|
  {
    if |ps| > 0 {
      FoldProtocolsFollowsFoldAll(FoldProtocol(b, ps[0]), ps[1..], f);
    }
  }

  /** A new protocol week bucket after k updates holds in each column the mean of the k readings. */
  lemma FreshProtocolBucketColumnIsMean(key: string, date: nat, ps: seq<Protocol>, f: ProtocolField)
    requires |ps| > 0
    ensures var r := FoldProtocols(FreshProtocolBucket(key, date), ps);
      r.txCount == |ps| && ProtocolColumn(r, f) == Sum(ProtocolReadings(ps, f)) / (|ps| as real)
  {
    var b := FreshProtocolBucket(key, date);
    FoldProtocolsFollowsFoldAll(b, ps, f);
    FreshBucketHoldsMean(ProtocolColumn(b, f), ProtocolReadings(ps, f));
  }

  /** The store after `updateProtocolWeekData` for an event at `timestamp`; nothing without a protocol. */
  function UpdateProtocolWeekState(s: StoreState, timestamp: nat): StoreState
  {
    match s.protocol
    case None => s
    case Some(p) =>
      var key := BucketKey(PeriodId(timestamp, SEC_PER_WEEK), p.id);
      var bucket := if key in s.protocolWeekData then s.protocolWeekData[key]
                    else FreshProtocolBucket(key, PeriodStart(timestamp, SEC_PER_WEEK));
      s.(protocolWeekData := s.protocolWeekData[key := FoldProtocol(bucket, p)])
  }

  /** `updateProtocolWeekData`. */
  method UpdateProtocolWeekData(st: Store, timestamp: nat)
    modifies st`protocolWeekData
    ensures st.Snapshot() == UpdateProtocolWeekState(old(st.Snapshot()), timestamp)
  {
    if st.protocol.None? {
      return;
    }
    var protocol := st.protocol.value;
    var weekId := timestamp / SEC_PER_WEEK;
    var weekStartTimestamp := weekId * SEC_PER_WEEK;
    var weekDataId := NatToString(weekId) + "-" + protocol.id;
    var protocolData;
    if weekDataId in st.protocolWeekData {
      protocolData := st.protocolWeekData[weekDataId];
    } else {
      protocolData := FreshProtocolBucket(weekDataId, weekStartTimestamp);
    }
    var txCount := protocolData.txCount as real;
    var oldValueWeight := txCount / (txCount + 1.0);
    var newValueWeight := 1.0 / (txCount + 1.0);
    ghost var loaded := protocolData;
    protocolData := protocolData.(totalSupplyUsd := protocolData.totalSupplyUsd * oldValueWeight
                                                    + protocol.totalSupplyUsd * newValueWeight);
    protocolData := protocolData.(totalBorrowUsd := protocolData.totalBorrowUsd * oldValueWeight
                                                    + protocol.totalBorrowUsd * newValueWeight);
    protocolData := protocolData.(totalReservesUsd := protocolData.totalReservesUsd * oldValueWeight
                                                      + protocol.totalReservesUsd * newValueWeight);
    protocolData := protocolData.(utalization := protocolData.utalization * oldValueWeight
                                                 + protocol.utalization * newValueWeight);
    protocolData := protocolData.(txCount := protocolData.txCount + 1);
    assert protocolData == FoldProtocol(loaded, protocol);
    st.protocolWeekData := st.protocolWeekData[weekDataId := protocolData];
  }

  /**
   * Without a protocol nothing is written; with one, only the bucket keyed by
   * the week id and the protocol id changes, and it counts one more transaction.
   */
  lemma UpdateProtocolWeekFrame(s: StoreState, timestamp: nat)
    ensures s.protocol.None? ==> UpdateProtocolWeekState(s, timestamp) == s
    ensures s.protocol.Some? ==>
      var r := UpdateProtocolWeekState(s, timestamp);
      var key := BucketKey(PeriodId(timestamp, SEC_PER_WEEK), s.protocol.value.id);
      && r.(protocolWeekData := s.protocolWeekData) == s
      && r.protocolWeekData.Keys == s.protocolWeekData.Keys + {key}
      && (forall k :: k in s.protocolWeekData && k != key ==> r.protocolWeekData[k] == s.protocolWeekData[k])
      && r.protocolWeekData[key].txCount
         == (if key in s.protocolWeekData then s.protocolWeekData[key].txCount + 1 else 1)
      && (key !in s.protocolWeekData ==>
            forall f :: ProtocolColumn(r.protocolWeekData[key], f) == ProtocolReading(s.protocol.value, f))
  {
    if s.protocol.Some? {
      var p := s.protocol.value;
      FirstProtocolFoldTakesReadings(BucketKey(PeriodId(timestamp, SEC_PER_WEEK), p.id),
                                     PeriodStart(timestamp, SEC_PER_WEEK), p);
    }
  }

  lemma FirstProtocolFoldTakesReadings(key: string, date: nat, p: Protocol)
    ensures forall f :: ProtocolColumn(FoldProtocol(FreshProtocolBucket(key, date), p), f) == ProtocolReading(p, f)
  {
    forall f: ProtocolField
      ensures ProtocolColumn(FoldProtocol(FreshProtocolBucket(key, date), p), f) == ProtocolReading(p, f)
    {
      FirstFoldTakesReading(0.0, ProtocolReading(p, f));
    }
  }

  lemma UpdateProtocolWeekPreservesValid(s: StoreState, timestamp: nat)
    requires Valid(s)
    ensures Valid(UpdateProtocolWeekState(s, timestamp))
  {
    UpdateProtocolWeekFrame(s, timestamp);
  }
}
