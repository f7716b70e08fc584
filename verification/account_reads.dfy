/**
 * The read routes: holdings, positions and open orders go through the
 * cache first and fall back to the exchange on a miss; the balance
 * history writes today's balance and assembles a fixed-length day list.
 */
module AccountReads {
  import opened Wrappers
  import opened Orders
  import opened Schema
  import opened Http
  import opened TtlCache
  import opened Projections

  /**
   * The cache namespaces. The source builds string keys (":id:holdings",
   * ":id:positions", ":market:id:open_orders", "broker:id:date:balance"),
   * whose fixed prefixes and suffixes keep the namespaces apart.
   */
  datatype CacheKey =
    | HoldingsKey(brokerId: string)
    | PositionsKey(brokerId: string)
    | OpenOrdersKey(market: Market, brokerId: string)
    | BalanceKey(brokerId: string, day: int)

  datatype CachedValue =
    | HoldingsValue(holdings: seq<Holding>)
    | PositionsValue(positions: seq<Position>)
    | OpenOrdersValue(orders: seq<OpenOrder>)
    | BalancesValue(balances: seq<WalletBalance>)

  type Cache = map<CacheKey, Entry<CachedValue>>

  /** Holdings, positions and open orders live for 30 seconds. */
  const ShortTtl: nat := 30 * 1000

  /** A day's balance lives for 30 days. */
  const BalanceTtl: nat := 1000 * 60 * 60 * 24 * 30

  /**
   * The exchange's account reads, as oracles of the stored broker; `None`
   * is a read that throws, which the app's error handler answers with 500.
   */
  datatype ExchangeReads = ExchangeReads(
    spotBalances: Broker -> Option<seq<RawBalance>>,
    futuresPositions: Broker -> Option<seq<RawPosition>>,
    openOrders: (Market, Broker) -> Option<seq<RawOpenOrder>>,
    wallets: Broker -> Option<seq<RawWallet>>)

  /** The reply, the cache afterwards, and how many broker lookups and exchange reads the request made. */
  datatype ReadOutcome = ReadOutcome(reply: Reply<CachedValue>, cache: Cache, brokerLookups: nat, exchangeCalls: nat)

  /** The reply to an exchange read: its value, or 500 when it threw. */
  function Fetched<T>(v: Option<T>): (r: Reply<T>)
    ensures r.Body? <==> v.Some?
    ensures r.Body? ==> r.value == v.value
    ensures v.None? ==> r == Status(500)
  {
    match v
    case Some(x) => Body(x)
    case None => Status(500)
  }

  /**
   * The cache-aside pattern the three short-lived routes share. Every
   * cached value is a (possibly empty) array, and arrays are truthy, so
   * any live entry counts as a hit. Only a successful read is cached.
   */
  function CacheAside(cache: Cache, brokers: BrokerTable, key: CacheKey, id: string, now: int, compute: Broker -> Option<CachedValue>)
    : (r: ReadOutcome)
    ensures Get(cache, key, now).Some? ==> r == ReadOutcome(Body(Get(cache, key, now).value), cache, 0, 0)
    ensures Get(cache, key, now).None? ==> r.brokerLookups == 1
    ensures Get(cache, key, now).None? && id !in brokers ==> r.reply == Status(400) && r.cache == cache && r.exchangeCalls == 0
    ensures Get(cache, key, now).None? && id in brokers && brokers[id].exchange == Bybit ==>
      r.reply == NoReply && r.cache == cache && r.exchangeCalls == 0
    ensures Get(cache, key, now).None? && id in brokers && brokers[id].exchange == Binance ==>
      && r.exchangeCalls == 1
      && r.reply == Fetched(compute(brokers[id]))
      && (compute(brokers[id]).None? ==> r.cache == cache)
      && (compute(brokers[id]).Some? ==> r.cache == Set(cache, key, compute(brokers[id]).value, ShortTtl, now))
  {
    match Get(cache, key, now)
    case Some(v) => ReadOutcome(Body(v), cache, 0, 0)
    case None =>
      if id !in brokers then ReadOutcome(Status(400), cache, 1, 0)
      else
        var broker := brokers[id];
        match broker.exchange
        case Bybit => ReadOutcome(NoReply, cache, 1, 0)
        case Binance =>
          match compute(broker)
          case None => ReadOutcome(Status(500), cache, 1, 1)
          case Some(v) => ReadOutcome(Body(v), Set(cache, key, v, ShortTtl, now), 1, 1)
  }

  /** GET /api/brokers/:id/holdings. */
  function GetHoldings(cache: Cache, brokers: BrokerTable, id: string, now: int, ex: ExchangeReads): (r: ReadOutcome)
    ensures r.reply.Body? && r.exchangeCalls == 1 ==>
      && id in brokers && ex.spotBalances(brokers[id]).Some?
      && r.reply.value == HoldingsValue(ProjectHoldings(ex.spotBalances(brokers[id]).value))
    ensures r.reply == Status(500) <==>
      Get(cache, HoldingsKey(id), now).None? && id in brokers && brokers[id].exchange == Binance
      && ex.spotBalances(brokers[id]).None?
  {
    CacheAside(cache, brokers, HoldingsKey(id), id, now,
               b => match ex.spotBalances(b)
                    case Some(bs) => Some(HoldingsValue(ProjectHoldings(bs)))
                    case None => None)
  }

  /** GET /api/brokers/:id/positions. */
  function GetPositions(cache: Cache, brokers: BrokerTable, id: string, now: int, ex: ExchangeReads): (r: ReadOutcome)
    ensures r.reply.Body? && r.exchangeCalls == 1 ==>
      && id in brokers && ex.futuresPositions(brokers[id]).Some?
      && r.reply.value == PositionsValue(ProjectPositions(ex.futuresPositions(brokers[id]).value))
    ensures r.reply == Status(500) <==>
      Get(cache, PositionsKey(id), now).None? && id in brokers && brokers[id].exchange == Binance
      && ex.futuresPositions(brokers[id]).None?
  {
    CacheAside(cache, brokers, PositionsKey(id), id, now,
               b => match ex.futuresPositions(b)
                    case Some(ps) => Some(PositionsValue(ProjectPositions(ps)))
                    case None => None)
  }

  /** GET /api/brokers/:id/open-orders/:market; the market picks the client and the cache key. */
  function GetOpenOrders(cache: Cache, brokers: BrokerTable, id: string, market: Market, now: int, ex: ExchangeReads)
    : (r: ReadOutcome)
    ensures r.reply.Body? && r.exchangeCalls == 1 ==>
      && id in brokers && ex.openOrders(market, brokers[id]).Some?
      && r.reply.value == OpenOrdersValue(ProjectOpenOrders(market, ex.openOrders(market, brokers[id]).value))
    ensures r.reply == Status(500) <==>
      Get(cache, OpenOrdersKey(market, id), now).None? && id in brokers && brokers[id].exchange == Binance
      && ex.openOrders(market, brokers[id]).None?
  {
    CacheAside(cache, brokers, OpenOrdersKey(market, id), id, now,
               b => match ex.openOrders(market, b)
                    case Some(os) => Some(OpenOrdersValue(ProjectOpenOrders(market, os)))
                    case None => None)
  }

  /**
   * Two reads of one key at most 30 seconds apart, the first of which did
   * not fail, reach the exchange at most once between them; when the first
   * one fetched, the second is answered from the cache with the same value,
   * whatever happened to the brokers table or the exchange in between. A
   * failed first read caches nothing: the second read behaves as if the
   * first had not happened.
   */
  lemma AtMostOneFetchWithinTtl(
    cache: Cache, brokers1: BrokerTable, brokers2: BrokerTable, key: CacheKey, id: string,
    now1: int, now2: int, compute1: Broker -> Option<CachedValue>, compute2: Broker -> Option<CachedValue>)
    requires now1 <= now2 <= now1 + ShortTtl
    ensures var r1 := CacheAside(cache, brokers1, key, id, now1, compute1);
      var r2 := CacheAside(r1.cache, brokers2, key, id, now2, compute2);
      && (r1.reply != Status(500) ==> r1.exchangeCalls + r2.exchangeCalls <= 1)
      && (r1.reply != Status(500) && r1.exchangeCalls == 1 ==> r2.reply == r1.reply && r2.brokerLookups == 0)
      && (r1.reply == Status(500) ==> r2 == CacheAside(cache, brokers2, key, id, now2, compute2))
  {
    var r1 := CacheAside(cache, brokers1, key, id, now1, compute1);
    if r1.exchangeCalls == 1 && r1.reply != Status(500) {
      SetThenGet(cache, key, compute1(brokers1[id]).value, ShortTtl, now1, now2);
    }
  }

  /**
   * Once the 30 seconds have passed, the next read of a key the first read
   * went to the exchange for goes to the exchange again, once, whether or
   * not the first read succeeded.
   */
  lemma FetchAgainAfterTtl(
    cache: Cache, brokers: BrokerTable, key: CacheKey, id: string, now1: int, now2: int,
    compute1: Broker -> Option<CachedValue>, compute2: Broker -> Option<CachedValue>)
    requires now2 > now1 + ShortTtl
    requires CacheAside(cache, brokers, key, id, now1, compute1).exchangeCalls == 1
    ensures var r1 := CacheAside(cache, brokers, key, id, now1, compute1);
      var r2 := CacheAside(r1.cache, brokers, key, id, now2, compute2);
      r2.exchangeCalls == 1 && r2.reply == Fetched(compute2(brokers[id]))
  {
    if compute1(brokers[id]).Some? {
      SetThenGet(cache, key, compute1(brokers[id]).value, ShortTtl, now1, now2);
    }
  }

  /** One day of the balance history; `balance` is null when that day's entry is missing. */
  datatype DailyBalance = DailyBalance(day: int, balance: Option<CachedValue>)

  /**
   * GET /api/brokers/:id/balance?days=n. Days are day ordinals and `today`
   * is the current one; `now` is the cache clock.
   */
  method BalanceHistory(cache: Cache, brokers: BrokerTable, id: string, days: int, today: int, now: int, ex: ExchangeReads)
    returns (reply: Reply<seq<DailyBalance>>, cache': Cache, exchangeCalls: nat)
    ensures id !in brokers || brokers[id].exchange == Bybit ==>
      reply == Status(400) && cache' == cache && exchangeCalls == 0
    ensures id in brokers && brokers[id].exchange == Binance ==> exchangeCalls == 1
    // a failed wallet read: 500, nothing written
    ensures id in brokers && brokers[id].exchange == Binance && ex.wallets(brokers[id]).None? ==>
      reply == Status(500) && cache' == cache
    ensures id in brokers && brokers[id].exchange == Binance && ex.wallets(brokers[id]).Some? ==>
      var latest := BalancesValue(ProjectWallets(ex.wallets(brokers[id]).value));
      && cache' == Set(cache, BalanceKey(id, today), latest, BalanceTtl, now)
      && reply.Body?
      && |reply.value| == (if days > 0 then days else 0)
      && (forall i :: 0 <= i < |reply.value| ==> reply.value[i].day == today - |reply.value| + 1 + i)
      && (forall i :: 0 <= i < |reply.value| ==> reply.value[i].balance == Get(cache', BalanceKey(id, reply.value[i].day), now))
      && (|reply.value| > 0 ==> reply.value[|reply.value| - 1].balance == Some(latest))
  {
    if id !in brokers {
      return Status(400), cache, 0;
    }
    var broker := brokers[id];
    if broker.exchange == Bybit {
      return Status(400), cache, 0;
    }
    var wallets := ex.wallets(broker);
    if wallets.None? {
      return Status(500), cache, 1;
    }
    var balance := ProjectWallets(wallets.value);
    cache' := Set(cache, BalanceKey(id, today), BalancesValue(balance), BalanceTtl, now);
    var history := AssembleHistory(cache', id, days, today, now);
    if |history| > 0 {
      assert history[|history| - 1].day == today;
    }
    reply := Body(history);
    exchangeCalls := 1;
  }

  /**
   * The days ending with `today`, oldest first, each with the balance the
   * cache holds for it at `now`.
   */
  method AssembleHistory(c: Cache, id: string, days: int, today: int, now: int) returns (history: seq<DailyBalance>)
    ensures |history| == (if days > 0 then days else 0)
    ensures forall m :: 0 <= m < |history| ==> history[m].day == today - |history| + 1 + m
    ensures forall m :: 0 <= m < |history| ==> history[m].balance == Get(c, BalanceKey(id, history[m].day), now)
  {
    var keys, entries := NewestFirst(id, today, days);
    var found := GetMany(c, keys, now);
    var filled := FillBalances(entries, found);
    history := Reversed(filled);
    var n := |history|;
    forall m | 0 <= m < n
      ensures history[m].day == today - n + 1 + m
      ensures history[m].balance == Get(c, BalanceKey(id, history[m].day), now)
    {
      assert history[m] == filled[n - 1 - m];
      assert keys[n - 1 - m] == BalanceKey(id, today - (n - 1 - m));
    }
  }

  /** The cache keys and placeholder entries of the last `days` days, newest first. */
  method NewestFirst(id: string, today: int, days: int) returns (keys: seq<CacheKey>, entries: seq<DailyBalance>)
    ensures |keys| == |entries| == (if days > 0 then days else 0)
    ensures forall k :: 0 <= k < |keys| ==> keys[k] == BalanceKey(id, today - k)
    ensures forall k :: 0 <= k < |entries| ==> entries[k] == DailyBalance(today - k, None)
  {
    keys, entries := [], [];
    var i := 0;
    while i < days
      invariant 0 <= i && (i <= days || i == 0)
      invariant |keys| == i && |entries| == i
      invariant forall k :: 0 <= k < i ==> keys[k] == BalanceKey(id, today - k)
      invariant forall k :: 0 <= k < i ==> entries[k] == DailyBalance(today - k, None)
    {
      keys := keys + [BalanceKey(id, today - i)];
      entries := entries + [DailyBalance(today - i, None)];
      i := i + 1;
    }
  }

  /** Each entry takes the value read for it, or stays null. */
  method FillBalances(entries: seq<DailyBalance>, found: seq<Option<CachedValue>>) returns (filled: seq<DailyBalance>)
    requires |found| == |entries|
    ensures |filled| == |entries|
    ensures forall k :: 0 <= k < |entries| ==> filled[k] == DailyBalance(entries[k].day, found[k])
  {
    filled := entries;
    var j := 0;
    while j < |entries|
      invariant 0 <= j <= |entries| == |filled|
      invariant forall k :: 0 <= k < j ==> filled[k] == DailyBalance(entries[k].day, found[k])
      invariant forall k :: j <= k < |entries| ==> filled[k] == entries[k]
    {
      filled := filled[j := entries[j].(balance := found[j])];
      j := j + 1;
    }
  }

  /**
   * The sort by date string: the entries are strictly newest first, so
   * the ascending order is their reverse.
   */
  method Reversed<T>(s: seq<T>) returns (r: seq<T>)
    ensures |r| == |s|
    ensures forall m :: 0 <= m < |r| ==> r[m] == s[|s| - 1 - m]
  {
    r := [];
    var k := |s|;
    while k > 0
      invariant 0 <= k <= |s|
      invariant |r| == |s| - k
      invariant forall m :: 0 <= m < |r| ==> r[m] == s[|s| - 1 - m]
    {
      r := r + [s[k - 1]];
      k := k - 1;
    }
  }

  /** The history's days are strictly increasing. */
  lemma HistoryAscending(h: seq<DailyBalance>, today: int)
    requires forall i :: 0 <= i < |h| ==> h[i].day == today - |h| + 1 + i
    ensures forall i, j :: 0 <= i < j < |h| ==> h[i].day < h[j].day
  {
  }
}
