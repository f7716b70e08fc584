/**
 * POST /api/brokers/:id/order-list: validate the tree, find the broker,
 * fetch the live price for the first group, submit that group's first leg
 * to the market the first group names, then flatten the whole tree and
 * insert every row.
 */
module OrderSubmission {
  import opened Wrappers
  import opened Orders
  import opened Schema
  import opened Http
  import opened OrderTypeMapping
  import opened Flattening
  import opened OrderRequest

  /** An inserted row, with the status its column resolves to. */
  datatype StoredOrder = StoredOrder(row: Row, status: OrderStatus)

  /** The orders table, keyed by primary key. */
  type OrderTable = map<string, StoredOrder>

  predicate DistinctIds(rows: seq<Row>) {
    forall i, j :: 0 <= i < j < |rows| ==> rows[i].id != rows[j].id
  }

  /**
   * One multi-row insert: all rows or none. It fails on a primary key that
   * is taken or repeated within the batch.
   */
  function InsertOrders(t: OrderTable, rows: seq<Row>): (r: Option<OrderTable>)
    ensures r.Some? <==> DistinctIds(rows) && forall i :: 0 <= i < |rows| ==> rows[i].id !in t
    ensures r.Some? ==> forall i :: 0 <= i < |rows| ==>
      rows[i].id in r.value && r.value[rows[i].id] == StoredOrder(rows[i], StoredStatus(rows[i].status))
    ensures r.Some? ==> forall k :: k in t ==> k in r.value && r.value[k] == t[k]
    ensures r.Some? ==> forall k :: k in r.value ==> k in t || exists i :: 0 <= i < |rows| && rows[i].id == k
    decreases |rows|
  {
    if |rows| == 0 then Some(t)
    else if rows[0].id in t then None
    else
      match InsertOrders(t[rows[0].id := StoredOrder(rows[0], StoredStatus(rows[0].status))], rows[1..])
      case None => None
      case Some(t') =>
        assert forall i :: 1 <= i < |rows| ==> rows[i] == rows[1..][i - 1];
        Some(t')
  }

  datatype ExchangeCall =
    | PriceQuery(market: Market, symbol: string)
    | SubmitOrder(market: Market, request: NewOrderRequest)

  /**
   * The exchange's answers: a live price per market and symbol, and the
   * status a submission reports. `None` is a call that throws (a network
   * error, a rejected key or order); the app's error handler answers 500.
   */
  datatype OrderOracles = OrderOracles(
    price: (Market, string) -> Option<real>,
    submit: (Market, NewOrderRequest) -> Option<string>)

  /** The reply, the calls made to the exchange in order, and the orders table afterwards. */
  datatype SubmitOutcome = SubmitOutcome(reply: Reply<()>, calls: seq<ExchangeCall>, orders: OrderTable)

  /** A valid list sent to a stored Binance broker: the case in which the route reaches the exchange. */
  predicate ReachesExchange(brokers: BrokerTable, id: string, list: OrderList) {
    ValidOrderList(list) && id in brokers && brokers[id].exchange == Binance
  }

  /** The live price the route asks for: that of the first group's market and symbol. */
  function LivePrice(list: OrderList, ex: OrderOracles): Option<real>
    requires |list| > 0
  {
    ex.price(list[0].market, list[0].symbol)
  }

  /** The request the route sends for a valid list at live price `currentPrice`. */
  function FirstRequest(list: OrderList, currentPrice: real): NewOrderRequest
    requires ValidOrderList(list)
  {
    BuildOrderRequest(list[0], currentPrice)
  }

  /** The status the exchange reports for the submitted request, once the price is known. */
  function Submission(list: OrderList, ex: OrderOracles): Option<string>
    requires ValidOrderList(list) && LivePrice(list, ex).Some?
  {
    ex.submit(list[0].market, FirstRequest(list, LivePrice(list, ex).value))
  }

  function SubmitOrderList(brokers: BrokerTable, orders: OrderTable, id: string, list: OrderList, ex: OrderOracles)
    : (r: SubmitOutcome)
    // rejected before any exchange call
    ensures !ValidOrderList(list) ==> r == SubmitOutcome(Status(400), [], orders)
    ensures ValidOrderList(list) && id !in brokers ==> r == SubmitOutcome(Status(400), [], orders)
    ensures ValidOrderList(list) && id in brokers && brokers[id].exchange == Bybit ==>
      r == SubmitOutcome(NoReply, [], orders)
    // a failed price query: 500 and no further call
    ensures ReachesExchange(brokers, id, list) && LivePrice(list, ex).None? ==>
      r == SubmitOutcome(Status(500), [PriceQuery(list[0].market, list[0].symbol)], orders)
    // otherwise one price query and one submission, both on the first group's market
    ensures ReachesExchange(brokers, id, list) && LivePrice(list, ex).Some? ==>
      && r.calls == [PriceQuery(list[0].market, list[0].symbol),
                     SubmitOrder(list[0].market, FirstRequest(list, LivePrice(list, ex).value))]
      && (r.reply == Status(201) || r.reply == Status(500))
    // a failed submission: 500, nothing stored
    ensures ReachesExchange(brokers, id, list) && LivePrice(list, ex).Some? && Submission(list, ex).None? ==>
      r.reply == Status(500)
    // the insert succeeds exactly when every flattened id is new and none repeats
    ensures ReachesExchange(brokers, id, list) && LivePrice(list, ex).Some? && Submission(list, ex).Some? ==>
      var rows := FlattenOrders(list, Submission(list, ex).value, id);
      (r.reply == Status(201) <==> DistinctIds(rows) && forall i :: 0 <= i < |rows| ==> rows[i].id !in orders)
    // no partial persistence: anything but 201 leaves the orders table as it was
    ensures r.reply != Status(201) ==> r.orders == orders
    ensures r.reply == Status(201) ==>
      && ReachesExchange(brokers, id, list) && LivePrice(list, ex).Some? && Submission(list, ex).Some?
      && var rows := FlattenOrders(list, Submission(list, ex).value, id);
      && (forall i :: 0 <= i < |rows| ==>
            rows[i].id in r.orders && r.orders[rows[i].id] == StoredOrder(rows[i], StoredStatus(rows[i].status)))
      && (forall k :: k in orders ==> k in r.orders && r.orders[k] == orders[k])
      && (forall k :: k in r.orders ==> k in orders || exists i :: 0 <= i < |rows| && rows[i].id == k)
  {
    if !ValidOrderList(list) then SubmitOutcome(Status(400), [], orders)
    else if id !in brokers then SubmitOutcome(Status(400), [], orders)
    else
      var broker := brokers[id];
      match broker.exchange
      case Bybit => SubmitOutcome(NoReply, [], orders)
      case Binance =>
        var first := list[0];
        var priceQuery := PriceQuery(first.market, first.symbol);
        match ex.price(first.market, first.symbol)
        case None => SubmitOutcome(Status(500), [priceQuery], orders)
        case Some(currentPrice) =>
          var request := BuildOrderRequest(first, currentPrice);
          var calls := [priceQuery, SubmitOrder(first.market, request)];
          match ex.submit(first.market, request)
          case None => SubmitOutcome(Status(500), calls, orders)
          case Some(respStatus) =>
            match InsertOrders(orders, FlattenOrders(list, respStatus, id))
            case None => SubmitOutcome(Status(500), calls, orders)
            case Some(t') => SubmitOutcome(Status(201), calls, t')
  }

  /** The rows of group `gi` appear as one contiguous block of the flattened list. */
  lemma {:induction false} GroupBlock(list: OrderList, respStatus: string, brokerId: string, gi: nat) returns (offset: nat)
    requires gi < |list|
    ensures var rows, block := FlattenOrders(list, respStatus, brokerId), GroupRows(list[gi], respStatus == "FILLED", brokerId);
      offset + |block| <= |rows| && rows[offset .. offset + |block|] == block
  {
    var first := GroupRows(list[0], respStatus == "FILLED", brokerId);
    var rest := FlattenOrders(list[1..], respStatus, brokerId);
    assert FlattenOrders(list, respStatus, brokerId) == first + rest;
    if gi == 0 {
      offset := 0;
      PrefixOfConcat(first, rest);
    } else {
      var o := GroupBlock(list[1..], respStatus, brokerId, gi - 1);
      assert list[1..][gi - 1] == list[gi];
      offset := |first| + o;
      var block := GroupRows(list[gi], respStatus == "FILLED", brokerId);
      SliceOfConcatTail(first, rest, o, o + |block|);
    }
  }

  lemma PrefixOfConcat<T>(a: seq<T>, b: seq<T>)
    ensures (a + b)[0..|a|] == a
  {
  }

  lemma SliceOfConcatTail<T>(a: seq<T>, b: seq<T>, lo: nat, hi: nat)
    requires lo <= hi <= |b|
    ensures (a + b)[|a| + lo .. |a| + hi] == b[lo..hi]
  {
  }

  /**
   * A list with a group of two or more primary legs and at least one
   * sub-list leg is never stored: when the exchange calls succeed, the
   * sub-list leg's id is inserted twice, after the first leg has already
   * been submitted.
   */
  lemma RepeatedLegRejectedAfterSubmission(
    brokers: BrokerTable, orders: OrderTable, id: string, list: OrderList, ex: OrderOracles, gi: nat)
    requires ReachesExchange(brokers, id, list)
    requires gi < |list| && |list[gi].batchOrders| >= 2 && SubLegCount(list[gi].subOrderList) >= 1
    ensures SubmitOrderList(brokers, orders, id, list, ex).reply == Status(500)
    ensures SubmitOrderList(brokers, orders, id, list, ex).orders == orders
    ensures LivePrice(list, ex).Some? ==>
      exists c :: c in SubmitOrderList(brokers, orders, id, list, ex).calls && c.SubmitOrder?
  {
    var r := SubmitOrderList(brokers, orders, id, list, ex);
    if LivePrice(list, ex).Some? {
      assert r.calls[1].SubmitOrder?;
      if Submission(list, ex).Some? {
        var respStatus := Submission(list, ex).value;
        var rows := FlattenOrders(list, respStatus, id);
        var block := GroupRows(list[gi], respStatus == "FILLED", id);
        var s := SubLegCount(list[gi].subOrderList);
        RepeatedSubLegId(list[gi], respStatus == "FILLED", id);
        var offset := GroupBlock(list, respStatus, id, gi);
        assert rows[offset + 1] == block[1];
        assert rows[offset + s + 2] == block[s + 2];
        assert !DistinctIds(rows);
      }
    }
  }

  /**
   * The single-leg scenario: a spot buy stop-market for 0.01 BTCUSDT with
   * stop 50000 while the price is 49000 is sent as a spot STOP_LOSS; when
   * the submission goes through, one row is stored, pending unless the
   * exchange reports a fill, and when it fails nothing is stored.
   */
  lemma SingleStopMarketScenario(brokers: BrokerTable, orders: OrderTable, id: string, legId: string, ex: OrderOracles)
    requires id in brokers && brokers[id].exchange == Binance && legId !in orders
    requires ex.price(Spot, "BTCUSDT") == Some(49000.0)
    ensures var leg := Order(legId, None, OrderParams(StopLossMarket, 0.01, Buy, None, Some(50000.0)));
      var list := [OrderGroup(Spot, "BTCUSDT", [leg], [])];
      var r := SubmitOrderList(brokers, orders, id, list, ex);
      && |r.calls| == 2 && r.calls[1].SubmitOrder? && r.calls[1].request.orderType == STOP_LOSS
      && (ex.submit(Spot, r.calls[1].request).None? ==> r.reply == Status(500) && r.orders == orders)
      && (ex.submit(Spot, r.calls[1].request).Some? ==>
            && r.reply == Status(201)
            && r.orders.Keys == orders.Keys + {legId}
            && r.orders[legId].status == (if ex.submit(Spot, r.calls[1].request) == Some("FILLED") then Filled else Pending))
  {
    var leg := Order(legId, None, OrderParams(StopLossMarket, 0.01, Buy, None, Some(50000.0)));
    var g := OrderGroup(Spot, "BTCUSDT", [leg], []);
    var list := [g];
    assert ValidOrderList(list) by {
      RefinementByType(leg.params);
      assert ValidGroup(g);
    }
    if Submission(list, ex).Some? {
      var respStatus := Submission(list, ex).value;
      var row := LegRow(g, leg, PrimaryStatus(0, respStatus == "FILLED"), id);
      assert FlattenOrders(list, respStatus, id) == [row] by {
        assert list[1..] == [];
        assert SubListRows(g, id) == [] by { assert SubLegCount(g.subOrderList) == 0; }
        assert BatchRowsFrom(g, 1, respStatus == "FILLED", id) == [];
      }
      assert InsertOrders(orders, [row]) == Some(orders[legId := StoredOrder(row, StoredStatus(row.status))]) by {
        assert [row][1..] == [];
      }
    }
  }
}
