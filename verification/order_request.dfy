/**
 * The request `submitBinanceOrder` sends for a group: only the group's
 * first primary leg is submitted, and the optional fields are chosen by
 * tests on the leg's type name.
 */
module OrderRequest {
  import opened Wrappers
  import opened Text
  import opened Orders
  import opened Schema
  import opened OrderTypeMapping

  datatype ExchangeSide = BUY | SELL

  datatype NewOrderRequest = NewOrderRequest(
    symbol: string,
    side: ExchangeSide,
    orderType: ExchangeType,
    quantity: real,
    price: Option<real>,
    stopPrice: Option<real>,
    timeInForce: Option<string>,
    newClientOrderId: string,
    newOrderRespType: string)

  /**
   * The request for group `g` at live price `currentPrice`. A field spread
   * in with the value `undefined` is not sent, so it is modelled as absent.
   */
  function BuildOrderRequest(g: OrderGroup, currentPrice: real): (r: NewOrderRequest)
    requires |g.batchOrders| > 0
    ensures var leg := g.batchOrders[0];
      && r.symbol == g.symbol
      && (r.side == BUY <==> leg.params.side == Buy)
      && r.orderType == MapOrderType(g.market, leg.params, currentPrice)
      && r.quantity == leg.params.quantity
      && r.newClientOrderId == leg.orderId
      && r.newOrderRespType == "RESULT"
      && (r.price.Some? <==> EndsWith(TypeName(leg.params.orderType), "limit") && leg.params.price.Some?)
      && (r.price.Some? ==> r.price == leg.params.price)
      && (r.stopPrice.Some? <==> StartsWith(TypeName(leg.params.orderType), "stop_loss") && leg.params.stopPrice.Some?)
      && (r.stopPrice.Some? ==> r.stopPrice == leg.params.stopPrice)
      && (r.timeInForce.Some? <==> EndsWith(TypeName(leg.params.orderType), "limit"))
      && (r.timeInForce.Some? ==> r.timeInForce.value == "GTC")
  {
    var leg := g.batchOrders[0];
    var name := TypeName(leg.params.orderType);
    NewOrderRequest(
      g.symbol,
      if leg.params.side == Buy then BUY else SELL,
      MapOrderType(g.market, leg.params, currentPrice),
      leg.params.quantity,
      if EndsWith(name, "limit") then leg.params.price else None,
      if StartsWith(name, "stop_loss") then leg.params.stopPrice else None,
      if EndsWith(name, "limit") then Some("GTC") else None,
      leg.orderId,
      "RESULT")
  }

  /**
   * For a first leg that passed the schema, the price and time-in-force are
   * sent exactly for the limit and stop-limit types, and the stop price is
   * always sent for a stop-market leg; a stop-limit leg carries one only
   * when the client supplied it, since the schema does not demand it.
   */
  lemma RequestFieldsByType(g: OrderGroup, currentPrice: real)
    requires |g.batchOrders| > 0 && ValidOrder(g.batchOrders[0])
    ensures var t, r := g.batchOrders[0].params.orderType, BuildOrderRequest(g, currentPrice);
      && (r.price.Some? <==> t == LimitOrder || t == StopLossLimit)
      && (r.timeInForce == Some("GTC") <==> t == LimitOrder || t == StopLossLimit)
      && (t == StopLossMarket ==> r.stopPrice.Some?)
      && (t == MarketOrder || t == LimitOrder ==> r.stopPrice.None?)
      && (r.price.Some? ==> r.price.value > 0.0)
      && (r.stopPrice.Some? ==> r.stopPrice.value > 0.0)
  {
    var t := g.batchOrders[0].params.orderType;
    EndsWithLimit(t);
    StartsWithStopLoss(t);
    RefinementByType(g.batchOrders[0].params);
  }

  /**
   * The schema lets a buy stop-limit leg through without a stop price; it
   * is then submitted without one, as a take-profit-limit order.
   */
  lemma StopLimitWithoutStopPriceSubmitted(g: OrderGroup, currentPrice: real)
    requires |g.batchOrders| > 0 && ValidOrder(g.batchOrders[0])
    requires g.batchOrders[0].params.orderType == StopLossLimit
    requires g.batchOrders[0].params.side == Buy && g.batchOrders[0].params.stopPrice.None?
    ensures BuildOrderRequest(g, currentPrice).stopPrice.None?
    ensures BuildOrderRequest(g, currentPrice).orderType == Table(g.market, TakeProfitFamily, LimitVariant)
  {
  }
}
