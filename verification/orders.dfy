/**
 * The order tree shared by the web editor and the API: a list of groups,
 * each tying a market and symbol to a primary batch of legs and to
 * sub-lists that hold batches of their own (two levels, no deeper).
 */
module Orders {
  import opened Wrappers
  import opened Text

  datatype Market = Spot | Futures

  datatype Side = Buy | Sell {
    function Flip(): Side {
      if Buy? then Sell else Buy
    }
  }

  /** The abstract order types a leg may carry. */
  datatype OrderType = MarketOrder | LimitOrder | StopLossLimit | StopLossMarket

  /** The type's wire name, on which the source runs its prefix and suffix tests. */
  function TypeName(t: OrderType): string {
    match t
    case MarketOrder => "market"
    case LimitOrder => "limit"
    case StopLossLimit => "stop_loss_limit"
    case StopLossMarket => "stop_loss_market"
  }

  /** Type names that end in "limit": exactly the two types that carry a limit price. */
  lemma EndsWithLimit(t: OrderType)
    ensures EndsWith(TypeName(t), "limit") <==> t == LimitOrder || t == StopLossLimit
  {
    if t == MarketOrder {
      assert TypeName(t)[1] != "limit"[0];
    } else if t == StopLossMarket {
      assert TypeName(t)[11] != "limit"[0];
    }
  }

  /** Type names that start with "stop_loss": exactly the two stop types. */
  lemma StartsWithStopLoss(t: OrderType)
    ensures StartsWith(TypeName(t), "stop_loss") <==> t == StopLossLimit || t == StopLossMarket
  {
    if t == MarketOrder {
      assert TypeName(t)[0] != "stop_loss"[0];
    } else if t == LimitOrder {
      assert TypeName(t)[0] != "stop_loss"[0];
    }
  }

  /** Prices and quantities are JavaScript numbers; the model only compares them. */
  datatype OrderParams = OrderParams(
    orderType: OrderType,
    quantity: real,
    side: Side,
    price: Option<real>,
    stopPrice: Option<real>)

  /** One leg: a client-chosen id, an optional parent leg, and its parameters. */
  datatype Order = Order(orderId: string, parentOrderId: Option<string>, params: OrderParams)

  datatype SubList = SubList(batchOrders: seq<Order>)

  datatype OrderGroup = OrderGroup(
    market: Market,
    symbol: string,
    batchOrders: seq<Order>,
    subOrderList: seq<SubList>)

  type OrderList = seq<OrderGroup>

  /** The number of legs held by a sequence of sub-lists. */
  function SubLegCount(subs: seq<SubList>): nat {
    if |subs| == 0 then 0 else |subs[0].batchOrders| + SubLegCount(subs[1..])
  }

  /** The legs of a sequence of sub-lists, sub-list by sub-list. */
  function SubLegs(subs: seq<SubList>): (legs: seq<Order>)
    ensures |legs| == SubLegCount(subs)
  {
    if |subs| == 0 then [] else subs[0].batchOrders + SubLegs(subs[1..])
  }

  /** The number of legs of a group: its batch and every sub-list batch. */
  function GroupLegCount(g: OrderGroup): nat {
    |g.batchOrders| + SubLegCount(g.subOrderList)
  }

  /** The shape every editing operation keeps: no batch at either level is empty. */
  predicate WellShaped(list: OrderList) {
    forall i :: 0 <= i < |list| ==> GroupWellShaped(list[i])
  }

  predicate GroupWellShaped(g: OrderGroup) {
    && |g.batchOrders| > 0
    && forall k :: 0 <= k < |g.subOrderList| ==> |g.subOrderList[k].batchOrders| > 0
  }
}
