/**
 * The shared schema: the validators the API runs on an incoming order
 * list, the domain of a stored order's status, and the constraints of the
 * brokers table.
 */
module Schema {
  import opened Wrappers
  import opened Text
  import opened Orders

  /** Positivity of the numeric fields, checked field by field. */
  predicate FieldsValid(p: OrderParams) {
    && p.quantity > 0.0
    && (p.price.Some? ==> p.price.value > 0.0)
    && (p.stopPrice.Some? ==> p.stopPrice.value > 0.0)
  }

  /**
   * The cross-field refinement, with the source's order of tests: a type
   * ending in "limit" is decided by the price alone, so the stop price of a
   * `stop_loss_limit` leg is never looked at.
   */
  predicate Refinement(p: OrderParams) {
    if EndsWith(TypeName(p.orderType), "limit") then p.price.Some?
    else if StartsWith(TypeName(p.orderType), "stop_loss") then p.stopPrice.Some?
    else true
  }

  /** An order passes the schema when its fields and the refinement both pass. */
  predicate ValidOrder(o: Order) {
    FieldsValid(o.params) && Refinement(o.params)
  }

  predicate ValidBatch(batch: seq<Order>) {
    |batch| >= 1 && forall i :: 0 <= i < |batch| ==> ValidOrder(batch[i])
  }

  /** The list schema: at least one group, and every batch at either level non-empty and valid. */
  predicate ValidOrderList(list: OrderList) {
    && |list| >= 1
    && forall i :: 0 <= i < |list| ==> ValidGroup(list[i])
  }

  predicate ValidGroup(g: OrderGroup) {
    && ValidBatch(g.batchOrders)
    && forall k :: 0 <= k < |g.subOrderList| ==> ValidBatch(g.subOrderList[k].batchOrders)
  }

  /** The refinement read type by type. */
  lemma RefinementByType(p: OrderParams)
    ensures Refinement(p) <==>
      match p.orderType
      case MarketOrder => true
      case LimitOrder => p.price.Some?
      case StopLossLimit => p.price.Some?
      case StopLossMarket => p.stopPrice.Some?
  {
    EndsWithLimit(p.orderType);
    StartsWithStopLoss(p.orderType);
  }

  /**
   * Because the "limit" test returns first, a `stop_loss_limit` leg with a
   * price and no stop price is accepted, and so is a market leg with neither.
   */
  lemma StopLossLimitWithoutStopPriceAccepted(id: string, q: real, p: real, s: Side)
    requires q > 0.0 && p > 0.0
    ensures ValidOrder(Order(id, None, OrderParams(StopLossLimit, q, s, Some(p), None)))
    ensures ValidOrder(Order(id, None, OrderParams(MarketOrder, q, s, None, None)))
  {
    RefinementByType(OrderParams(StopLossLimit, q, s, Some(p), None));
    RefinementByType(OrderParams(MarketOrder, q, s, None, None));
  }

  /** A valid list is well shaped, and its groups all carry at least one leg. */
  lemma ValidListWellShaped(list: OrderList)
    requires ValidOrderList(list)
    ensures WellShaped(list) && |list| >= 1
  {
  }

  /** The status column of the orders table; a row inserted without one is `Pending`. */
  datatype OrderStatus = Open | Pending | Filled | Cancelled | Rejected

  function StoredStatus(s: Option<OrderStatus>): (r: OrderStatus)
    ensures s.None? ==> r == Pending
    ensures s.Some? ==> r == s.value
  {
    s.GetOr(Pending)
  }

  datatype Exchange = Binance | Bybit

  datatype BrokerStatus = Ok | Bad

  /** A row of the brokers table; timestamps other than the credentials' are not modelled. */
  datatype Broker = Broker(
    userId: string,
    exchange: Exchange,
    brokerLabel: string,
    apiKey: string,
    apiSecret: string,
    status: BrokerStatus,
    ipRestricted: bool,
    credentialsCreatedAt: int)

  /** The brokers table, keyed by primary key. */
  type BrokerTable = map<string, Broker>

  /** Two rows clash on one of the table's unique constraints. */
  predicate Clash(a: Broker, b: Broker) {
    || (a.userId == b.userId && a.brokerLabel == b.brokerLabel)
    || (a.apiKey == b.apiKey && a.apiSecret == b.apiSecret)
  }

  /** No two rows share (userId, label), and no two share (apiKey, apiSecret). */
  predicate UniqueBrokers(t: BrokerTable) {
    forall a, b :: a in t && b in t && a != b ==> !Clash(t[a], t[b])
  }

  /** Some row other than `id` clashes with `b`. */
  predicate ClashesWithOthers(t: BrokerTable, id: string, b: Broker) {
    exists other :: other in t && other != id && Clash(t[other], b)
  }

  /**
   * Writing row `b` under key `id` (insert or update): the store refuses
   * the write, leaving the table as it was, when it would break a unique
   * constraint.
   */
  function WriteBroker(t: BrokerTable, id: string, b: Broker): (r: Option<BrokerTable>)
    ensures r.None? <==> ClashesWithOthers(t, id, b)
    ensures r.Some? ==> r.value.Keys == t.Keys + {id} && r.value[id] == b
    ensures r.Some? ==> forall k :: k in t && k != id ==> k in r.value && r.value[k] == t[k]
    ensures r.Some? && UniqueBrokers(t) ==> UniqueBrokers(r.value)
  {
    if ClashesWithOthers(t, id, b) then None else Some(t[id := b])
  }

  /** Inserting a new row: refused on a taken primary key as well as on a unique-constraint clash. */
  function InsertBroker(t: BrokerTable, id: string, b: Broker): (r: Option<BrokerTable>)
    ensures r.None? <==> id in t || ClashesWithOthers(t, id, b)
    ensures r.Some? ==> r.value == t[id := b]
    ensures r.Some? && UniqueBrokers(t) ==> UniqueBrokers(r.value)
  {
    if id in t then None else WriteBroker(t, id, b)
  }
}
