/**
 * Translation of an abstract leg into a Binance order type. The exchange
 * has no "stop-loss or take-profit" flag: the family is inferred from
 * where the stop price sits relative to the live price, crossed with the
 * side.
 */
module OrderTypeMapping {
  import opened Wrappers
  import opened Orders

  /** Binance's order-type vocabulary, spot and futures together, in the exchange's own spelling. */
  datatype ExchangeType =
    | LIMIT | MARKET
    | STOP_LOSS | STOP_LOSS_LIMIT | TAKE_PROFIT | TAKE_PROFIT_LIMIT
    | STOP | STOP_MARKET | TAKE_PROFIT_MARKET

  function ExchangeName(e: ExchangeType): string {
    match e
    case LIMIT => "LIMIT"
    case MARKET => "MARKET"
    case STOP_LOSS => "STOP_LOSS"
    case STOP_LOSS_LIMIT => "STOP_LOSS_LIMIT"
    case TAKE_PROFIT => "TAKE_PROFIT"
    case TAKE_PROFIT_LIMIT => "TAKE_PROFIT_LIMIT"
    case STOP => "STOP"
    case STOP_MARKET => "STOP_MARKET"
    case TAKE_PROFIT_MARKET => "TAKE_PROFIT_MARKET"
  }

  /** Which way a triggered order works. */
  datatype Family = StopFamily | TakeProfitFamily {
    function Other(): Family {
      if StopFamily? then TakeProfitFamily else StopFamily
    }
  }

  /** Whether the triggered order rests as a limit order or executes at market. */
  datatype Variant = LimitVariant | MarketVariant

  /** The variant a stop type asks for. */
  function VariantOf(t: OrderType): Variant {
    if t == StopLossLimit || t == LimitOrder then LimitVariant else MarketVariant
  }

  /** The exchange's names for the triggered types, keyed by market, family and variant. */
  function Table(m: Market, f: Family, v: Variant): ExchangeType {
    match (m, f, v)
    case (Spot, StopFamily, LimitVariant) => STOP_LOSS_LIMIT
    case (Spot, StopFamily, MarketVariant) => STOP_LOSS
    case (Spot, TakeProfitFamily, LimitVariant) => TAKE_PROFIT_LIMIT
    case (Spot, TakeProfitFamily, MarketVariant) => TAKE_PROFIT
    case (Futures, StopFamily, LimitVariant) => STOP
    case (Futures, StopFamily, MarketVariant) => STOP_MARKET
    case (Futures, TakeProfitFamily, LimitVariant) => TAKE_PROFIT
    case (Futures, TakeProfitFamily, MarketVariant) => TAKE_PROFIT_MARKET
  }

  /** Reads a triggered exchange type back into its family and variant, for one market. */
  function Classify(m: Market, e: ExchangeType): Option<(Family, Variant)> {
    match (m, e)
    case (Spot, STOP_LOSS_LIMIT) => Some((StopFamily, LimitVariant))
    case (Spot, STOP_LOSS) => Some((StopFamily, MarketVariant))
    case (Spot, TAKE_PROFIT_LIMIT) => Some((TakeProfitFamily, LimitVariant))
    case (Spot, TAKE_PROFIT) => Some((TakeProfitFamily, MarketVariant))
    case (Futures, STOP) => Some((StopFamily, LimitVariant))
    case (Futures, STOP_MARKET) => Some((StopFamily, MarketVariant))
    case (Futures, TAKE_PROFIT) => Some((TakeProfitFamily, LimitVariant))
    case (Futures, TAKE_PROFIT_MARKET) => Some((TakeProfitFamily, MarketVariant))
    case _ => None
  }

  /** The table is one-to-one within a market: every entry reads back as its own key. */
  lemma TableRoundTrip(m: Market, f: Family, v: Variant)
    ensures Classify(m, Table(m, f, v)) == Some((f, v))
  {
  }

  /**
   * The source's comparison `stopPrice! > currentPrice`: a missing stop
   * price compares as `undefined > n`, which is false, so it counts as "not above".
   */
  predicate StopAbove(p: OrderParams, currentPrice: real) {
    p.stopPrice.Some? && p.stopPrice.value > currentPrice
  }

  /** The stop family is chosen for a buy above the live price and for a sell at or below it. */
  function InferredFamily(side: Side, above: bool): Family {
    if (side == Buy && above) || (side == Sell && !above) then StopFamily else TakeProfitFamily
  }

  /** `binanceOrderTypeMapping`, branch for branch. */
  function MapOrderType(m: Market, p: OrderParams, currentPrice: real): (r: ExchangeType)
    ensures p.orderType == LimitOrder ==> r == LIMIT
    ensures p.orderType == MarketOrder ==> r == MARKET
    ensures (p.orderType == StopLossLimit || p.orderType == StopLossMarket) ==>
      r == Table(m, InferredFamily(p.side, StopAbove(p, currentPrice)), VariantOf(p.orderType))
  {
    var isBuy := p.side == Buy;
    var isStopPriceAbove := StopAbove(p, currentPrice);
    match p.orderType
    case LimitOrder => LIMIT
    case MarketOrder => MARKET
    case StopLossLimit =>
      if isBuy then
        if isStopPriceAbove then (if m == Spot then STOP_LOSS_LIMIT else STOP)
        else (if m == Spot then TAKE_PROFIT_LIMIT else TAKE_PROFIT)
      else
        if isStopPriceAbove then (if m == Spot then TAKE_PROFIT_LIMIT else TAKE_PROFIT)
        else (if m == Spot then STOP_LOSS_LIMIT else STOP)
    case StopLossMarket =>
      if isBuy then
        if isStopPriceAbove then (if m == Spot then STOP_LOSS else STOP_MARKET)
        else (if m == Spot then TAKE_PROFIT else TAKE_PROFIT_MARKET)
      else
        if isStopPriceAbove then (if m == Spot then TAKE_PROFIT else TAKE_PROFIT_MARKET)
        else (if m == Spot then STOP_LOSS else STOP_MARKET)
  }

  /** A stop type always reads back with the inferred family and the variant its own name asks for. */
  lemma StopTypeClassified(m: Market, p: OrderParams, currentPrice: real)
    requires p.orderType == StopLossLimit || p.orderType == StopLossMarket
    ensures Classify(m, MapOrderType(m, p, currentPrice))
      == Some((InferredFamily(p.side, StopAbove(p, currentPrice)), VariantOf(p.orderType)))
  {
    TableRoundTrip(m, InferredFamily(p.side, StopAbove(p, currentPrice)), VariantOf(p.orderType));
  }

  /**
   * Flipping the side with the same prices swaps stop and take-profit and
   * keeps the limit or market variant.
   */
  lemma FlipSideSwapsFamily(m: Market, p: OrderParams, currentPrice: real)
    requires p.orderType == StopLossLimit || p.orderType == StopLossMarket
    ensures var flipped := p.(side := p.side.Flip());
      && Classify(m, MapOrderType(m, flipped, currentPrice)).Some?
      && Classify(m, MapOrderType(m, p, currentPrice)).Some?
      && Classify(m, MapOrderType(m, flipped, currentPrice)).value.0
         == Classify(m, MapOrderType(m, p, currentPrice)).value.0.Other()
      && Classify(m, MapOrderType(m, flipped, currentPrice)).value.1
         == Classify(m, MapOrderType(m, p, currentPrice)).value.1
  {
    StopTypeClassified(m, p, currentPrice);
    StopTypeClassified(m, p.(side := p.side.Flip()), currentPrice);
  }

  /** A stop price equal to the live price counts as "not above": a buy becomes take-profit, a sell stop. */
  lemma EqualStopPriceIsNotAbove(m: Market, p: OrderParams, currentPrice: real)
    requires p.orderType == StopLossLimit || p.orderType == StopLossMarket
    requires p.stopPrice == Some(currentPrice)
    ensures p.side == Buy ==> MapOrderType(m, p, currentPrice) == Table(m, TakeProfitFamily, VariantOf(p.orderType))
    ensures p.side == Sell ==> MapOrderType(m, p, currentPrice) == Table(m, StopFamily, VariantOf(p.orderType))
  {
  }

  /** Example: a spot buy stop-market at 50000 with the price at 49000 is a spot `STOP_LOSS`. */
  lemma SpotBuyStopAboveExample()
    ensures MapOrderType(Spot, OrderParams(StopLossMarket, 0.01, Buy, None, Some(50000.0)), 49000.0) == STOP_LOSS
  {
  }
}
