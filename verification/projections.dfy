/**
 * The read paths' projections of the exchange's account data into the
 * normalized shapes returned to the client: holdings, futures positions,
 * open orders and wallet balances.
 */
module Projections {
  import opened Wrappers
  import opened Text
  import opened Orders
  import opened OrderTypeMapping

  /** `xs.filter(keep).map(f)`. */
  function FilterMap<A, B>(xs: seq<A>, keep: A -> bool, f: A -> B): (r: seq<B>)
    ensures |r| <= |xs|
    ensures forall y :: y in r ==> exists j :: 0 <= j < |xs| && keep(xs[j]) && y == f(xs[j])
    ensures forall j :: 0 <= j < |xs| && keep(xs[j]) ==> f(xs[j]) in r
    ensures (forall j :: 0 <= j < |xs| ==> keep(xs[j])) ==> |r| == |xs|
  {
    if |xs| == 0 then []
    else
      var rest := FilterMap(xs[1..], keep, f);
      var r := if keep(xs[0]) then [f(xs[0])] + rest else rest;
      forall y | y in r ensures exists j :: 0 <= j < |xs| && keep(xs[j]) && y == f(xs[j]) {
        if keep(xs[0]) && y == f(xs[0]) {
          assert keep(xs[0]) && y == f(xs[0]);
        } else {
          assert y in rest;
          var j' :| 0 <= j' < |xs[1..]| && keep(xs[1..][j']) && y == f(xs[1..][j']);
          assert xs[j' + 1] == xs[1..][j'];
        }
      }
      forall j | 0 <= j < |xs| && keep(xs[j]) ensures f(xs[j]) in r {
        if j > 0 {
          assert xs[j] == xs[1..][j - 1];
        }
      }
      assert (forall j :: 0 <= j < |xs| ==> keep(xs[j])) ==> |r| == |xs| by {
        if forall j :: 0 <= j < |xs| ==> keep(xs[j]) {
          assert forall j :: 0 <= j < |xs[1..]| ==> keep(xs[1..][j]) by {
            forall j | 0 <= j < |xs[1..]| ensures keep(xs[1..][j]) {
              assert xs[1..][j] == xs[j + 1];
            }
          }
        }
      }
      r
  }

  /** Filtering and mapping commute with concatenation, so the input order is kept. */
  lemma {:induction false} FilterMapAppend<A, B>(xs: seq<A>, ys: seq<A>, keep: A -> bool, f: A -> B)
    ensures FilterMap(xs + ys, keep, f) == FilterMap(xs, keep, f) + FilterMap(ys, keep, f)
  {
    if |xs| > 0 {
      assert (xs + ys)[0] == xs[0];
      assert (xs + ys)[1..] == xs[1..] + ys;
      FilterMapAppend(xs[1..], ys, keep, f);
    } else {
      assert xs + ys == ys;
    }
  }

  // ----- holdings -----

  /** One spot balance as the exchange reports it (numeric strings already read as numbers). */
  datatype RawBalance = RawBalance(asset: string, free: real, locked: real)

  datatype Holding = Holding(symbol: string, amount: real)

  predicate HasFunds(b: RawBalance) {
    b.free != 0.0 || b.locked != 0.0
  }

  function ToHolding(b: RawBalance): Holding {
    Holding(b.asset, b.free + b.locked)
  }

  /** Exactly the assets with something free or locked, each with its total. */
  function ProjectHoldings(bs: seq<RawBalance>): (r: seq<Holding>)
    ensures forall h :: h in r <==> exists j :: 0 <= j < |bs| && HasFunds(bs[j]) && h == Holding(bs[j].asset, bs[j].free + bs[j].locked)
  {
    FilterMap(bs, HasFunds, ToHolding)
  }

  // ----- positions -----

  datatype RawPosition = RawPosition(
    symbol: string,
    positionSide: string,
    positionAmt: real,
    liquidationPrice: real,
    unRealizedProfit: real,
    notional: real,
    entryPrice: real,
    markPrice: real,
    updateTime: int)

  datatype PositionSide = Both | Long | Short

  /** "BOTH" and "LONG" are recognised; every other value reads as short. */
  function PositionSideOf(s: string): (r: PositionSide)
    ensures r == Both <==> s == "BOTH"
    ensures r == Long <==> s == "LONG"
    ensures r == Short <==> s != "BOTH" && s != "LONG"
  {
    if s == "BOTH" then Both else if s == "LONG" then Long else Short
  }

  datatype Position = Position(
    symbol: string,
    positionSide: PositionSide,
    quantity: real,
    liquidationPrice: real,
    unrealizedPnl: real,
    amount: real,
    entryPrice: real,
    markPrice: real,
    updatedAt: int)

  predicate IsOpenPosition(p: RawPosition) {
    p.positionAmt != 0.0
  }

  function ToPosition(p: RawPosition): Position {
    Position(p.symbol, PositionSideOf(p.positionSide), p.positionAmt, p.liquidationPrice,
             p.unRealizedProfit, p.notional, p.entryPrice, p.markPrice, p.updateTime)
  }

  /** Exactly the positions with a non-zero amount, each carrying that amount as its quantity. */
  function ProjectPositions(ps: seq<RawPosition>): (r: seq<Position>)
    ensures forall q :: q in r ==> q.quantity != 0.0
    ensures forall j :: 0 <= j < |ps| && ps[j].positionAmt != 0.0 ==> ToPosition(ps[j]) in r
    ensures forall q :: q in r ==> exists j :: 0 <= j < |ps| && ps[j].positionAmt != 0.0 && q == ToPosition(ps[j])
  {
    FilterMap(ps, IsOpenPosition, ToPosition)
  }

  // ----- open orders -----

  datatype RawOpenOrder = RawOpenOrder(
    clientOrderId: string,
    symbol: string,
    side: string,
    positionSide: string,
    orderType: string,
    price: real,
    stopPrice: real,
    origQty: real,
    executedQty: real,
    status: string,
    time: int,
    updateTime: int)

  datatype OpenOrder = OpenOrder(
    orderId: string,
    symbol: string,
    side: Side,
    positionSide: Option<PositionSide>,
    orderType: string,
    price: Option<real>,
    stopPrice: Option<real>,
    quantity: real,
    filledQuantity: real,
    status: string,
    createdAt: int,
    updatedAt: int)

  /** A numeric field spread in only when it is non-zero. */
  function NonZero(x: real): (r: Option<real>)
    ensures r.Some? <==> x != 0.0
    ensures r.Some? ==> r.value == x
  {
    if x != 0.0 then Some(x) else None
  }

  function SideOf(s: string): (r: Side)
    ensures r == Buy <==> s == "BUY"
  {
    if s == "BUY" then Buy else Sell
  }

  /** "NEW" is reported as "open"; every other status is lower-cased. */
  function StatusName(s: string): (r: string)
    ensures s == "NEW" ==> r == "open"
    ensures s != "NEW" ==> r == Lower(s)
  {
    if s == "NEW" then "open" else Lower(s)
  }

  /** The client's name for a spot order type. */
  function SpotTypeName(t: string): string {
    if t == "STOP_LOSS" then "stop_loss_market"
    else if t == "TAKE_PROFIT" then "take_profit_market"
    else Lower(t)
  }

  /** The client's name for a futures order type. */
  function FuturesTypeName(t: string): string {
    if t == "STOP" then "stop_loss_limit"
    else if t == "STOP_MARKET" then "stop_loss_market"
    else if t == "TAKE_PROFIT" then "take_profit_limit"
    else Lower(t)
  }

  /** Outside the exchange's trigger types, both markets just lower-case the name. */
  function OpenOrderTypeName(m: Market, t: string): (r: string)
    ensures m == Spot && t != "STOP_LOSS" && t != "TAKE_PROFIT" ==> r == Lower(t)
    ensures m == Futures && t != "STOP" && t != "STOP_MARKET" && t != "TAKE_PROFIT" ==> r == Lower(t)
  {
    match m
    case Spot => SpotTypeName(t)
    case Futures => FuturesTypeName(t)
  }

  /** Spot orders carry no position side; futures orders map it like positions do. */
  function NormalizeOpenOrder(m: Market, o: RawOpenOrder): (r: OpenOrder)
    ensures r.orderId == o.clientOrderId && r.symbol == o.symbol
    ensures r.side == Buy <==> o.side == "BUY"
    ensures r.positionSide.Some? <==> m == Futures
    ensures m == Futures ==> r.positionSide == Some(PositionSideOf(o.positionSide))
    ensures r.orderType == OpenOrderTypeName(m, o.orderType)
    ensures r.price.Some? <==> o.price != 0.0
    ensures r.price.Some? ==> r.price.value == o.price
    ensures r.stopPrice.Some? <==> o.stopPrice != 0.0
    ensures r.stopPrice.Some? ==> r.stopPrice.value == o.stopPrice
    ensures r.quantity == o.origQty && r.filledQuantity == o.executedQty
    ensures r.createdAt == o.time && r.updatedAt == o.updateTime
    ensures r.status == (if o.status == "NEW" then "open" else Lower(o.status))
  {
    OpenOrder(
      o.clientOrderId, o.symbol, SideOf(o.side),
      if m == Futures then Some(PositionSideOf(o.positionSide)) else None,
      OpenOrderTypeName(m, o.orderType),
      NonZero(o.price), NonZero(o.stopPrice),
      o.origQty, o.executedQty, StatusName(o.status), o.time, o.updateTime)
  }

  /** Every open order is kept, in exchange order. */
  function ProjectOpenOrders(m: Market, os: seq<RawOpenOrder>): (r: seq<OpenOrder>)
    ensures |r| == |os|
    ensures forall i :: 0 <= i < |os| ==> r[i] == NormalizeOpenOrder(m, os[i])
  {
    seq(|os|, i requires 0 <= i < |os| => NormalizeOpenOrder(m, os[i]))
  }

  /** The client's name for a triggered order of a family and variant. */
  function ClientTypeName(f: Family, v: Variant): string {
    match (f, v)
    case (StopFamily, LimitVariant) => "stop_loss_limit"
    case (StopFamily, MarketVariant) => "stop_loss_market"
    case (TakeProfitFamily, LimitVariant) => "take_profit_limit"
    case (TakeProfitFamily, MarketVariant) => "take_profit_market"
  }

  /**
   * The open-order naming undoes the exchange table on both markets: an
   * order placed as (family, variant) is listed under the same client name
   * whether it went to spot or to futures.
   */
  lemma OpenOrderNameInvertsTable(m: Market, f: Family, v: Variant)
    ensures OpenOrderTypeName(m, ExchangeName(Table(m, f, v))) == ClientTypeName(f, v)
  {
    match (m, f, v)
    case (Spot, StopFamily, LimitVariant) => LowerStopLossLimit();
    case (Spot, TakeProfitFamily, LimitVariant) => LowerTakeProfitLimit();
    case (Futures, TakeProfitFamily, MarketVariant) => LowerTakeProfitMarket();
    case _ =>
  }

  lemma LowerStopLossLimit()
    ensures Lower("STOP_LOSS_LIMIT") == "stop_loss_limit"
  {
    assert Lower("STOP_LOSS_LIMIT") == "stop_loss_limit";
  }

  lemma LowerTakeProfitLimit()
    ensures Lower("TAKE_PROFIT_LIMIT") == "take_profit_limit"
  {
    assert Lower("TAKE_PROFIT_LIMIT") == "take_profit_limit";
  }

  lemma LowerTakeProfitMarket()
    ensures Lower("TAKE_PROFIT_MARKET") == "take_profit_market"
  {
    assert Lower("TAKE_PROFIT_MARKET") == "take_profit_market";
  }

  /**
   * Listing an order the API placed gives back the leg's own type name
   * when the stop family was chosen, and the take-profit name of the same
   * variant otherwise; limit and market legs come back unchanged.
   */
  lemma ListedTypeOfPlacedLeg(m: Market, p: OrderParams, currentPrice: real)
    ensures var listed := OpenOrderTypeName(m, ExchangeName(MapOrderType(m, p, currentPrice)));
      && (p.orderType == LimitOrder || p.orderType == MarketOrder ==> listed == TypeName(p.orderType))
      && (p.orderType == StopLossLimit || p.orderType == StopLossMarket ==>
            (listed == TypeName(p.orderType) <==> InferredFamily(p.side, StopAbove(p, currentPrice)) == StopFamily))
  {
    if p.orderType == LimitOrder {
      assert Lower("LIMIT") == "limit";
    } else if p.orderType == MarketOrder {
      assert Lower("MARKET") == "market";
    } else {
      var f := InferredFamily(p.side, StopAbove(p, currentPrice));
      OpenOrderNameInvertsTable(m, f, VariantOf(p.orderType));
      assert ClientTypeName(TakeProfitFamily, VariantOf(p.orderType))[0] != TypeName(p.orderType)[0];
    }
  }

  /**
   * In the open-orders listing, an order the exchange holds as the table
   * entry of a family and variant is named by that family and variant's
   * client type.
   */
  lemma ListedOpenOrderNames(m: Market, os: seq<RawOpenOrder>, i: nat, f: Family, v: Variant)
    requires i < |os| && os[i].orderType == ExchangeName(Table(m, f, v))
    ensures ProjectOpenOrders(m, os)[i].orderType == ClientTypeName(f, v)
  {
    OpenOrderNameInvertsTable(m, f, v);
  }

  // ----- wallet balances -----

  datatype RawWallet = RawWallet(walletName: string, balance: real)

  datatype WalletBalance = WalletBalance(account: Market, balance: real)

  const SpotWallet: string := "Spot"
  const FuturesWallet: string := "USD\U{24C8}-M Futures"

  predicate IsTradingWallet(w: RawWallet) {
    w.walletName == SpotWallet || w.walletName == FuturesWallet
  }

  function ToWalletBalance(w: RawWallet): WalletBalance {
    WalletBalance(if w.walletName == SpotWallet then Spot else Futures, w.balance)
  }

  /** Exactly the spot and USD-M futures wallets, each tagged with its market. */
  function ProjectWallets(ws: seq<RawWallet>): (r: seq<WalletBalance>)
    ensures |r| <= |ws|
    ensures forall b :: b in r ==>
      exists j :: 0 <= j < |ws| && IsTradingWallet(ws[j]) && b.balance == ws[j].balance
        && (b.account == Spot <==> ws[j].walletName == SpotWallet)
    ensures forall j :: 0 <= j < |ws| && IsTradingWallet(ws[j]) ==> ToWalletBalance(ws[j]) in r
  {
    FilterMap(ws, IsTradingWallet, ToWalletBalance)
  }
}
