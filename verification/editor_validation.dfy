/**
 * The editor's checks before submission (`validateOrderList`) and the
 * clean-up it applies to the list it sends (`cleanOrderList`).
 */
module EditorValidation {
  import opened Wrappers
  import opened Text
  import opened Orders
  import opened Schema

  datatype ValidationError = NoGroups | BlankSymbol | EmptyBatch | BadQuantity | BadPrice | BadStopPrice
  {
    /** The message the editor shows. */
    function Message(): string {
      match this
      case NoGroups => "Please add at least one order group"
      case BlankSymbol => "Please enter a symbol for all order groups"
      case EmptyBatch => "Each order group must have at least one order"
      case BadQuantity => "Please enter valid quantities (> 0) for all orders"
      case BadPrice => "Please enter valid prices (> 0) for limit orders"
      case BadStopPrice => "Please enter valid stop prices (> 0) for stop loss orders"
    }
  }

  /** A field the editor treats as filled in: present and greater than zero. */
  predicate Positive(x: Option<real>) {
    x.Some? && x.value > 0.0
  }

  predicate NeedsPrice(t: OrderType) {
    t == LimitOrder || t == StopLossLimit
  }

  predicate NeedsStopPrice(t: OrderType) {
    t == StopLossLimit || t == StopLossMarket
  }

  /** The checks on one primary leg, in the order the editor runs them. */
  function LegError(p: OrderParams): (r: Option<ValidationError>)
    ensures r.None? <==> LegClientValid(p)
    ensures r.Some? ==> r.value in {BadQuantity, BadPrice, BadStopPrice}
    // quantity first, then price, then stop price
    ensures p.quantity <= 0.0 ==> r == Some(BadQuantity)
    ensures p.quantity > 0.0 && NeedsPrice(p.orderType) && !Positive(p.price) ==> r == Some(BadPrice)
    ensures r == Some(BadStopPrice) ==> p.quantity > 0.0 && (NeedsPrice(p.orderType) ==> Positive(p.price))
  {
    if p.quantity <= 0.0 then Some(BadQuantity)
    else if NeedsPrice(p.orderType) && !Positive(p.price) then Some(BadPrice)
    else if NeedsStopPrice(p.orderType) && !Positive(p.stopPrice) then Some(BadStopPrice)
    else None
  }

  /** The legs in order: the error of the first failing leg. */
  function LegsError(legs: seq<Order>): (r: Option<ValidationError>)
    ensures r.None? <==> forall k :: 0 <= k < |legs| ==> LegError(legs[k].params).None?
    ensures r.Some? ==> r.value in {BadQuantity, BadPrice, BadStopPrice}
    ensures r.Some? ==>
      exists k :: 0 <= k < |legs| && r == LegError(legs[k].params) && (forall j :: 0 <= j < k ==> LegError(legs[j].params).None?)
    decreases |legs|
  {
    if |legs| == 0 then None
    else if LegError(legs[0].params).Some? then LegError(legs[0].params)
    else
      var r := LegsError(legs[1..]);
      assert forall k :: 1 <= k < |legs| ==> legs[k] == legs[1..][k - 1];
      if r.Some? then
        var k :| 0 <= k < |legs[1..]| && r == LegError(legs[1..][k].params)
          && forall j :: 0 <= j < k ==> LegError(legs[1..][j].params).None?;
        assert r == LegError(legs[k + 1].params);
        r
      else r
  }

  /**
   * The checks on one group; its sub-lists are not looked at. A symbol
   * that trims to the empty string is one made only of white space
   * (`Text.TrimEmpty`), which is the form used here.
   */
  function GroupError(g: OrderGroup): Option<ValidationError> {
    if AllSpace(g.symbol) then Some(BlankSymbol)
    else if |g.batchOrders| == 0 then Some(EmptyBatch)
    else LegsError(g.batchOrders)
  }

  function GroupsError(list: OrderList): (r: Option<ValidationError>)
    decreases |list|
  {
    if |list| == 0 then None
    else if GroupError(list[0]).Some? then GroupError(list[0])
    else GroupsError(list[1..])
  }

  /** `validateOrderList`: the first failure found, or none. */
  function ValidateOrderList(list: OrderList): Option<ValidationError> {
    if |list| == 0 then Some(NoGroups) else GroupsError(list)
  }

  /** `validateOrderList` as the editor returns it: the message of the first failure, or null. */
  function ValidationMessage(list: OrderList): (r: Option<string>)
    ensures r.None? <==> ClientValid(list)
    ensures r.Some? ==> ValidateOrderList(list).Some? && r.value == ValidateOrderList(list).value.Message()
  {
    ValidateIff(list);
    match ValidateOrderList(list)
    case None => None
    case Some(e) => Some(e.Message())
  }

  /** Each check has its own message, so the message names the failed check. */
  lemma MessageIdentifiesError(a: ValidationError, b: ValidationError)
    ensures a.Message() == b.Message() <==> a == b
  {
  }

  /** The editor's notion of a submittable leg, group and list, stated as properties of every element. */
  predicate LegClientValid(p: OrderParams) {
    && p.quantity > 0.0
    && (NeedsPrice(p.orderType) ==> Positive(p.price))
    && (NeedsStopPrice(p.orderType) ==> Positive(p.stopPrice))
  }

  predicate GroupClientValid(g: OrderGroup) {
    && !AllSpace(g.symbol)
    && |g.batchOrders| > 0
    && forall k :: 0 <= k < |g.batchOrders| ==> LegClientValid(g.batchOrders[k].params)
  }

  predicate ClientValid(list: OrderList) {
    |list| > 0 && forall i :: 0 <= i < |list| ==> GroupClientValid(list[i])
  }

  /** The blank-symbol test is the source's `!symbol.trim()`. */
  lemma BlankSymbolIsEmptyTrim(g: OrderGroup)
    ensures GroupError(g) == Some(BlankSymbol) <==> Trim(g.symbol) == ""
  {
    TrimEmpty(g.symbol);
  }

  lemma GroupErrorIff(g: OrderGroup)
    ensures GroupError(g).None? <==> GroupClientValid(g)
  {
  }

  lemma {:induction false} GroupsErrorIff(list: OrderList)
    ensures GroupsError(list).None? <==> forall i :: 0 <= i < |list| ==> GroupClientValid(list[i])
    decreases |list|
  {
    if |list| > 0 {
      GroupErrorIff(list[0]);
      GroupsErrorIff(list[1..]);
      assert forall i :: 1 <= i < |list| ==> list[i] == list[1..][i - 1];
    }
  }

  /** The editor accepts a list exactly when it is client-valid. */
  lemma ValidateIff(list: OrderList)
    ensures ValidateOrderList(list).None? <==> ClientValid(list)
  {
    GroupsErrorIff(list);
  }

  /** The reported error is the one of the first group that fails. */
  lemma ReportsFirstFailure(list: OrderList) returns (gi: nat)
    requires |list| > 0 && ValidateOrderList(list).Some?
    ensures gi < |list| && GroupError(list[gi]) == ValidateOrderList(list)
    ensures forall h :: 0 <= h < gi ==> GroupError(list[h]).None?
  {
    gi := FirstFailingGroup(list);
  }

  lemma {:induction false} FirstFailingGroup(list: OrderList) returns (gi: nat)
    requires GroupsError(list).Some?
    ensures gi < |list| && GroupError(list[gi]) == GroupsError(list)
    ensures forall h :: 0 <= h < gi ==> GroupError(list[h]).None?
    decreases |list|
  {
    if GroupError(list[0]).Some? {
      gi := 0;
    } else {
      var rest := list[1..];
      var g := FirstFailingGroup(rest);
      gi := g + 1;
      assert list[gi] == rest[g];
      assert GroupsError(list) == GroupsError(rest);
      FailsAfterFirst(list, g);
    }
  }

  lemma FailsAfterFirst(list: OrderList, g: nat)
    requires 0 < |list| && GroupError(list[0]).None? && g < |list| - 1
    requires forall h :: 0 <= h < g ==> GroupError(list[1..][h]).None?
    ensures forall h :: 0 <= h < g + 1 ==> GroupError(list[h]).None?
  {
    forall h | 0 <= h < g + 1 ensures GroupError(list[h]).None? {
      if h > 0 {
        assert list[h] == list[1..][h - 1];
      }
    }
  }

  /** Two lists that differ only in their sub-lists. */
  predicate SameButSubLists(a: OrderList, b: OrderList) {
    |a| == |b| && forall i :: 0 <= i < |a| ==> a[i].(subOrderList := []) == b[i].(subOrderList := [])
  }

  /** The editor's verdict does not depend on the sub-lists. */
  lemma ValidateIgnoresSubLists(a: OrderList, b: OrderList)
    requires SameButSubLists(a, b)
    ensures ValidateOrderList(a) == ValidateOrderList(b)
  {
    if |a| > 0 {
      GroupsIgnoreSubLists(a, b);
    }
  }

  lemma {:induction false} GroupsIgnoreSubLists(a: OrderList, b: OrderList)
    requires SameButSubLists(a, b)
    ensures GroupsError(a) == GroupsError(b)
    decreases |a|
  {
    if |a| > 0 {
      assert a[0].(subOrderList := []) == b[0].(subOrderList := []);
      assert GroupError(a[0]) == GroupError(b[0]);
      assert SameButSubLists(a[1..], b[1..]) by {
        forall i | 0 <= i < |a[1..]| ensures a[1..][i].(subOrderList := []) == b[1..][i].(subOrderList := []) {
          assert a[1..][i] == a[i + 1] && b[1..][i] == b[i + 1];
        }
      }
      GroupsIgnoreSubLists(a[1..], b[1..]);
    }
  }

  /** A number field is sent only when it is truthy: present and not zero. */
  function KeepTruthy(x: Option<real>): (r: Option<real>)
    ensures r.Some? <==> x.Some? && x.value != 0.0
    ensures r.Some? ==> r == x
  {
    if x.Some? && x.value != 0.0 then x else None
  }

  /** The parent id is sent only when it is a non-empty string. */
  function KeepNonEmpty(x: Option<string>): (r: Option<string>)
    ensures r.Some? <==> x.Some? && x.value != ""
    ensures r.Some? ==> r == x
  {
    if x.Some? && x.value != "" then x else None
  }

  function CleanOrder(o: Order): (r: Order)
    ensures r.orderId == o.orderId
    ensures r.params.orderType == o.params.orderType && r.params.side == o.params.side
    ensures r.params.quantity == o.params.quantity
    // the optional fields are sent only when truthy
    ensures r.parentOrderId == KeepNonEmpty(o.parentOrderId)
    ensures r.params.price == KeepTruthy(o.params.price) && r.params.stopPrice == KeepTruthy(o.params.stopPrice)
  {
    Order(o.orderId, KeepNonEmpty(o.parentOrderId),
      OrderParams(o.params.orderType, o.params.quantity, o.params.side,
        KeepTruthy(o.params.price), KeepTruthy(o.params.stopPrice)))
  }

  /** The symbol is trimmed and upper-cased, primary legs are cleaned, sub-lists pass through untouched. */
  function CleanGroup(g: OrderGroup): (r: OrderGroup)
    ensures r.market == g.market && r.subOrderList == g.subOrderList
    ensures r.symbol == Upper(Trim(g.symbol))
    ensures |r.batchOrders| == |g.batchOrders|
    ensures forall k :: 0 <= k < |g.batchOrders| ==> r.batchOrders[k] == CleanOrder(g.batchOrders[k])
  {
    OrderGroup(g.market, Upper(Trim(g.symbol)),
      seq(|g.batchOrders|, k requires 0 <= k < |g.batchOrders| => CleanOrder(g.batchOrders[k])),
      g.subOrderList)
  }

  function CleanOrderList(list: OrderList): (r: OrderList)
    ensures |r| == |list| && forall i :: 0 <= i < |list| ==> r[i] == CleanGroup(list[i])
  {
    seq(|list|, i requires 0 <= i < |list| => CleanGroup(list[i]))
  }

  /** A list the editor accepts is sent with every symbol trimmed, upper-cased and not blank. */
  lemma CleanedSymbolsNormalised(list: OrderList)
    requires ValidateOrderList(list).None?
    ensures forall i :: 0 <= i < |list| ==>
      !AllSpace(CleanOrderList(list)[i].symbol) && Upper(Trim(CleanOrderList(list)[i].symbol)) == CleanOrderList(list)[i].symbol
  {
    ValidateIff(list);
    forall i | 0 <= i < |list|
      ensures !AllSpace(CleanOrderList(list)[i].symbol)
      ensures Upper(Trim(CleanOrderList(list)[i].symbol)) == CleanOrderList(list)[i].symbol
    {
      var sent := CleanOrderList(list)[i].symbol;
      assert sent == Upper(Trim(list[i].symbol));
      UpperTrimBlank(list[i].symbol);
      TrimEmpty(sent);
      UpperTrimIdempotent(list[i].symbol);
    }
  }

  /** Cleaning a cleaned list changes nothing. */
  lemma CleanIdempotent(list: OrderList)
    ensures CleanOrderList(CleanOrderList(list)) == CleanOrderList(list)
  {
    var once := CleanOrderList(list);
    forall i | 0 <= i < |list| ensures CleanGroup(once[i]) == once[i] {
      UpperTrimIdempotent(list[i].symbol);
    }
  }

  lemma LegErrorAfterClean(o: Order)
    ensures LegError(CleanOrder(o).params) == LegError(o.params)
  {
  }

  lemma GroupErrorAfterClean(g: OrderGroup)
    ensures GroupError(CleanGroup(g)) == GroupError(g)
  {
    var c := CleanGroup(g);
    assert AllSpace(c.symbol) == AllSpace(g.symbol) by {
      UpperTrimBlank(g.symbol);
      TrimEmpty(c.symbol);
    }
    forall k | 0 <= k < |g.batchOrders| ensures LegError(c.batchOrders[k].params) == LegError(g.batchOrders[k].params) {
      LegErrorAfterClean(g.batchOrders[k]);
    }
    LegsErrorPointwise(c.batchOrders, g.batchOrders);
  }

  lemma {:induction false} LegsErrorPointwise(a: seq<Order>, b: seq<Order>)
    requires |a| == |b| && forall k :: 0 <= k < |a| ==> LegError(a[k].params) == LegError(b[k].params)
    ensures LegsError(a) == LegsError(b)
    decreases |a|
  {
    if |a| > 0 {
      assert forall k :: 0 <= k < |a| - 1 ==> a[1..][k] == a[k + 1] && b[1..][k] == b[k + 1];
      LegsErrorPointwise(a[1..], b[1..]);
    }
  }

  /** The clean-up does not change the editor's verdict. */
  lemma ValidateAfterClean(list: OrderList)
    ensures ValidateOrderList(CleanOrderList(list)) == ValidateOrderList(list)
  {
    if |list| > 0 {
      GroupsErrorAfterClean(list);
    }
  }

  lemma {:induction false} GroupsErrorAfterClean(list: OrderList)
    ensures GroupsError(CleanOrderList(list)) == GroupsError(list)
    decreases |list|
  {
    if |list| > 0 {
      GroupErrorAfterClean(list[0]);
      assert CleanOrderList(list)[1..] == CleanOrderList(list[1..]);
      GroupsErrorAfterClean(list[1..]);
    }
  }

  /** No price or stop price of the primary legs is negative. */
  predicate NoNegativePrices(list: OrderList) {
    forall i, k :: 0 <= i < |list| && 0 <= k < |list[i].batchOrders| ==>
      var p := list[i].batchOrders[k].params;
      (p.price.Some? ==> p.price.value >= 0.0) && (p.stopPrice.Some? ==> p.stopPrice.value >= 0.0)
  }

  /** Every sub-list batch already satisfies the schema. */
  predicate SubListsValid(list: OrderList) {
    forall i, k :: 0 <= i < |list| && 0 <= k < |list[i].subOrderList| ==> ValidBatch(list[i].subOrderList[k].batchOrders)
  }

  lemma CleanLegValid(o: Order)
    requires LegClientValid(o.params)
    requires o.params.price.Some? ==> o.params.price.value >= 0.0
    requires o.params.stopPrice.Some? ==> o.params.stopPrice.value >= 0.0
    ensures ValidOrder(CleanOrder(o))
  {
    RefinementByType(CleanOrder(o).params);
  }

  /**
   * What the editor accepts and sends is accepted by the API when no primary
   * price is negative and the sub-lists, which the editor never checks,
   * satisfy the schema.
   */
  lemma CleanListServerValid(list: OrderList)
    requires ClientValid(list) && NoNegativePrices(list) && SubListsValid(list)
    ensures ValidOrderList(CleanOrderList(list))
  {
    var c := CleanOrderList(list);
    forall i | 0 <= i < |c| ensures ValidGroup(c[i]) {
      forall k | 0 <= k < |c[i].batchOrders| ensures ValidOrder(c[i].batchOrders[k]) {
        CleanLegValid(list[i].batchOrders[k]);
      }
    }
  }

  /** The editor passes a sub-list leg of quantity zero, which the API refuses. */
  lemma SubListLegEscapesEditor(symbol: string, leg: Order, sub: Order)
    requires !AllSpace(symbol) && LegClientValid(leg.params)
    requires sub.params.quantity == 0.0
    ensures var list := [OrderGroup(Spot, symbol, [leg], [SubList([sub])])];
      ValidateOrderList(list).None? && !ValidOrderList(CleanOrderList(list))
  {
    var g := OrderGroup(Spot, symbol, [leg], [SubList([sub])]);
    assert GroupError(g).None? by {
      assert LegsError([leg]).None?;
    }
    assert GroupsError([g]).None? by {
      assert [g][1..] == [];
    }
    assert !ValidGroup(CleanGroup(g)) by {
      assert CleanGroup(g).subOrderList[0].batchOrders[0] == sub;
    }
    assert CleanOrderList([g])[0] == CleanGroup(g);
  }

  /** A market leg with a negative price passes the editor and is refused by the API. */
  lemma NegativeMarketPriceEscapesEditor(symbol: string, id: string, q: real, side: Side, price: real)
    requires !AllSpace(symbol) && q > 0.0 && price < 0.0
    ensures var leg := Order(id, None, OrderParams(MarketOrder, q, side, Some(price), None));
      var list := [OrderGroup(Spot, symbol, [leg], [])];
      ValidateOrderList(list).None? && !ValidOrderList(CleanOrderList(list))
  {
    var leg := Order(id, None, OrderParams(MarketOrder, q, side, Some(price), None));
    var g := OrderGroup(Spot, symbol, [leg], []);
    assert GroupError(g).None? by {
      assert LegError(leg.params).None?;
      assert LegsError([leg]).None?;
    }
    assert GroupsError([g]).None? by {
      assert [g][1..] == [];
    }
    assert !ValidGroup(CleanGroup(g)) by {
      assert CleanGroup(g).batchOrders[0] == CleanOrder(leg);
    }
    assert CleanOrderList([g])[0] == CleanGroup(g);
  }
}
