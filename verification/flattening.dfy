/**
 * `getFlattenedOrders`: the order tree turned into rows for the orders
 * table. As written, the sub-list loop sits inside the loop over the
 * primary batch, so every primary leg is followed by a full copy of all
 * sub-list legs.
 */
module Flattening {
  import opened Wrappers
  import opened Orders
  import opened Schema

  /** A row to insert; `status` is absent except on a leg recorded as filled at submission. */
  datatype Row = Row(
    status: Option<OrderStatus>,
    market: Market,
    symbol: string,
    side: Side,
    orderType: OrderType,
    quantity: real,
    price: Option<real>,
    stopPrice: Option<real>,
    id: string,
    parentOrderId: Option<string>,
    brokerId: string)

  /** The row for leg `o` of group `g`: market and symbol from the group, the rest from the leg. */
  function LegRow(g: OrderGroup, o: Order, status: Option<OrderStatus>, brokerId: string): Row {
    Row(status, g.market, g.symbol, o.params.side, o.params.orderType, o.params.quantity,
        o.params.price, o.params.stopPrice, o.orderId, o.parentOrderId, brokerId)
  }

  /** The rows for every sub-list leg of `g`, in sub-list order and then batch order, without status. */
  function SubListRows(g: OrderGroup, brokerId: string): (rows: seq<Row>)
    ensures |rows| == SubLegCount(g.subOrderList)
  {
    var legs := SubLegs(g.subOrderList);
    seq(|legs|, k requires 0 <= k < |legs| => LegRow(g, legs[k], None, brokerId))
  }

  /** The status the source gives the primary leg at index `i`. */
  function PrimaryStatus(i: nat, filled: bool): Option<OrderStatus> {
    if i == 0 && filled then Some(Filled) else None
  }

  /** The rows the batch loop emits from index `i` on: each primary leg, then all sub-list rows. */
  function BatchRowsFrom(g: OrderGroup, i: nat, filled: bool, brokerId: string): seq<Row>
    requires i <= |g.batchOrders|
    decreases |g.batchOrders| - i
  {
    if i == |g.batchOrders| then []
    else
      [LegRow(g, g.batchOrders[i], PrimaryStatus(i, filled), brokerId)]
      + SubListRows(g, brokerId)
      + BatchRowsFrom(g, i + 1, filled, brokerId)
  }

  function GroupRows(g: OrderGroup, filled: bool, brokerId: string): seq<Row> {
    BatchRowsFrom(g, 0, filled, brokerId)
  }

  /** `getFlattenedOrders(orderList, orderResp, brokerId)`; only the response status is read. */
  function FlattenOrders(list: OrderList, respStatus: string, brokerId: string): seq<Row> {
    if |list| == 0 then []
    else GroupRows(list[0], respStatus == "FILLED", brokerId) + FlattenOrders(list[1..], respStatus, brokerId)
  }

  /** `d * (s + 1)`, spelled out so that the layout proofs stay linear. */
  function Stride(d: nat, s: nat): nat {
    if d == 0 then 0 else Stride(d - 1, s) + s + 1
  }

  lemma {:induction false} StrideIsProduct(d: nat, s: nat)
    ensures Stride(d, s) == d * (s + 1)
  {
    if d > 0 {
      StrideIsProduct(d - 1, s);
      assert (d - 1) * (s + 1) + s + 1 == d * (s + 1);
    }
  }

  /** The number of rows the loops emit for a list: per group, |batch| * (1 + sub-list legs). */
  function ExpectedRowCount(list: OrderList): nat {
    if |list| == 0 then 0
    else |list[0].batchOrders| * (1 + SubLegCount(list[0].subOrderList)) + ExpectedRowCount(list[1..])
  }

  lemma {:induction false} BatchRowsFromLength(g: OrderGroup, i: nat, filled: bool, brokerId: string)
    requires i <= |g.batchOrders|
    ensures |BatchRowsFrom(g, i, filled, brokerId)| == Stride(|g.batchOrders| - i, SubLegCount(g.subOrderList))
    decreases |g.batchOrders| - i
  {
    if i < |g.batchOrders| {
      BatchRowsFromLength(g, i + 1, filled, brokerId);
    }
  }

  /** The output length is the sum over groups of |batch| * (1 + sub-list legs). */
  lemma {:induction false} FlattenLength(list: OrderList, respStatus: string, brokerId: string)
    ensures |FlattenOrders(list, respStatus, brokerId)| == ExpectedRowCount(list)
  {
    if |list| > 0 {
      BatchRowsFromLength(list[0], 0, respStatus == "FILLED", brokerId);
      StrideIsProduct(|list[0].batchOrders|, SubLegCount(list[0].subOrderList));
      FlattenLength(list[1..], respStatus, brokerId);
    }
  }

  /** Where row `n` of the batch loop from index `i` comes from: the primary leg, a sub-list row, or a later iteration. */
  lemma BatchRowsFromAt(g: OrderGroup, i: nat, filled: bool, brokerId: string, n: nat)
    requires i < |g.batchOrders|
    requires n < |BatchRowsFrom(g, i, filled, brokerId)|
    ensures n == 0 ==> BatchRowsFrom(g, i, filled, brokerId)[n] == LegRow(g, g.batchOrders[i], PrimaryStatus(i, filled), brokerId)
    ensures 0 < n <= SubLegCount(g.subOrderList) ==> BatchRowsFrom(g, i, filled, brokerId)[n] == SubListRows(g, brokerId)[n - 1]
    ensures SubLegCount(g.subOrderList) < n ==>
      BatchRowsFrom(g, i, filled, brokerId)[n] == BatchRowsFrom(g, i + 1, filled, brokerId)[n - 1 - SubLegCount(g.subOrderList)]
  {
  }

  /** With s sub-list legs, primary leg j is row Stride(j - i, s) of the batch loop from index i. */
  lemma {:induction false} BatchRowsFromLegAt(g: OrderGroup, i: nat, filled: bool, brokerId: string, j: nat)
    requires i <= j < |g.batchOrders|
    ensures var rows := BatchRowsFrom(g, i, filled, brokerId);
      && Stride(j - i, SubLegCount(g.subOrderList)) + SubLegCount(g.subOrderList) < |rows|
      && rows[Stride(j - i, SubLegCount(g.subOrderList))] == LegRow(g, g.batchOrders[j], PrimaryStatus(j, filled), brokerId)
    decreases j - i
  {
    var s := SubLegCount(g.subOrderList);
    BatchRowsFromLength(g, i, filled, brokerId);
    if j == i {
      BatchRowsFromAt(g, i, filled, brokerId, 0);
    } else {
      BatchRowsFromLegAt(g, i + 1, filled, brokerId, j);
      var at := Stride(j - (i + 1), s);
      assert Stride(j - i, s) == at + s + 1;
      BatchRowsFromAt(g, i, filled, brokerId, at + s + 1);
    }
  }

  /** ... and sub-list leg k follows it at row Stride(j - i, s) + 1 + k. */
  lemma {:induction false} BatchRowsFromSubAt(g: OrderGroup, i: nat, filled: bool, brokerId: string, j: nat, k: nat)
    requires i <= j < |g.batchOrders|
    requires k < SubLegCount(g.subOrderList)
    ensures Stride(j - i, SubLegCount(g.subOrderList)) + 1 + k < |BatchRowsFrom(g, i, filled, brokerId)|
    ensures BatchRowsFrom(g, i, filled, brokerId)[Stride(j - i, SubLegCount(g.subOrderList)) + 1 + k]
      == SubListRows(g, brokerId)[k]
    decreases j - i
  {
    var s := SubLegCount(g.subOrderList);
    var rows := BatchRowsFrom(g, i, filled, brokerId);
    var rest := BatchRowsFrom(g, i + 1, filled, brokerId);
    var head := [LegRow(g, g.batchOrders[i], PrimaryStatus(i, filled), brokerId)];
    var subs := SubListRows(g, brokerId);
    assert rows == head + subs + rest;
    if j == i {
      ConcatMiddleAt(head, subs, rest, 1 + k);
    } else {
      var at := Stride(j - (i + 1), s);
      assert Stride(j - i, s) == at + s + 1;
      assert at + 1 + k < |rest| && rest[at + 1 + k] == subs[k] by {
        BatchRowsFromSubAt(g, i + 1, filled, brokerId, j, k);
      }
      ConcatLastAt(head, subs, rest, at + s + 1 + 1 + k);
    }
  }

  lemma ConcatMiddleAt<T>(a: seq<T>, b: seq<T>, c: seq<T>, n: nat)
    requires |a| <= n < |a| + |b|
    ensures (a + b + c)[n] == b[n - |a|]
  {
  }

  lemma ConcatLastAt<T>(a: seq<T>, b: seq<T>, c: seq<T>, n: nat)
    requires |a| + |b| <= n < |a| + |b| + |c|
    ensures (a + b + c)[n] == c[n - |a| - |b|]
  {
  }

  /**
   * A group's rows: with s sub-list legs, primary leg j is row j * (s + 1)
   * and sub-list leg k follows it at row j * (s + 1) + 1 + k.
   */
  lemma GroupRowsLayout(g: OrderGroup, filled: bool, brokerId: string, j: nat, k: nat)
    requires j < |g.batchOrders|
    requires k < SubLegCount(g.subOrderList)
    ensures j * (SubLegCount(g.subOrderList) + 1) + 1 + k < |GroupRows(g, filled, brokerId)|
    ensures GroupRows(g, filled, brokerId)[j * (SubLegCount(g.subOrderList) + 1)]
      == LegRow(g, g.batchOrders[j], PrimaryStatus(j, filled), brokerId)
    ensures GroupRows(g, filled, brokerId)[j * (SubLegCount(g.subOrderList) + 1) + 1 + k]
      == LegRow(g, SubLegs(g.subOrderList)[k], None, brokerId)
  {
    BatchRowsFromLegAt(g, 0, filled, brokerId, j);
    BatchRowsFromSubAt(g, 0, filled, brokerId, j, k);
    StrideIsProduct(j, SubLegCount(g.subOrderList));
  }

  /** Status of row `n` of the batch loop: set only on the very first row, and only to `Filled` on a reported fill. */
  lemma {:induction false} BatchRowsFromStatus(g: OrderGroup, i: nat, filled: bool, brokerId: string, n: nat)
    requires i <= |g.batchOrders|
    requires n < |BatchRowsFrom(g, i, filled, brokerId)|
    ensures BatchRowsFrom(g, i, filled, brokerId)[n].status
      == if i == 0 && n == 0 && filled then Some(Filled) else None
    decreases |g.batchOrders| - i
  {
    var s := SubLegCount(g.subOrderList);
    BatchRowsFromAt(g, i, filled, brokerId, n);
    if n > s {
      BatchRowsFromStatus(g, i + 1, filled, brokerId, n - 1 - s);
    }
  }

  /** Every row of a group carries the group's market and symbol and the given broker. */
  lemma {:induction false} BatchRowsFromOwner(g: OrderGroup, i: nat, filled: bool, brokerId: string, n: nat)
    requires i <= |g.batchOrders|
    requires n < |BatchRowsFrom(g, i, filled, brokerId)|
    ensures BatchRowsFrom(g, i, filled, brokerId)[n].market == g.market
    ensures BatchRowsFrom(g, i, filled, brokerId)[n].symbol == g.symbol
    ensures BatchRowsFrom(g, i, filled, brokerId)[n].brokerId == brokerId
    decreases |g.batchOrders| - i
  {
    var s := SubLegCount(g.subOrderList);
    BatchRowsFromAt(g, i, filled, brokerId, n);
    if n > s {
      BatchRowsFromOwner(g, i + 1, filled, brokerId, n - 1 - s);
    }
  }

  /** How many rows are inserted as `Filled`. */
  function FilledCount(rows: seq<Row>): nat {
    if |rows| == 0 then 0 else (if rows[0].status == Some(Filled) then 1 else 0) + FilledCount(rows[1..])
  }

  lemma {:induction false} FilledCountAppend(a: seq<Row>, b: seq<Row>)
    ensures FilledCount(a + b) == FilledCount(a) + FilledCount(b)
  {
    if |a| == 0 {
      assert a + b == b;
    } else {
      var ab := a + b;
      assert ab[0] == a[0];
      assert ab[1..] == a[1..] + b;
      FilledCountAppend(a[1..], b);
    }
  }

  lemma {:induction false} FilledCountNone(rows: seq<Row>)
    requires forall n :: 0 <= n < |rows| ==> rows[n].status.None?
    ensures FilledCount(rows) == 0
  {
    if |rows| > 0 {
      FilledCountNone(rows[1..]);
    }
  }

  /** The number of groups whose primary batch is not empty. */
  function NonEmptyGroups(list: OrderList): nat {
    if |list| == 0 then 0 else (if |list[0].batchOrders| > 0 then 1 else 0) + NonEmptyGroups(list[1..])
  }

  lemma GroupFilledCount(g: OrderGroup, filled: bool, brokerId: string)
    ensures FilledCount(GroupRows(g, filled, brokerId)) == if filled && |g.batchOrders| > 0 then 1 else 0
  {
    var rows := GroupRows(g, filled, brokerId);
    if |rows| > 0 {
      BatchRowsFromStatus(g, 0, filled, brokerId, 0);
      forall n | 0 <= n < |rows[1..]| ensures rows[1..][n].status.None? {
        BatchRowsFromStatus(g, 0, filled, brokerId, n + 1);
      }
      FilledCountNone(rows[1..]);
    }
  }

  /**
   * A reported fill marks exactly one row per group with a non-empty batch,
   * its first primary leg; without a reported fill no row carries a status.
   */
  lemma {:induction false} FlattenFilledCount(list: OrderList, respStatus: string, brokerId: string)
    ensures FilledCount(FlattenOrders(list, respStatus, brokerId))
      == if respStatus == "FILLED" then NonEmptyGroups(list) else 0
  {
    if |list| > 0 {
      GroupFilledCount(list[0], respStatus == "FILLED", brokerId);
      FlattenFilledCount(list[1..], respStatus, brokerId);
      FilledCountAppend(GroupRows(list[0], respStatus == "FILLED", brokerId), FlattenOrders(list[1..], respStatus, brokerId));
    }
  }

  /** Row `n` carries the broker id it was given, and the market and symbol of group `gi`. */
  lemma {:induction false} FlattenRowOwner(list: OrderList, respStatus: string, brokerId: string, n: nat)
    returns (gi: nat)
    requires n < |FlattenOrders(list, respStatus, brokerId)|
    ensures gi < |list|
    ensures FlattenOrders(list, respStatus, brokerId)[n].brokerId == brokerId
    ensures FlattenOrders(list, respStatus, brokerId)[n].market == list[gi].market
    ensures FlattenOrders(list, respStatus, brokerId)[n].symbol == list[gi].symbol
  {
    var first := GroupRows(list[0], respStatus == "FILLED", brokerId);
    var rest := FlattenOrders(list[1..], respStatus, brokerId);
    assert FlattenOrders(list, respStatus, brokerId) == first + rest;
    if n < |first| {
      BatchRowsFromOwner(list[0], 0, respStatus == "FILLED", brokerId, n);
      gi := 0;
    } else {
      var g := FlattenRowOwner(list[1..], respStatus, brokerId, n - |first|);
      gi := g + 1;
    }
  }

  /** The traversal the design describes: the whole batch, then every sub-list leg once. */
  function DocumentedGroupRows(g: OrderGroup, filled: bool, brokerId: string): seq<Row> {
    seq(|g.batchOrders|, j requires 0 <= j < |g.batchOrders| => LegRow(g, g.batchOrders[j], PrimaryStatus(j, filled), brokerId))
    + SubListRows(g, brokerId)
  }

  /**
   * The code and the documented traversal emit the same rows exactly when
   * a group has one primary leg or no sub-list legs (a group with an empty
   * batch emits nothing in the code, but its sub-list rows in the design).
   */
  lemma GroupRowsMatchDocumented(g: OrderGroup, filled: bool, brokerId: string)
    ensures GroupRows(g, filled, brokerId) == DocumentedGroupRows(g, filled, brokerId)
      <==> |g.batchOrders| == 1 || SubLegCount(g.subOrderList) == 0
  {
    var n, s := |g.batchOrders|, SubLegCount(g.subOrderList);
    BatchRowsFromLength(g, 0, filled, brokerId);
    if n == 1 {
      assert BatchRowsFrom(g, 1, filled, brokerId) == [];
    } else if s == 0 {
      NoSubLegsMatch(g, 0, filled, brokerId);
    } else {
      LengthsDiffer(n, s);
    }
  }

  lemma LengthsDiffer(n: nat, s: nat)
    requires n != 1 && s > 0
    ensures Stride(n, s) != n + s
  {
    StrideIsProduct(n, s);
    if n >= 2 {
      assert n * (1 + s) == n + n * s;
      assert n * s >= 2 * s;
    }
  }

  lemma {:induction false} NoSubLegsMatch(g: OrderGroup, i: nat, filled: bool, brokerId: string)
    requires i <= |g.batchOrders| && SubLegCount(g.subOrderList) == 0
    ensures BatchRowsFrom(g, i, filled, brokerId) == DocumentedGroupRows(g, filled, brokerId)[i..]
    decreases |g.batchOrders| - i
  {
    if i < |g.batchOrders| {
      NoSubLegsMatch(g, i + 1, filled, brokerId);
    }
  }

  /**
   * With two primary legs and a sub-list leg, that sub-list leg's id is
   * emitted twice (after primary leg 0 and after primary leg 1), so the
   * rows cannot all be inserted under the table's primary key.
   */
  lemma RepeatedSubLegId(g: OrderGroup, filled: bool, brokerId: string)
    requires |g.batchOrders| >= 2 && SubLegCount(g.subOrderList) >= 1
    ensures var rows, s := GroupRows(g, filled, brokerId), SubLegCount(g.subOrderList);
      s + 2 < |rows| && rows[1].id == rows[s + 2].id
  {
    var s := SubLegCount(g.subOrderList);
    BatchRowsFromSubAt(g, 0, filled, brokerId, 0, 0);
    BatchRowsFromSubAt(g, 0, filled, brokerId, 1, 0);
    assert Stride(1, s) == s + 1;
  }
}
