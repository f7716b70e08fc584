/**
 * The order-list editor of the trading interface: adding and deleting legs
 * and groups, and reordering a batch by drag and drop. Each operation takes
 * the list and returns the edited copy; fresh leg ids are parameters.
 */
module Editor {
  import opened Wrappers
  import opened Orders

  /** The leg every add operation inserts: a market buy of 0.001. */
  function DefaultLeg(id: string): (o: Order)
    ensures o.orderId == id && o.parentOrderId.None?
    ensures o.params.orderType == MarketOrder && o.params.side == Buy && o.params.quantity > 0.0
    ensures o.params.price.None? && o.params.stopPrice.None?
  {
    Order(id, None, OrderParams(MarketOrder, 0.001, Buy, None, None))
  }

  /** Appends a spot BTCUSDT group holding one default leg and no sub-lists. */
  function AddOrderListItem(list: OrderList, newId: string): (r: OrderList)
    ensures |r| == |list| + 1 && r[..|list|] == list
    ensures r[|list|].market == Spot && r[|list|].symbol == "BTCUSDT"
    ensures r[|list|].batchOrders == [DefaultLeg(newId)] && r[|list|].subOrderList == []
    ensures WellShaped(list) ==> WellShaped(r)
  {
    list + [OrderGroup(Spot, "BTCUSDT", [DefaultLeg(newId)], [])]
  }

  /** `list` with group `i` replaced by `g`. */
  function WithGroup(list: OrderList, i: nat, g: OrderGroup): (r: OrderList)
    requires i < |list|
    ensures |r| == |list| && r[i] == g
    ensures forall j :: 0 <= j < |list| && j != i ==> r[j] == list[j]
  {
    list[i := g]
  }

  /** Appends a default leg to the primary batch of group `i`. */
  function AddBatchOrder(list: OrderList, i: nat, newId: string): (r: OrderList)
    requires i < |list|
    ensures |r| == |list| && forall j :: 0 <= j < |list| && j != i ==> r[j] == list[j]
    ensures r[i].batchOrders == list[i].batchOrders + [DefaultLeg(newId)]
    ensures r[i].market == list[i].market && r[i].symbol == list[i].symbol
    ensures r[i].subOrderList == list[i].subOrderList
    ensures GroupLegCount(r[i]) == GroupLegCount(list[i]) + 1
    ensures WellShaped(list) ==> WellShaped(r)
  {
    var g := list[i];
    WithGroup(list, i, g.(batchOrders := g.batchOrders + [DefaultLeg(newId)]))
  }

  /** Appends a sub-list holding one default leg to group `i`. */
  function AddSubOrderList(list: OrderList, i: nat, newId: string): (r: OrderList)
    requires i < |list|
    ensures |r| == |list| && forall j :: 0 <= j < |list| && j != i ==> r[j] == list[j]
    ensures r[i].subOrderList == list[i].subOrderList + [SubList([DefaultLeg(newId)])]
    ensures r[i].batchOrders == list[i].batchOrders
    ensures r[i].market == list[i].market && r[i].symbol == list[i].symbol
    ensures WellShaped(list) ==> WellShaped(r)
  {
    var g := list[i];
    WithGroup(list, i, g.(subOrderList := g.subOrderList + [SubList([DefaultLeg(newId)])]))
  }

  /** Appends a default leg to sub-list `k` of group `i`. */
  function AddSubBatchOrder(list: OrderList, i: nat, k: nat, newId: string): (r: OrderList)
    requires i < |list| && k < |list[i].subOrderList|
    ensures |r| == |list| && forall j :: 0 <= j < |list| && j != i ==> r[j] == list[j]
    ensures |r[i].subOrderList| == |list[i].subOrderList|
    ensures r[i].subOrderList[k].batchOrders == list[i].subOrderList[k].batchOrders + [DefaultLeg(newId)]
    ensures forall m :: 0 <= m < |list[i].subOrderList| && m != k ==> r[i].subOrderList[m] == list[i].subOrderList[m]
    ensures r[i].batchOrders == list[i].batchOrders
    ensures r[i].market == list[i].market && r[i].symbol == list[i].symbol
    ensures WellShaped(list) ==> WellShaped(r)
  {
    var g := list[i];
    var sub := g.subOrderList[k];
    WithGroup(list, i, g.(subOrderList := g.subOrderList[k := SubList(sub.batchOrders + [DefaultLeg(newId)])]))
  }

  /** `s` without its element at `i` (a one-element splice). */
  function RemoveAt<T>(s: seq<T>, i: nat): (r: seq<T>)
    requires i < |s|
    ensures |r| == |s| - 1
    ensures forall k :: 0 <= k < i ==> r[k] == s[k]
    ensures forall k :: i <= k < |r| ==> r[k] == s[k + 1]
  {
    s[..i] + s[i + 1..]
  }

  /** `s` with `x` inserted so that it lands at index `i`. */
  function InsertAt<T>(s: seq<T>, i: nat, x: T): (r: seq<T>)
    requires i <= |s|
    ensures |r| == |s| + 1 && r[i] == x
    ensures forall k :: 0 <= k < i ==> r[k] == s[k]
    ensures forall k :: i < k < |r| ==> r[k] == s[k - 1]
  {
    s[..i] + [x] + s[i..]
  }

  lemma RemoveAtMultiset<T>(s: seq<T>, i: nat)
    requires i < |s|
    ensures multiset(RemoveAt(s, i)) + multiset{s[i]} == multiset(s)
  {
    assert s == s[..i] + [s[i]] + s[i + 1..];
  }

  lemma InsertAtMultiset<T>(s: seq<T>, i: nat, x: T)
    requires i <= |s|
    ensures multiset(InsertAt(s, i, x)) == multiset(s) + multiset{x}
  {
    assert s == s[..i] + s[i..];
  }

  /** Inserting back what was removed, at the same place, restores the sequence. */
  lemma InsertRemoved<T>(s: seq<T>, i: nat)
    requires i < |s|
    ensures InsertAt(RemoveAt(s, i), i, s[i]) == s
  {
  }

  /**
   * Moves the element at `from` to index `to`: it is spliced out and then
   * spliced back in at `to` of the shortened sequence.
   */
  function ArrayMove<T>(s: seq<T>, from: nat, to: nat): (r: seq<T>)
    requires from < |s| && to < |s|
    ensures |r| == |s| && r[to] == s[from]
    ensures multiset(r) == multiset(s)
    ensures RemoveAt(r, to) == RemoveAt(s, from)
  {
    var rest := RemoveAt(s, from);
    RemoveAtMultiset(s, from);
    InsertAtMultiset(rest, to, s[from]);
    var r := InsertAt(rest, to, s[from]);
    assert RemoveAt(r, to) == rest;
    r
  }

  /** Moving an element back to where it came from undoes a move. */
  lemma ArrayMoveInverse<T>(s: seq<T>, from: nat, to: nat)
    requires from < |s| && to < |s|
    ensures ArrayMove(ArrayMove(s, from, to), to, from) == s
  {
    var r := ArrayMove(s, from, to);
    InsertRemoved(s, from);
    assert ArrayMove(r, to, from) == InsertAt(RemoveAt(r, to), from, r[to]);
  }

  /** `findIndex` by order id: the first leg carrying `id`, or -1. */
  function FindIndex(legs: seq<Order>, id: string): (r: int)
    ensures -1 <= r < |legs|
    ensures r == -1 <==> forall k :: 0 <= k < |legs| ==> legs[k].orderId != id
    ensures r >= 0 ==> legs[r].orderId == id && forall k :: 0 <= k < r ==> legs[k].orderId != id
    decreases |legs|
  {
    if |legs| == 0 then -1
    else if legs[0].orderId == id then 0
    else
      var r := FindIndex(legs[1..], id);
      if r == -1 then -1 else r + 1
  }

  predicate HasLeg(legs: seq<Order>, id: string) {
    exists k :: 0 <= k < |legs| && legs[k].orderId == id
  }

  /**
   * The end of a drag within one batch: with a target that differs from the
   * dragged leg, the dragged leg moves to the target's index. Both ids are
   * legs of that batch, since each batch is its own sortable context.
   */
  function MoveLeg(legs: seq<Order>, active: string, over: Option<string>): (r: seq<Order>)
    requires HasLeg(legs, active) && (over.Some? ==> HasLeg(legs, over.value))
    ensures |r| == |legs| && multiset(r) == multiset(legs)
    ensures over.None? || over.value == active ==> r == legs
    ensures over.Some? && over.value != active ==>
      var from, to := FindIndex(legs, active), FindIndex(legs, over.value);
      r[to] == legs[from] && RemoveAt(r, to) == RemoveAt(legs, from)
  {
    if over.Some? && active != over.value then
      ArrayMove(legs, FindIndex(legs, active), FindIndex(legs, over.value))
    else legs
  }

  /** `handleDragEnd` on the primary batch of group `itemIndex`. */
  function HandleDragEnd(list: OrderList, itemIndex: nat, active: string, over: Option<string>): (r: OrderList)
    requires itemIndex < |list|
    requires HasLeg(list[itemIndex].batchOrders, active)
    requires over.Some? ==> HasLeg(list[itemIndex].batchOrders, over.value)
    ensures |r| == |list| && forall j :: 0 <= j < |list| && j != itemIndex ==> r[j] == list[j]
    ensures multiset(r[itemIndex].batchOrders) == multiset(list[itemIndex].batchOrders)
    ensures r[itemIndex].subOrderList == list[itemIndex].subOrderList
    ensures r[itemIndex].market == list[itemIndex].market && r[itemIndex].symbol == list[itemIndex].symbol
    ensures WellShaped(list) ==> WellShaped(r)
  {
    var g := list[itemIndex];
    WithGroup(list, itemIndex, g.(batchOrders := MoveLeg(g.batchOrders, active, over)))
  }

  /** `handleSubDragEnd` on sub-list `subIndex` of group `itemIndex`. */
  function HandleSubDragEnd(list: OrderList, itemIndex: nat, subIndex: nat, active: string, over: Option<string>)
    : (r: OrderList)
    requires itemIndex < |list| && subIndex < |list[itemIndex].subOrderList|
    requires HasLeg(list[itemIndex].subOrderList[subIndex].batchOrders, active)
    requires over.Some? ==> HasLeg(list[itemIndex].subOrderList[subIndex].batchOrders, over.value)
    ensures |r| == |list| && forall j :: 0 <= j < |list| && j != itemIndex ==> r[j] == list[j]
    ensures |r[itemIndex].subOrderList| == |list[itemIndex].subOrderList|
    ensures multiset(r[itemIndex].subOrderList[subIndex].batchOrders)
      == multiset(list[itemIndex].subOrderList[subIndex].batchOrders)
    ensures forall m :: 0 <= m < |list[itemIndex].subOrderList| && m != subIndex ==>
      r[itemIndex].subOrderList[m] == list[itemIndex].subOrderList[m]
    ensures r[itemIndex].batchOrders == list[itemIndex].batchOrders
    ensures WellShaped(list) ==> WellShaped(r)
  {
    var g := list[itemIndex];
    var legs := g.subOrderList[subIndex].batchOrders;
    WithGroup(list, itemIndex, g.(subOrderList := g.subOrderList[subIndex := SubList(MoveLeg(legs, active, over))]))
  }

  /** Every leg of the batch has its own id. */
  predicate DistinctIds(legs: seq<Order>) {
    forall a, b :: 0 <= a < b < |legs| ==> legs[a].orderId != legs[b].orderId
  }

  lemma FindIndexOfDistinct(legs: seq<Order>, k: nat)
    requires DistinctIds(legs) && k < |legs|
    ensures FindIndex(legs, legs[k].orderId) == k
  {
  }

  /** The index of `s` that lands at index `k` after a move from `from` to `to`. */
  function MoveSource(from: nat, to: nat, k: nat): nat {
    if k == to then from
    else
      var j := if k < to then k else k - 1;
      if j < from then j else j + 1
  }

  lemma ArrayMoveAt<T>(s: seq<T>, from: nat, to: nat, k: nat)
    requires from < |s| && to < |s| && k < |s|
    ensures MoveSource(from, to, k) < |s| && ArrayMove(s, from, to)[k] == s[MoveSource(from, to, k)]
  {
    var rest := RemoveAt(s, from);
    assert ArrayMove(s, from, to) == InsertAt(rest, to, s[from]);
    if k != to {
      var j := if k < to then k else k - 1;
      assert InsertAt(rest, to, s[from])[k] == rest[j];
    }
  }

  /** Distinct landing places have distinct sources. */
  lemma MoveSourceInjective(from: nat, to: nat, a: nat, b: nat)
    requires a != b
    ensures MoveSource(from, to, a) != MoveSource(from, to, b)
  {
  }

  lemma ArrayMoveKeepsDistinct(legs: seq<Order>, from: nat, to: nat)
    requires DistinctIds(legs) && from < |legs| && to < |legs|
    ensures DistinctIds(ArrayMove(legs, from, to))
  {
    var r := ArrayMove(legs, from, to);
    forall a, b | 0 <= a < b < |r| ensures r[a].orderId != r[b].orderId {
      var pa, pb := MoveSource(from, to, a), MoveSource(from, to, b);
      ArrayMoveAt(legs, from, to, a);
      ArrayMoveAt(legs, from, to, b);
      MoveSourceInjective(from, to, a, b);
      if pa < pb {
        assert legs[pa].orderId != legs[pb].orderId;
      } else {
        assert legs[pb].orderId != legs[pa].orderId;
      }
    }
  }

  /** After a move between two distinct places, the moved leg is found at `to` and the leg now at `from` at `from`. */
  lemma FindAfterMove(legs: seq<Order>, from: nat, to: nat)
    requires DistinctIds(legs) && from < |legs| && to < |legs| && from != to
    ensures var moved := ArrayMove(legs, from, to);
      && DistinctIds(moved)
      && moved[to] == legs[from] && moved[from].orderId != legs[from].orderId
      && FindIndex(moved, legs[from].orderId) == to
      && FindIndex(moved, moved[from].orderId) == from
  {
    var moved := ArrayMove(legs, from, to);
    ArrayMoveKeepsDistinct(legs, from, to);
    FindIndexOfDistinct(moved, to);
    FindIndexOfDistinct(moved, from);
  }

  /**
   * With distinct ids, dragging a leg onto another and then dragging it
   * onto the leg that now holds its old place restores the batch.
   */
  lemma DragBackRestores(legs: seq<Order>, active: string, over: string)
    requires DistinctIds(legs) && HasLeg(legs, active) && HasLeg(legs, over) && active != over
    ensures var moved := MoveLeg(legs, active, Some(over));
      var back := moved[FindIndex(legs, active)].orderId;
      && DistinctIds(moved) && HasLeg(moved, active) && back != active
      && MoveLeg(moved, active, Some(back)) == legs
  {
    var from, to := FindIndex(legs, active), FindIndex(legs, over);
    var moved := ArrayMove(legs, from, to);
    assert MoveLeg(legs, active, Some(over)) == moved by { MoveLegMoves(legs, active, over); }
    var back := moved[from].orderId;
    assert DistinctIds(moved) && moved[to].orderId == active && back != active
      && FindIndex(moved, active) == to && FindIndex(moved, back) == from by {
      assert from != to;
      FindAfterMove(legs, from, to);
    }
    assert HasLeg(moved, active) by { assert moved[to].orderId == active; }
    assert HasLeg(moved, back) by { assert moved[from].orderId == back; }
    calc {
      MoveLeg(moved, active, Some(back));
      { MoveLegMoves(moved, active, back); }
      ArrayMove(moved, to, from);
      { ArrayMoveInverse(legs, from, to); }
      legs;
    }
  }

  /** A drag onto a different leg is the move between the two legs' indices. */
  lemma MoveLegMoves(legs: seq<Order>, active: string, over: string)
    requires HasLeg(legs, active) && HasLeg(legs, over) && active != over
    ensures MoveLeg(legs, active, Some(over)) == ArrayMove(legs, FindIndex(legs, active), FindIndex(legs, over))
  {
  }

  /**
   * Deletes leg `k` of group `i`'s primary batch; a group left with no
   * primary leg is deleted.
   */
  function DeleteBatchOrder(list: OrderList, i: nat, k: nat): (r: OrderList)
    requires i < |list| && k < |list[i].batchOrders|
    ensures |list[i].batchOrders| == 1 ==> r == RemoveAt(list, i)
    ensures |list[i].batchOrders| > 1 ==>
      && |r| == |list| && (forall j :: 0 <= j < |list| && j != i ==> r[j] == list[j])
      && r[i].batchOrders == RemoveAt(list[i].batchOrders, k)
      && r[i].subOrderList == list[i].subOrderList
      && r[i].market == list[i].market && r[i].symbol == list[i].symbol
    ensures WellShaped(list) ==> WellShaped(r)
  {
    var g := list[i];
    var batch := RemoveAt(g.batchOrders, k);
    if |batch| == 0 then RemoveAt(list, i)
    else WithGroup(list, i, g.(batchOrders := batch))
  }

  /**
   * Deletes leg `k` of sub-list `m` of group `i`; a sub-list left empty is
   * deleted.
   */
  function DeleteSubBatchOrder(list: OrderList, i: nat, m: nat, k: nat): (r: OrderList)
    requires i < |list| && m < |list[i].subOrderList| && k < |list[i].subOrderList[m].batchOrders|
    ensures |r| == |list| && forall j :: 0 <= j < |list| && j != i ==> r[j] == list[j]
    ensures r[i].batchOrders == list[i].batchOrders
    ensures r[i].market == list[i].market && r[i].symbol == list[i].symbol
    ensures |list[i].subOrderList[m].batchOrders| == 1 ==> r[i].subOrderList == RemoveAt(list[i].subOrderList, m)
    ensures |list[i].subOrderList[m].batchOrders| > 1 ==>
      r[i].subOrderList == list[i].subOrderList[m := SubList(RemoveAt(list[i].subOrderList[m].batchOrders, k))]
    ensures WellShaped(list) ==> WellShaped(r)
  {
    var g := list[i];
    var batch := RemoveAt(g.subOrderList[m].batchOrders, k);
    if |batch| == 0 then WithGroup(list, i, g.(subOrderList := RemoveAt(g.subOrderList, m)))
    else WithGroup(list, i, g.(subOrderList := g.subOrderList[m := SubList(batch)]))
  }

  /** The number of legs in a list, both levels counted. */
  function LegCount(list: OrderList): nat {
    if |list| == 0 then 0 else GroupLegCount(list[0]) + LegCount(list[1..])
  }

  lemma {:induction false} LegCountSplit(list: OrderList, i: nat)
    requires i < |list|
    ensures LegCount(list) == LegCount(list[..i]) + GroupLegCount(list[i]) + LegCount(list[i + 1..])
  {
    if i > 0 {
      LegCountSplit(list[1..], i - 1);
      assert list[1..][..i - 1] == list[..i][1..];
      assert list[1..][i - 1] == list[i];
      assert list[1..][i..] == list[i + 1..];
    } else {
      assert list[..0] == [];
      assert list[1..] == list[i + 1..];
    }
  }

  lemma {:induction false} LegCountAppend(a: OrderList, b: OrderList)
    ensures LegCount(a + b) == LegCount(a) + LegCount(b)
  {
    if |a| == 0 {
      assert a + b == b;
    } else {
      assert (a + b)[0] == a[0];
      assert (a + b)[1..] == a[1..] + b;
      LegCountAppend(a[1..], b);
    }
  }

  /**
   * Deleting a primary leg removes one leg; deleting the last primary leg
   * of a group also discards every sub-list leg of that group.
   */
  lemma DeleteBatchOrderLegCount(list: OrderList, i: nat, k: nat)
    requires i < |list| && k < |list[i].batchOrders|
    ensures LegCount(DeleteBatchOrder(list, i, k)) ==
      LegCount(list) - 1 - (if |list[i].batchOrders| == 1 then SubLegCount(list[i].subOrderList) else 0)
  {
    var r := DeleteBatchOrder(list, i, k);
    LegCountSplit(list, i);
    if |list[i].batchOrders| == 1 {
      assert r == list[..i] + list[i + 1..];
      LegCountAppend(list[..i], list[i + 1..]);
    } else {
      LegCountSplit(r, i);
      assert r[..i] == list[..i];
      assert r[i + 1..] == list[i + 1..];
    }
  }
}
