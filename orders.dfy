/** Orders as the vendor API returns them, the two status badges, and the
    expansion of a list of orders into one table row per line item. The
    orders table and the recent-orders panel share all of this. */
module Orders {
  import opened Common

  datatype OrderItem = OrderItem(
    orderItemId: int, productId: int, productName: string, productSku: string,
    quantity: int, price: string, totalPrice: string)

  datatype Order = Order(
    orderId: int, orderNumber: string, customerName: string, customerEmail: string,
    status: string, paymentStatus: string, totalAmount: string, createdAt: string,
    items: seq<OrderItem>)

  /** What `response.data.data` holds: nothing (a falsy value), an array of
      orders, an object whose `orders` field is an array, or any other object. */
  datatype DataField = Absent | OrderList(list: seq<Order>) | OrdersObject(orders: seq<Order>) | OtherObject

  // ---------------------------------------------------------------- badges

  /** `getStatusBadgeColor` of the orders views, after lower-casing. */
  function OrderStatusBadge(status: string): (b: Badge)
    ensures b == Success <==> ToLower(status) == "completed"
    ensures b == Warning <==> ToLower(status) == "pending"
    ensures b == Error <==> ToLower(status) == "cancelled"
  {
    var s := ToLower(status);
    if s == "completed" then Success
    else if s == "pending" then Warning
    else if s == "cancelled" then Error
    else Default
  }

  /** `getPaymentStatusBadgeColor`, after lower-casing. */
  function PaymentStatusBadge(paymentStatus: string): (b: Badge)
    ensures b == Success <==> ToLower(paymentStatus) == "paid"
    ensures b == Warning <==> ToLower(paymentStatus) == "pending"
    ensures b == Error <==> ToLower(paymentStatus) == "failed"
  {
    var s := ToLower(paymentStatus);
    if s == "paid" then Success
    else if s == "pending" then Warning
    else if s == "failed" then Error
    else Default
  }

  /** Both maps ignore case, and a refunded order or payment gets the default colour. */
  lemma BadgesIgnoreCase(s: string, t: string)
    requires ToLower(s) == ToLower(t)
    ensures OrderStatusBadge(s) == OrderStatusBadge(t)
    ensures PaymentStatusBadge(s) == PaymentStatusBadge(t)
  {
  }

  lemma RefundedIsDefault()
    ensures OrderStatusBadge("refunded") == Default
    ensures PaymentStatusBadge("refunded") == Default
  {
    ToLowerKeepsLowercase("refunded");
  }

  // ---------------------------------------------------------------- rows

  /** A row is keyed `${order_id}-${itemIndex}`; the key is kept as the pair. */
  datatype RowKey = RowKey(orderId: int, itemIndex: nat)

  /** One table row: the order header repeated beside one of its items. */
  datatype Row = Row(order: Order, item: OrderItem, key: RowKey)

  /** `order.items.map((item, itemIndex) => row)`. */
  function OrderRows(o: Order): (rows: seq<Row>)
    ensures |rows| == |o.items|
    ensures forall i :: 0 <= i < |rows| ==> rows[i] == Row(o, o.items[i], RowKey(o.orderId, i))
  {
    seq(|o.items|, i requires 0 <= i < |o.items| => Row(o, o.items[i], RowKey(o.orderId, i)))
  }

  /** `orders.flatMap(order => order.items.map(...))`. */
  function Rows(orders: seq<Order>): (rows: seq<Row>)
    ensures |rows| == ItemCount(orders)
  {
    if orders == [] then [] else OrderRows(orders[0]) + Rows(orders[1..])
  }

  function ItemCount(orders: seq<Order>): nat
  {
    if orders == [] then 0 else |orders[0].items| + ItemCount(orders[1..])
  }

  /** Rows of consecutive lists of orders are consecutive: the rows keep the order of the orders. */
  lemma {:induction false} RowsAppend(a: seq<Order>, b: seq<Order>)
    ensures Rows(a + b) == Rows(a) + Rows(b)
  {
    if a == [] {
      assert a + b == b;
    } else {
      RowsAppend(a[1..], b);
      assert (a + b)[0] == a[0];
      assert (a + b)[1..] == a[1..] + b;
      var head, tail, rest := OrderRows(a[0]), Rows(a[1..]), Rows(b);
      assert Rows(a + b) == head + (tail + rest);
      ConcatAssociative(head, tail, rest);
    }
  }

  lemma ConcatAssociative<T>(x: seq<T>, y: seq<T>, z: seq<T>)
    ensures x + (y + z) == (x + y) + z
  {
  }

  /** An order without items contributes no row. */
  lemma EmptyOrderHasNoRows(before: seq<Order>, o: Order, after: seq<Order>)
    requires o.items == []
    ensures Rows(before + [o] + after) == Rows(before + after)
  {
    RowsAppend(before + [o], after);
    RowsAppend(before, [o]);
    RowsAppend(before, after);
    assert [o][1..] == [];
    assert Rows([o]) == [] by {
      assert Rows([o]) == OrderRows(o) + Rows([]);
      assert |OrderRows(o)| == 0;
    }
    assert Rows(before) + [] == Rows(before);
  }

  /** The row shows item `key.itemIndex` of order `o`, under that order's id. */
  predicate ShowsItemOf(r: Row, o: Order)
  {
    r.order == o && r.key.orderId == o.orderId
    && r.key.itemIndex < |o.items| && r.item == o.items[r.key.itemIndex]
  }

  /** Every row shows an item of one of the orders, at the index its key names. */
  lemma {:induction false} RowComesFromAnItem(orders: seq<Order>, k: nat)
    requires k < |Rows(orders)|
    ensures exists j :: 0 <= j < |orders| && ShowsItemOf(Rows(orders)[k], orders[j])
  {
    var head := OrderRows(orders[0]);
    if k >= |head| {
      RowComesFromAnItem(orders[1..], k - |head|);
      var j :| 0 <= j < |orders[1..]| && ShowsItemOf(Rows(orders[1..])[k - |head|], orders[1..][j]);
      assert Rows(orders)[k] == Rows(orders[1..])[k - |head|];
      assert orders[1..][j] == orders[j + 1];
    } else {
      assert Rows(orders)[k] == head[k];
    }
  }

  /** Every item of every order has its row. */
  lemma {:induction false} EveryItemHasARow(orders: seq<Order>, j: nat, i: nat)
    requires j < |orders| && i < |orders[j].items|
    ensures Row(orders[j], orders[j].items[i], RowKey(orders[j].orderId, i)) in Rows(orders)
  {
    if j == 0 {
      assert OrderRows(orders[0])[i] == Row(orders[0], orders[0].items[i], RowKey(orders[0].orderId, i));
      assert Rows(orders) == OrderRows(orders[0]) + Rows(orders[1..]);
    } else {
      EveryItemHasARow(orders[1..], j - 1, i);
      assert orders[1..][j - 1] == orders[j];
    }
  }

  predicate DistinctIds(orders: seq<Order>)
  {
    forall a, b :: 0 <= a < b < |orders| ==> orders[a].orderId != orders[b].orderId
  }

  predicate DistinctKeys(rows: seq<Row>)
  {
    forall a, b :: 0 <= a < b < |rows| ==> rows[a].key != rows[b].key
  }

  /** When order ids are distinct, so are the row keys React receives. */
  lemma {:induction false} KeysDistinct(orders: seq<Order>)
    requires DistinctIds(orders)
    ensures DistinctKeys(Rows(orders))
  {
    if orders != [] {
      var head := OrderRows(orders[0]);
      var tail := Rows(orders[1..]);
      assert DistinctIds(orders[1..]) by {
        forall a, b | 0 <= a < b < |orders[1..]| ensures orders[1..][a].orderId != orders[1..][b].orderId {
          assert orders[1..][a] == orders[a + 1] && orders[1..][b] == orders[b + 1];
        }
      }
      KeysDistinct(orders[1..]);
      forall t | 0 <= t < |tail| ensures tail[t].key.orderId != orders[0].orderId {
        RowComesFromAnItem(orders[1..], t);
        var j :| 0 <= j < |orders[1..]| && ShowsItemOf(tail[t], orders[1..][j]);
        assert orders[1..][j] == orders[j + 1];
      }
      var rows := Rows(orders);
      assert rows == head + tail;
      forall a, b | 0 <= a < b < |rows| ensures rows[a].key != rows[b].key {
        if b < |head| {
          assert rows[a].key.itemIndex == a && rows[b].key.itemIndex == b;
        } else if a < |head| {
          assert rows[a].key.orderId == orders[0].orderId;
          assert rows[b] == tail[b - |head|];
        } else {
          assert rows[a] == tail[a - |head|] && rows[b] == tail[b - |head|];
        }
      }
    }
  }
}
