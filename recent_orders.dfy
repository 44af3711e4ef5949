/** The dashboard's recent-orders panel. Its `fetchOrders` knows two
    response shapes (a bare array, then an object with `orders`) where the
    orders table knows three; badges and rows are the shared ones of
    `Orders`. */
module RecentOrders {
  import opened Common
  import opened Orders
  import OrdersTable

  /** What the request came back with: `data.data`, or a thrown error. */
  datatype FetchResult = Received(data: DataField) | RequestFailed

  const FormatErrorMessage := "Unexpected data format received from server"
  const FetchFailedMessage := "Failed to fetch orders"

  /** Array first, then an object carrying `orders`; anything else is a format error. */
  function NormaliseRecent(data: DataField): (r: Option<seq<Order>>)
    ensures data.OrderList? ==> r == Some(data.list)
    ensures data.OrdersObject? ==> r == Some(data.orders)
    ensures r.None? <==> data == Absent || data == OtherObject
  {
    match data
    case OrderList(xs) => Some(xs)
    case OrdersObject(os) => Some(os)
    case _ => None
  }

  /** Whatever the orders table lists, this panel lists too, and whatever
      the table rejects as malformed, so does the panel. They differ only on
      an object sent beside a pagination field, which the table stores as it is. */
  lemma {:induction false} AgreesWithOrdersTable(body: OrdersTable.OrdersBody, prior: OrdersTable.PageInfo)
    ensures OrdersTable.Normalise(body, prior).Listed? ==>
      NormaliseRecent(body.data) == Some(OrdersTable.Normalise(body, prior).orders)
    ensures OrdersTable.Normalise(body, prior).FormatError? ==> NormaliseRecent(body.data).None?
    ensures OrdersTable.Normalise(body, prior).NotAList? ==>
      (NormaliseRecent(body.data).None? <==> body.data == OtherObject)
  {
    var n := OrdersTable.Normalise(body, prior);
    match body.data
    case OrderList(xs) =>
    case OrdersObject(os) =>
    case Absent =>
    case OtherObject =>
  }

  datatype PanelView = PanelView(orders: seq<Order>, error: Option<string>, loading: bool)

  /** The state after the panel's fetch: loading is off in every outcome,
      and both failure kinds empty the list. */
  function AfterFetch(v: PanelView, result: FetchResult): (w: PanelView)
    ensures !w.loading
    ensures result.RequestFailed? ==> w.orders == [] && w.error == Some(FetchFailedMessage)
    ensures result.Received? && NormaliseRecent(result.data).None? ==>
      w.orders == [] && w.error == Some(FormatErrorMessage)
    ensures result.Received? && NormaliseRecent(result.data).Some? ==>
      w.orders == NormaliseRecent(result.data).value && w.error == v.error
  {
    match result
    case RequestFailed => PanelView([], Some(FetchFailedMessage), false)
    case Received(data) =>
      match NormaliseRecent(data)
      case Some(os) => v.(orders := os, loading := false)
      case None => PanelView([], Some(FormatErrorMessage), false)
  }

  class RecentOrdersPanel {
    var orders: seq<Order>
    var error: Option<string>
    var loading: bool

    constructor ()
      ensures View() == PanelView([], None, true)
    {
      orders, error, loading := [], None, true;
    }

    function View(): PanelView
      reads this
    {
      PanelView(orders, error, loading)
    }

    /** The panel's `fetchOrders`, with the response given as `result`. */
    method FetchOrders(result: FetchResult)
      modifies this
      ensures View() == AfterFetch(old(View()), result)
    {
      match result {
        case RequestFailed =>
          error := Some(FetchFailedMessage);
          orders := [];
        case Received(data) =>
          if data.OrderList? {
            orders := data.list;
          } else if data.OrdersObject? {
            orders := data.orders;
          } else {
            error := Some(FormatErrorMessage);
            orders := [];
          }
      }
      loading := false;
    }
  }
}
