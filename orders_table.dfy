/** The paginated orders table: how `fetchOrders` turns each response
    shape into the table's orders and pagination, what a failed request
    leaves behind, and the `goToPage` guard that decides whether a fetch
    happens at all. */
module OrdersTable {
  import opened Common
  import opened Orders
  import Paging

  type Positive = n: nat | n > 0 witness 1

  datatype PageInfo = PageInfo(total: int, page: int, pages: int, limit: Positive)

  /** The body of a response: `data.data` and `data.pagination`. */
  datatype OrdersBody = OrdersBody(data: DataField, pagination: Option<PageInfo>)

  /** What the request came back with: a body, or a thrown error. */
  datatype FetchResult = Received(body: OrdersBody) | RequestFailed

  /** How a body is read. The envelope branch stores `data` whatever it is;
      when it is not an array the table is left holding a value that is not
      a list of orders (`NotAList`). */
  datatype Normalised = Listed(orders: seq<Order>, pagination: PageInfo) | NotAList(pagination: PageInfo) | FormatError

  const FormatErrorMessage := "Unexpected data format received from server"
  const FetchFailedMessage := "Failed to fetch orders"

  /** The pagination the two fallback shapes synthesise: first page, every
      order counted, the page count from the current page size. */
  function FallbackPagination(prior: PageInfo, count: nat): (p: PageInfo)
    ensures p.page == 1 && p.total == count && p.limit == prior.limit
    ensures p.pages * p.limit >= count && (p.pages > 0 ==> (p.pages - 1) * p.limit < count)
  {
    prior.(page := 1, total := count, pages := Paging.TotalPages(count, prior.limit))
  }

  /** The shape tests of `fetchOrders`, in their order: envelope, bare array, `orders` object. */
  function Normalise(body: OrdersBody, prior: PageInfo): (r: Normalised)
    ensures body.data != Absent && body.pagination.Some? ==>
      !r.FormatError? && r.pagination == body.pagination.value && (r.Listed? <==> body.data.OrderList?)
    ensures body.pagination.None? && body.data.OrderList? ==>
      r == Listed(body.data.list, FallbackPagination(prior, |body.data.list|))
    ensures body.pagination.None? && body.data.OrdersObject? ==>
      r == Listed(body.data.orders, FallbackPagination(prior, |body.data.orders|))
    ensures r == FormatError <==> body.data == Absent || (body.data == OtherObject && body.pagination.None?)
  {
    if body.data != Absent && body.pagination.Some? then
      if body.data.OrderList? then Listed(body.data.list, body.pagination.value)
      else NotAList(body.pagination.value)
    else if body.data.OrderList? then
      Listed(body.data.list, FallbackPagination(prior, |body.data.list|))
    else if body.data.OrdersObject? then
      Listed(body.data.orders, FallbackPagination(prior, |body.data.orders|))
    else
      FormatError
  }

  /** An array sent beside a pagination object is read as the envelope, not as a bare array. */
  lemma EnvelopeWinsOverArray(xs: seq<Order>, p: PageInfo, prior: PageInfo)
    ensures Normalise(OrdersBody(OrderList(xs), Some(p)), prior) == Listed(xs, p)
    ensures Normalise(OrdersBody(OrderList(xs), None), prior).pagination.page == 1
  {
  }

  /** The query `fetchOrders(page)` sends. */
  datatype OrdersRequest = OrdersRequest(limit: Positive, page: int, sortBy: string, sortOrder: string)

  /** What the table shows: the orders (or a non-list), the pagination,
      the error banner and the loading flag. */
  datatype OrdersView = OrdersView(orders: seq<Order>, ordersAreList: bool, pagination: PageInfo, error: Option<string>, loading: bool)

  /** The state after one `fetchOrders`: the error is never cleared by a
      success, and a failure empties the orders but keeps the pagination. */
  function AfterFetch(v: OrdersView, result: FetchResult): (w: OrdersView)
    ensures !w.loading
    ensures result.RequestFailed? ==>
      w.orders == [] && w.ordersAreList && w.error == Some(FetchFailedMessage) && w.pagination == v.pagination
    ensures result.Received? && Normalise(result.body, v.pagination) == FormatError ==>
      w.orders == [] && w.ordersAreList && w.error == Some(FormatErrorMessage) && w.pagination == v.pagination
    ensures result.Received? && Normalise(result.body, v.pagination).Listed? ==>
      var n := Normalise(result.body, v.pagination);
      w.orders == n.orders && w.ordersAreList && w.pagination == n.pagination && w.error == v.error
    ensures result.Received? && Normalise(result.body, v.pagination).NotAList? ==>
      !w.ordersAreList && w.pagination == Normalise(result.body, v.pagination).pagination && w.error == v.error
  {
    match result
    case RequestFailed => v.(orders := [], ordersAreList := true, error := Some(FetchFailedMessage), loading := false)
    case Received(body) =>
      match Normalise(body, v.pagination)
      case Listed(os, p) => v.(orders := os, ordersAreList := true, pagination := p, loading := false)
      case NotAList(p) => v.(orders := [], ordersAreList := false, pagination := p, loading := false)
      case FormatError => v.(orders := [], ordersAreList := true, error := Some(FormatErrorMessage), loading := false)
  }

  /** Both fallback shapes keep the page size the table asked with. */
  lemma FallbackKeepsPageSize(v: OrdersView, body: OrdersBody)
    requires body.pagination.None?
    ensures AfterFetch(v, Received(body)).pagination.limit == v.pagination.limit
  {
  }

  class OrdersPage {
    var orders: seq<Order>
    var ordersAreList: bool
    var pagination: PageInfo
    var error: Option<string>
    var loading: bool

    constructor ()
      ensures View() == OrdersView([], true, PageInfo(0, 1, 1, 5), None, true)
    {
      orders, ordersAreList := [], true;
      pagination := PageInfo(0, 1, 1, 5);
      error, loading := None, true;
    }

    function View(): OrdersView
      reads this
    {
      OrdersView(orders, ordersAreList, pagination, error, loading)
    }

    /** `fetchOrders(page)`, with the response given as `result`. */
    method FetchOrders(page: int, result: FetchResult) returns (request: OrdersRequest)
      modifies this
      ensures request == OrdersRequest(old(pagination.limit), page, "created_at", "desc")
      ensures View() == AfterFetch(old(View()), result)
    {
      loading := true;
      request := OrdersRequest(pagination.limit, page, "created_at", "desc");
      match result {
        case RequestFailed =>
          error := Some(FetchFailedMessage);
          orders, ordersAreList := [], true;
        case Received(body) =>
          if body.data != Absent && body.pagination.Some? {
            if body.data.OrderList? {
              orders, ordersAreList := body.data.list, true;
            } else {
              orders, ordersAreList := [], false;
            }
            pagination := body.pagination.value;
          } else if body.data.OrderList? {
            orders, ordersAreList := body.data.list, true;
            pagination := FallbackPagination(pagination, |body.data.list|);
          } else if body.data.OrdersObject? {
            orders, ordersAreList := body.data.orders, true;
            pagination := FallbackPagination(pagination, |body.data.orders|);
          } else {
            error := Some(FormatErrorMessage);
            orders, ordersAreList := [], true;
          }
      }
      loading := false;
    }

    /** `goToPage`: a fetch happens exactly when the page is within `1..pagination.pages`;
        otherwise nothing changes. */
    method GoToPage(page: int, result: FetchResult) returns (request: Option<OrdersRequest>)
      modifies this
      ensures request.Some? <==> Paging.InRange(page, old(pagination.pages))
      ensures request.Some? ==> request.value.page == page && View() == AfterFetch(old(View()), result)
      ensures request.None? ==> View() == old(View())
    {
      if Paging.InRange(page, pagination.pages) {
        var sent := FetchOrders(page, result);
        request := Some(sent);
      } else {
        request := None;
      }
    }
  }
}
