/**
  The order endpoints of AlpacaTradingClient. Each public operation either
  raises an exception before anything is sent, or yields the descriptor of the
  one HTTP call it dispatches: verb, target, body, expected reply, token and
  throttler. Results of helpers whose code is not part of this model
  (GetUriBuilder, GetEndpointUri, GetJsonRequest) appear as symbolic terms.
 */
module TradingOrders {
  import opened Wrappers
  import opened Exceptions
  import opened Cancellation
  import opened Guids
  import NullableHelper

  /** Identity of a rate-limiting throttler instance. */
  datatype ThrottlerId = ThrottlerId(id: nat)

  /** The client's state the order endpoints use: its REST API throttler. */
  datatype TradingClient = TradingClient(restApiThrottler: ThrottlerId)

  /** ListOrdersRequest; its filter properties are not part of this model. */
  datatype ListOrdersRequest =
    | DefaultListOrdersRequest      // `new ListOrdersRequest()`
    | ConfiguredListOrdersRequest(id: nat)

  /** A request whose `Validate()` raises RequestValidation with `violations` unless it is empty. */
  datatype NewOrderRequest = NewOrderRequest(id: nat, violations: seq<string>)
  datatype OrderBase = OrderBase(id: nat, violations: seq<string>)
  datatype ChangeOrderRequest = ChangeOrderRequest(id: nat, violations: seq<string>)

  /** JsonNewOrder, the result of GetJsonRequest() on a validated request. */
  datatype JsonNewOrder = JsonOfNewOrderRequest(request: NewOrderRequest) | JsonOfOrderBase(order: OrderBase)

  datatype Verb = Get | Post | Patch | Delete

  datatype QueryParameter = QueryParameter(name: string, value: string)

  /** Where a call goes. */
  datatype Target =
    | RelativePath(path: string) // a relative URI string, resolved against the client's base address
    // a UriBuilder over the base address whose Path is set to `path` (replacing the base
    // address's own path rather than resolving against it) and whose Query is `query`
    | PathWithQuery(path: string, query: seq<QueryParameter>)
    | ListOrdersUri(listRequest: ListOrdersRequest)        // request.GetUriBuilder(_httpClient)
    | ChangeOrderEndpoint(changeRequest: ChangeOrderRequest) // request.GetEndpointUri()

  datatype Body = NoBody | NewOrderBody(json: JsonNewOrder) | ChangeOrderBody(change: ChangeOrderRequest)

  /** The type the reply is decoded into. */
  datatype Reply = OrderList | SingleOrder | Accepted | OrderActionStatusList

  /** One dispatched HTTP call. */
  datatype Dispatch = Dispatch(verb: Verb, target: Target, body: Body, reply: Reply,
                               token: CancellationToken, throttler: ThrottlerId)

  const OrdersPath := "v2/orders"
  const ByClientOrderIdPath := "v2/orders:by_client_order_id"
  const ClientOrderIdParameter := "client_order_id"

  /** `$"v2/orders/{orderId:D}"`. */
  function OrderPath(orderId: Guid): (p: string)
    ensures |p| == 46 && p[..10] == "v2/orders/" && p[10..] == FormatD(orderId)
  {
    OrdersPath + "/" + FormatD(orderId)
  }

  /** A request's `Validate()`: returns the request itself, or raises on any violation. */
  function Validate<T>(request: T, violations: seq<string>): (r: Result<T, Exception>)
    ensures r.Success? <==> violations == []
    ensures r.Success? ==> r.value == request
    ensures r.Failure? ==> r.error == RequestValidation(violations)
  {
    if violations == [] then Success(request) else Failure(RequestValidation(violations))
  }

  /** `ListOrdersAsync(request, cancellationToken)`. */
  function ListOrders(client: TradingClient, request: Option<ListOrdersRequest>, token: CancellationToken)
    : (r: Result<Dispatch, Exception>)
    ensures r.Failure? <==> request.None?
    ensures r.Failure? ==> r.error == ArgumentNull("request")
    ensures r.Success? ==> (r.value.verb == Get && r.value.target == ListOrdersUri(request.value)
                            && r.value.body == NoBody && r.value.reply == OrderList)
  {
    var checked :- NullableHelper.EnsureNotNull(request, "request");
    Success(Dispatch(Get, ListOrdersUri(checked), NoBody, OrderList, token, client.restApiThrottler))
  }

  /** `ListAllOrdersAsync(cancellationToken)`: the listing of a default ListOrdersRequest. */
  function ListAllOrders(client: TradingClient, token: CancellationToken): (r: Result<Dispatch, Exception>)
    ensures r == ListOrders(client, Some(DefaultListOrdersRequest), token)
    ensures r.Success? && r.value.verb == Get
  {
    ListOrders(client, Some(DefaultListOrdersRequest), token)
  }

  /** The private `postOrderAsync(jsonNewOrder, cancellationToken)`. */
  function PostJsonOrder(client: TradingClient, json: JsonNewOrder, token: CancellationToken): (d: Dispatch)
    ensures d.verb == Post && d.target == RelativePath("v2/orders") && d.body == NewOrderBody(json)
  {
    Dispatch(Post, RelativePath(OrdersPath), NewOrderBody(json), SingleOrder, token, client.restApiThrottler)
  }

  /** `PostOrderAsync(NewOrderRequest, cancellationToken)`: guard, Validate, GetJsonRequest, post. */
  function PostNewOrder(client: TradingClient, request: Option<NewOrderRequest>, token: CancellationToken)
    : (r: Result<Dispatch, Exception>)
    ensures request.None? ==> r == Failure(ArgumentNull("request"))
    ensures request.Some? ==> (r.Success? <==> request.value.violations == [])
    ensures request.Some? && r.Failure? ==> r.error == RequestValidation(request.value.violations)
    ensures r.Success? ==> r.value == PostJsonOrder(client, JsonOfNewOrderRequest(request.value), token)
  {
    var checked :- NullableHelper.EnsureNotNull(request, "request");
    var valid :- Validate(checked, checked.violations);
    Success(PostJsonOrder(client, JsonOfNewOrderRequest(valid), token))
  }

  /** `PostOrderAsync(OrderBase, cancellationToken)`: guard, Validate, GetJsonRequest, post. */
  function PostOrder(client: TradingClient, orderBase: Option<OrderBase>, token: CancellationToken)
    : (r: Result<Dispatch, Exception>)
    ensures orderBase.None? ==> r == Failure(ArgumentNull("orderBase"))
    ensures orderBase.Some? ==> (r.Success? <==> orderBase.value.violations == [])
    ensures orderBase.Some? && r.Failure? ==> r.error == RequestValidation(orderBase.value.violations)
    ensures r.Success? ==> r.value == PostJsonOrder(client, JsonOfOrderBase(orderBase.value), token)
  {
    var checked :- NullableHelper.EnsureNotNull(orderBase, "orderBase");
    var valid :- Validate(checked, checked.violations);
    Success(PostJsonOrder(client, JsonOfOrderBase(valid), token))
  }

  /** `PatchOrderAsync(request, cancellationToken)`: guard, Validate, PATCH to the request's own endpoint. */
  function PatchOrder(client: TradingClient, request: Option<ChangeOrderRequest>, token: CancellationToken)
    : (r: Result<Dispatch, Exception>)
    ensures request.None? ==> r == Failure(ArgumentNull("request"))
    ensures request.Some? ==> (r.Success? <==> request.value.violations == [])
    ensures request.Some? && r.Failure? ==> r.error == RequestValidation(request.value.violations)
    ensures r.Success? ==> (r.value.verb == Patch && r.value.target == ChangeOrderEndpoint(request.value)
                            && r.value.body == ChangeOrderBody(request.value) && r.value.reply == SingleOrder)
  {
    var checked :- NullableHelper.EnsureNotNull(request, "request");
    var valid :- Validate(checked, checked.violations);
    Success(Dispatch(Patch, ChangeOrderEndpoint(valid), ChangeOrderBody(checked), SingleOrder,
                     token, client.restApiThrottler))
  }

  /** `GetOrderAsync(String clientOrderId, cancellationToken)`: one query parameter on the lookup path. */
  function GetOrderByClientOrderId(client: TradingClient, clientOrderId: string, token: CancellationToken)
    : (d: Dispatch)
    ensures d.verb == Get && d.body == NoBody && d.reply == SingleOrder
    ensures d.target.PathWithQuery? && d.target.path == "v2/orders:by_client_order_id"
    ensures |d.target.query| == 1
    ensures d.target.query[0].name == "client_order_id" && d.target.query[0].value == clientOrderId
  {
    Dispatch(Get, PathWithQuery(ByClientOrderIdPath, [QueryParameter(ClientOrderIdParameter, clientOrderId)]),
             NoBody, SingleOrder, token, client.restApiThrottler)
  }

  /** `GetOrderAsync(Guid orderId, cancellationToken)`. */
  function GetOrderById(client: TradingClient, orderId: Guid, token: CancellationToken): (d: Dispatch)
    ensures d.verb == Get && d.body == NoBody && d.reply == SingleOrder
    ensures d.target == RelativePath(OrderPath(orderId))
  {
    Dispatch(Get, RelativePath(OrderPath(orderId)), NoBody, SingleOrder, token, client.restApiThrottler)
  }

  /** `DeleteOrderAsync(Guid orderId, cancellationToken)`: the reply says whether the cancel was accepted. */
  function DeleteOrder(client: TradingClient, orderId: Guid, token: CancellationToken): (d: Dispatch)
    ensures d.verb == Delete && d.body == NoBody && d.reply == Accepted
    ensures d.target == RelativePath(OrderPath(orderId))
  {
    Dispatch(Delete, RelativePath(OrderPath(orderId)), NoBody, Accepted, token, client.restApiThrottler)
  }

  /** `DeleteAllOrdersAsync(cancellationToken)`. */
  function DeleteAllOrders(client: TradingClient, token: CancellationToken): (d: Dispatch)
    ensures d.verb == Delete && d.body == NoBody && d.reply == OrderActionStatusList
    ensures d.target == RelativePath("v2/orders")
  {
    Dispatch(Delete, RelativePath(OrdersPath), NoBody, OrderActionStatusList, token, client.restApiThrottler)
  }

  /** Every public order operation, with its arguments. */
  datatype OrderCall =
    | ListAllOrdersCall(token: CancellationToken)
    | ListOrdersCall(listRequest: Option<ListOrdersRequest>, token: CancellationToken)
    | PostNewOrderCall(newOrder: Option<NewOrderRequest>, token: CancellationToken)
    | PostOrderCall(orderBase: Option<OrderBase>, token: CancellationToken)
    | PatchOrderCall(change: Option<ChangeOrderRequest>, token: CancellationToken)
    | GetOrderByClientOrderIdCall(clientOrderId: string, token: CancellationToken)
    | GetOrderByIdCall(orderId: Guid, token: CancellationToken)
    | DeleteOrderCall(orderId: Guid, token: CancellationToken)
    | DeleteAllOrdersCall(token: CancellationToken)

  /** Runs one order operation up to the point of dispatch. */
  function Perform(client: TradingClient, call: OrderCall): Result<Dispatch, Exception> {
    match call
    case ListAllOrdersCall(t) => ListAllOrders(client, t)
    case ListOrdersCall(req, t) => ListOrders(client, req, t)
    case PostNewOrderCall(req, t) => PostNewOrder(client, req, t)
    case PostOrderCall(req, t) => PostOrder(client, req, t)
    case PatchOrderCall(req, t) => PatchOrder(client, req, t)
    case GetOrderByClientOrderIdCall(id, t) => Success(GetOrderByClientOrderId(client, id, t))
    case GetOrderByIdCall(id, t) => Success(GetOrderById(client, id, t))
    case DeleteOrderCall(id, t) => Success(DeleteOrder(client, id, t))
    case DeleteAllOrdersCall(t) => Success(DeleteAllOrders(client, t))
  }

  /** The argument-null guard of a call, if it has a reference argument that is null. */
  function NullArgument(call: OrderCall): Option<string> {
    match call
    case ListOrdersCall(None, _) => Some("request")
    case PostNewOrderCall(None, _) => Some("request")
    case PostOrderCall(None, _) => Some("orderBase")
    case PatchOrderCall(None, _) => Some("request")
    case _ => None
  }

  /** The violations `Validate()` would report for a call's (non-null) request, if it validates one. */
  function Violations(call: OrderCall): seq<string> {
    match call
    case PostNewOrderCall(Some(req), _) => req.violations
    case PostOrderCall(Some(req), _) => req.violations
    case PatchOrderCall(Some(req), _) => req.violations
    case _ => []
  }

  /**
    Every operation either fails before dispatch (null guard first, then validation) or
    dispatches exactly once, with the caller's token and the REST API throttler.
   */
  lemma DispatchDiscipline(client: TradingClient, call: OrderCall)
    ensures NullArgument(call).Some? ==> Perform(client, call) == Failure(ArgumentNull(NullArgument(call).value))
    ensures NullArgument(call).None? && Violations(call) != [] ==>
              Perform(client, call) == Failure(RequestValidation(Violations(call)))
    ensures Perform(client, call).Success? <==> NullArgument(call).None? && Violations(call) == []
    ensures Perform(client, call).Success? ==>
              Perform(client, call).value.token == call.token
              && Perform(client, call).value.throttler == client.restApiThrottler
  {
  }

  /** Fetching and cancelling an order by id address the same resource, and distinct ids distinct ones. */
  lemma OrderPathIdentifiesOrder(client: TradingClient, x: Guid, y: Guid, token: CancellationToken)
    ensures GetOrderById(client, x, token).target == DeleteOrder(client, x, token).target
    ensures GetOrderById(client, x, token).target == GetOrderById(client, y, token).target <==> x == y
  {
    if OrderPath(x) == OrderPath(y) {
      FormatDInjective(x, y);
    }
  }

  /** Cancelling all orders targets the collection path new orders are posted to. */
  lemma DeleteAllUsesCollectionPath(client: TradingClient, json: JsonNewOrder, token: CancellationToken)
    ensures DeleteAllOrders(client, token).target == PostJsonOrder(client, json, token).target
    ensures DeleteAllOrders(client, token).verb == Delete && PostJsonOrder(client, json, token).verb == Post
  {
  }
}
