# Alpaca trading client: deferred invocation, OAuth credential, null guard and order routing

A functional Dafny model of four small, deterministic pieces of the Alpaca .NET
client:

- **AlpacaValueTask** (`ValueTasks`): an immutable pair of a captured
  `Func<CancellationToken, ValueTask>` and the token it will be invoked with.
  Delegates and tokens are opaque identities. The internal constructor is the
  datatype constructor `AlpacaValueTask(fid, tok)`. Awaiting is modelled by its
  trace: one `Invocation(fid, tok)` appended to the invocation log, plus the
  effects the delegate causes. Those effects come from a `Behaviour` parameter,
  and the no-op delegate of the parameterless constructor causes none.
  Each await invokes the delegate again: nothing guards against a second
  await (AlpacaValueTask.cs:45-47).
- **OAuthKey** (`OAuth`): the bearer-token credential. It yields one
  `Authorization: Bearer <Value>` header and a handshake payload carrying the
  token. `GetAuthentication` always fails with `InvalidOperation`.
- **NullableHelper.EnsureNotNull** (`NullableHelper`): `Option<T>` (None is
  null) to `Result<T, Exception>`. A null argument gives
  `ArgumentNull(name)`.
- **Order endpoints of AlpacaTradingClient** (`TradingOrders`): each public
  operation maps to a `Dispatch` descriptor. A descriptor holds the verb,
  target, body, reply type, cancellation token and throttler. When the C# code
  throws before sending, the operation instead yields the exception as a
  `Result` failure. Order ids are `Guid`s, and they appear in paths in the
  .NET "D" format (`Guids`): lower-case 8-4-4-4-12 hex groups, the textual UUID
  layout of section 3 of RFC 4122. `ParseD` is a reference reader for that
  format. Its round-trip lemma shows that `FormatD` is injective, so distinct
  order ids address distinct resources.

Shared modules: `Wrappers` (Option, Result), `Exceptions` (ArgumentNull,
InvalidOperation, RequestValidation) and `Cancellation` (CancellationToken,
compared by source like .NET's).

Helpers whose code is not part of this model are kept symbolic. The
descriptor records the term `ListOrdersUri(request)` for
`request.GetUriBuilder(...)`. It records `ChangeOrderEndpoint(request)` for
`GetEndpointUri()` and `JsonOfNewOrderRequest(request)` for
`GetJsonRequest()`. A request's `Validate()` is represented by its list of
`violations`. An empty list means the request is valid and `Validate()`
returns it unchanged. Otherwise `Validate()` raises `RequestValidation`.

An OAuth key still builds a streaming handshake payload:
`GetAuthenticationData` (OAuthKey.cs:29-33) succeeds and carries
`OAuthToken = Value`. Only `GetAuthentication` (OAuthKey.cs:35-36) throws
`InvalidOperationException`.

The order operations call an `EnsureNotNull` in namespace `Alpaca.Markets`.
Its code is not part of this model. It is assumed to behave like the
Extensions helper that is modelled: return the argument, or throw
`ArgumentNullException(name)`.

## Model

| member | source | states |
|---|---|---|
| ValueTasks.New | Alpaca.Markets.Extensions/AsyncTasks/AlpacaValueTask.cs:17-21 | The parameterless constructor binds CancellationToken.None, and awaiting the result adds no effect to the trace for any behaviour of captured delegates |
| ValueTasks.WithCancellation | Alpaca.Markets.Extensions/AsyncTasks/AlpacaValueTask.cs:37-39 | Returns a new value with the same delegate and the given token. The result equals the receiver exactly when the token is the one already bound |
| ValueTasks.WithCancellationLastWins | Alpaca.Markets.Extensions/AsyncTasks/AlpacaValueTask.cs:37-39 | Rebinding twice equals rebinding once to the last token, and rebinding to the current token changes nothing |
| ValueTasks.Await | Alpaca.Markets.Extensions/AsyncTasks/AlpacaValueTask.cs:45-47 | Awaiting appends exactly one invocation, of the captured delegate with the stored token, and keeps every earlier invocation and effect in place |
| ValueTasks.AwaitAfterRebind | Alpaca.Markets.Extensions/AsyncTasks/AlpacaValueTask.cs:37-47 | Awaiting a rebound value invokes the original delegate once with the new token and causes exactly that invocation's effects |
| ValueTasks.Equals | Alpaca.Markets.Extensions/AsyncTasks/AlpacaValueTask.cs:51-54 | Equal delegate and equal token is the same as structural equality of the pair |
| ValueTasks.EqualsObject | Alpaca.Markets.Extensions/AsyncTasks/AlpacaValueTask.cs:57-60 | `Equals(object)` holds only for a boxed AlpacaValueTask equal to the receiver; null and other objects are never equal |
| ValueTasks.OperatorEquals | Alpaca.Markets.Extensions/AsyncTasks/AlpacaValueTask.cs:72-75 | `==` holds exactly for equal pairs |
| ValueTasks.OperatorNotEquals | Alpaca.Markets.Extensions/AsyncTasks/AlpacaValueTask.cs:83-86 | `!=` holds exactly for distinct pairs |
| ValueTasks.EqualsIsEquivalence | Alpaca.Markets.Extensions/AsyncTasks/AlpacaValueTask.cs:51-86 | Equals is reflexive, symmetric and transitive. `==` coincides with it and `!=` is its negation. `Equals(object)` of a boxed value agrees with it and is false for null |
| ValueTasks.HashConsistentWithEquals | Alpaca.Markets.Extensions/AsyncTasks/AlpacaValueTask.cs:63-64 | `GetHashCode` (modelled by ValueTasks.GetHashCode, the delegate's own hash) is consistent with Equals: equal values have equal hash codes. Values with the same delegate hash equally whatever their tokens, and rebinding never changes the hash |
| NullableHelper.EnsureNotNull | Alpaca.Markets.Extensions/NullableHelper.cs:8 | Succeeds exactly on a non-null argument and returns it unchanged. A null argument fails with ArgumentNull carrying the given name |
| NullableHelper.EnsureNotNullRoundTrip | Alpaca.Markets.Extensions/NullableHelper.cs:8 | Forgetting the exception gives back the argument, so the guard neither invents nor alters values |
| NullableHelper.EnsureNotNullIdempotent | Alpaca.Markets.Extensions/NullableHelper.cs:8 | Guarding a value that already passed the guard gives the same result, under any parameter name |
| OAuth.GetAuthenticationHeaders | Alpaca.Markets/Authentication/OAuthKey.cs:23-27 | Exactly one header, named Authorization. Its value is the 7-character prefix "Bearer " followed by the key's Value, which dropping the prefix gives back |
| OAuth.HeadersRoundTrip | Alpaca.Markets/Authentication/OAuthKey.cs:17-27 | Reading the bearer token back from the headers yields Value, and two keys produce the same headers exactly when their values are equal |
| OAuth.GetAuthenticationData | Alpaca.Markets/Authentication/OAuthKey.cs:29-33 | The handshake payload's OAuthToken is Value, and the key-pair members are left unset |
| OAuth.AuthenticationDataInjective | Alpaca.Markets/Authentication/OAuthKey.cs:17-33 | Two keys produce the same payload exactly when their values are equal |
| OAuth.GetAuthentication | Alpaca.Markets/Authentication/OAuthKey.cs:35-36 | Fails with InvalidOperation for every key and never returns a value |
| Guids.Hex | Alpaca.Markets/AlpacaTradingClient.Orders.cs:102 | A field is written as exactly `width` lower-case hex digits |
| Guids.ParseHex | Alpaca.Markets/AlpacaTradingClient.Orders.cs:102 | A hex string of n digits reads back as a number below 16^n, which keeps every parsed Guid field within its width |
| Guids.HexRoundTrip | Alpaca.Markets/AlpacaTradingClient.Orders.cs:102 | Reading a written field gives back its value (induction on the width) |
| Guids.FormatD | Alpaca.Markets/AlpacaTradingClient.Orders.cs:102 | `{orderId:D}` is 36 characters, with hyphens at positions 8, 13, 18 and 23 and lower-case hex digits everywhere else |
| Guids.FormatDRoundTrip | Alpaca.Markets/AlpacaTradingClient.Orders.cs:102 | Parsing the "D" string of a Guid gives back that Guid |
| Guids.FormatDInjective | Alpaca.Markets/AlpacaTradingClient.Orders.cs:102 | Two Guids have the same "D" string exactly when they are equal |
| TradingOrders.OrderPath | Alpaca.Markets/AlpacaTradingClient.Orders.cs:102 | The per-order path is the 10-character prefix "v2/orders/" followed by the "D" string of the id |
| TradingOrders.Validate | Alpaca.Markets/AlpacaTradingClient.Orders.cs:42 | Validate returns the request itself exactly when there are no violations; otherwise it fails with RequestValidation listing them |
| TradingOrders.ListOrders | Alpaca.Markets/AlpacaTradingClient.Orders.cs:26-31 | A null request fails with ArgumentNull("request") and nothing is dispatched. Otherwise the call is a GET of the request's own URI with no body, decoded as an order list |
| TradingOrders.ListAllOrders | Alpaca.Markets/AlpacaTradingClient.Orders.cs:16-18 | The result is the same descriptor as listing with a default ListOrdersRequest, and it always dispatches a GET |
| TradingOrders.PostJsonOrder | Alpaca.Markets/AlpacaTradingClient.Orders.cs:55-59 | A POST to "v2/orders" whose body is the JSON order passed in |
| TradingOrders.PostNewOrder | Alpaca.Markets/AlpacaTradingClient.Orders.cs:39-42 | A null request fails with ArgumentNull("request"). A non-null request dispatches exactly when it validates, and otherwise fails with its violations. On success the call is the POST of its JSON |
| TradingOrders.PostOrder | Alpaca.Markets/AlpacaTradingClient.Orders.cs:50-53 | Same as PostNewOrder with the parameter name "orderBase", posting the OrderBase's JSON |
| TradingOrders.PatchOrder | Alpaca.Markets/AlpacaTradingClient.Orders.cs:67-72 | A null request fails with ArgumentNull("request"). A request that does not validate fails with its violations. Otherwise the call is a PATCH to the request's own endpoint with the request as body |
| TradingOrders.GetOrderByClientOrderId | Alpaca.Markets/AlpacaTradingClient.Orders.cs:80-90 | A GET of "v2/orders:by_client_order_id" with exactly one query parameter, client_order_id, set to the given id |
| TradingOrders.GetOrderById | Alpaca.Markets/AlpacaTradingClient.Orders.cs:98-102 | A GET with no body of "v2/orders/" followed by the "D" string of the id |
| TradingOrders.DeleteOrder | Alpaca.Markets/AlpacaTradingClient.Orders.cs:110-114 | A DELETE of "v2/orders/" followed by the "D" string of the id, whose reply is the accepted flag |
| TradingOrders.DeleteAllOrders | Alpaca.Markets/AlpacaTradingClient.Orders.cs:121-124 | A DELETE of "v2/orders" decoded as a list of order action statuses |
| TradingOrders.DispatchDiscipline | Alpaca.Markets/AlpacaTradingClient.Orders.cs:16-124 | For every order operation, a null argument fails with ArgumentNull of its parameter name before validation. A failing validation fails before dispatch. The operation dispatches exactly when neither happens, and then carries the caller's token and the client's REST API throttler |
| TradingOrders.OrderPathIdentifiesOrder | Alpaca.Markets/AlpacaTradingClient.Orders.cs:98-114 | GetOrderAsync(Guid) and DeleteOrderAsync address the same path for the same id, and distinct ids give distinct paths |
| TradingOrders.DeleteAllUsesCollectionPath | Alpaca.Markets/AlpacaTradingClient.Orders.cs:55-59 | DeleteAllOrdersAsync issues DELETE on the same path that new orders are POSTed to |

## Left out

- The throttler (admission control, permit counting, FIFO waiting): its code is not part of this model. A descriptor records only which throttler would be used.
- HTTP dispatch, response decoding and the transport (`GetAsync`, `PostAsync`, `PatchAsync`, `DeleteAsync`, `QueryBuilder`, `UriBuilder`): I/O. The model stops at the descriptor of the call that would be made.
- The internals of `Validate`, `GetJsonRequest`, `GetUriBuilder` and `GetEndpointUri`: their code is not part of this model. They appear as a violations list and as symbolic descriptor terms.
- Asynchronous execution, cancellation behaviour and the awaiter machinery of `ValueTask`: runtime concurrency. Awaiting is reduced to its invocation record and effects.
- `default(AlpacaValueTask)`, which bypasses the constructor and holds a null delegate: only values built by the two constructors are modelled.
- ValueTasks.GetHashCode: the delegate's own hash code is an opaque parameter, so only its dependence on the delegate alone is stated.
- `SecurityKey`, the base class of `OAuthKey`: its code is not part of this model. `Value` is taken to be an immutable non-null string.
- OAuth.GetAuthenticationData: the members of `JsonAuthRequest.JsonData` other than `OAuthToken` are not part of this model. They are represented by the two key-pair members, both left unset.
- TradingOrders.GetOrderByClientOrderId: a null client order id is passed unchecked to `QueryBuilder`, whose code is not part of this model, so the id is modelled as a non-null string.
- The JSON converters, the time-zone helper, `AssetClass`, `JsonConnectionStatus` and the `IAlpacaDataClient` interface: declarative configuration or OS-dependent. They hold no behaviour of the modelled operations.
