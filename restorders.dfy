/** restorders.go: placing and cancelling orders. The enumerations are
    plain strings on the wire, so any text is accepted where one is
    expected; `%.8f` formatting of the float64 quantity and price is the
    parameter `fixed8`. */
module RestOrders {
  import opened Common
  import opened Errors
  import opened Rest
  import opened RestApi

  const OrderSideBuy: string := "BUY"
  const OrderSideSell: string := "SELL"

  const OrderTypeLimit: string := "LIMIT"
  const OrderTypeMarket: string := "MARKET"

  const TimeInForceGTC: string := "GTC"
  const TimeInForceIOC: string := "IOC"
  const TimeInForceFOK: string := "FOK"

  const OrderStatusNew: string := "NEW"
  const OrderStatusCanceled: string := "CANCELED"
  const OrderStatusFilled: string := "FILLED"
  const OrderStatusPartiallyFilled: string := "PARTIALLY_FILLED"

  /** The enumerations are told apart by their text alone: the values of
      each type are pairwise different. */
  lemma EnumerationsDistinct()
    ensures OrderSideBuy != OrderSideSell && OrderTypeLimit != OrderTypeMarket
    ensures TimeInForceGTC != TimeInForceIOC && TimeInForceIOC != TimeInForceFOK && TimeInForceGTC != TimeInForceFOK
    ensures |{OrderStatusNew, OrderStatusCanceled, OrderStatusFilled, OrderStatusPartiallyFilled}| == 4
  {
  }

  /** What a caller asks for when placing an order. */
  datatype OrderParameters = OrderParameters(
    symbol: string,
    side: string,
    orderType: string,
    timeInForce: string,
    quantity: real,
    price: real,
    newClientOrderId: string)

  /** The parameter map of an order: symbol, side, type, the quantity in
      %.8f and the client order id always (the id even when empty); the
      price in %.8f for every type but MARKET; timeInForce only when it is
      not empty. */
  function OrderParams(order: OrderParameters, fixed8: real -> string): (m: map<string, Value>)
    ensures m.Keys == {"symbol", "side", "type", "quantity", "newClientOrderId"}
                      + (if order.orderType != OrderTypeMarket then {"price"} else {})
                      + (if order.timeInForce != "" then {"timeInForce"} else {})
    ensures m["symbol"] == Str(order.symbol) && m["side"] == Str(order.side) && m["type"] == Str(order.orderType)
    ensures m["quantity"] == Str(fixed8(order.quantity)) && m["newClientOrderId"] == Str(order.newClientOrderId)
    ensures "price" in m ==> m["price"] == Str(fixed8(order.price))
    ensures "timeInForce" in m ==> m["timeInForce"] == Str(order.timeInForce)
  {
    var m := map["symbol" := Str(order.symbol), "side" := Str(order.side), "type" := Str(order.orderType),
                 "quantity" := Str(fixed8(order.quantity))];
    var m := if order.orderType == OrderTypeMarket then m else m["price" := Str(fixed8(order.price))];
    var m := m["newClientOrderId" := Str(order.newClientOrderId)];
    if order.timeInForce != "" then m["timeInForce" := Str(order.timeInForce)] else m
  }

  /** A market order carries no price, whatever price the caller gave; a
      limit order always does. */
  lemma MarketOrderHasNoPrice(order: OrderParameters, fixed8: real -> string)
    ensures "price" in OrderParams(order, fixed8) <==> order.orderType != OrderTypeMarket
    ensures order.orderType == OrderTypeMarket ==>
            OrderParams(order, fixed8) == OrderParams(order.(price := 0.0), fixed8)
  {
  }

  /** PostOrder: a signed POST of the order's map. A transport failure
      gives no response; otherwise the response is handed back, together
      with an API error when its status is 400 or above. */
  method PostOrder(c: RestClient, order: OrderParameters, fixed8: real -> string, now: int,
                   net: Request -> HttpResult)
    returns (response: Option<Response>, err: Option<Error>)
    ensures var h := net(c.SignedRequest(POST, OrderEndpoint, OrderParams(order, fixed8), now));
            match h
            case TransportFailure(cause) => response == None && err == Some(Transport(cause))
            case Received(resp) =>
              response == Some(resp) && err == StatusError(FailFrom400, h)
  {
    var params := new Params(map[]);
    params.Set("symbol", Str(order.symbol));
    params.Set("side", Str(order.side));
    params.Set("type", Str(order.orderType));
    params.Set("quantity", Str(fixed8(order.quantity)));
    if order.orderType != OrderTypeMarket {
      params.Set("price", Str(fixed8(order.price)));
    }
    params.Set("newClientOrderId", Str(order.newClientOrderId));
    if order.timeInForce != "" {
      params.Set("timeInForce", Str(order.timeInForce));
    }
    assert params.entries == OrderParams(order, fixed8);
    var h := c.Post(OrderEndpoint, params, now, net);
    if h.TransportFailure? {
      return None, Some(Transport(h.cause));
    }
    if h.response.statusCode >= 400 {
      return Some(h.response), Some(Api(NewRestApiErrorFromResponse(h.response)));
    }
    response, err := Some(h.response), None;
  }

  /** CancelOrderById: a signed DELETE of /api/v3/order for symbol and
      orderId; anything but 200 is an API error. */
  method CancelOrderById<R>(c: RestClient, symbol: string, orderId: int64, now: int,
                            decode: Bytes -> Result<R, string>, net: Request -> HttpResult)
    returns (r: Result<R, Error>)
    ensures r == Checked(FailUnless200, net(c.SignedRequest(DELETE, OrderEndpoint, OrderIdParams(symbol, orderId), now)), decode)
  {
    var params := new Params(map[]);
    params.Set("symbol", Str(symbol));
    params.Set("orderId", Int(orderId as int));
    assert params.entries == OrderIdParams(symbol, orderId);
    var h := c.Delete(OrderEndpoint, params, now, net);
    if h.TransportFailure? {
      return Failure(Transport(h.cause));
    }
    if h.response.statusCode != 200 {
      return Failure(Api(NewRestApiErrorFromResponse(h.response)));
    }
    r := DecodeBody(h.response.body, decode);
  }
}
