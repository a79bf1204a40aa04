/** restapi.go: the endpoint wrappers. Each one fills in a parameter map,
    picks one of the client's send operations, applies its own rule to the
    status code and decodes the body. The decoders of the response structs
    are parameters (`decode`): what is modelled is which request goes out
    and how its outcome is classified. */
module RestApi {
  import opened Common
  import opened Text
  import opened Order
  import opened Errors
  import opened Rest

  /** The two status checks the endpoints use: `>= 400` fails, or
      anything but 200 fails. */
  datatype StatusRule = FailFrom400 | FailUnless200

  function Rejects(rule: StatusRule, status: int): (r: bool)
    ensures status >= 400 ==> r
    ensures r ==> status != 200
  {
    match rule
    case FailFrom400 => status >= 400
    case FailUnless200 => status != 200
  }

  /** The rules agree on 200 and on every status from 400 up; on a 1xx, a
      201–399 or anything below they part: only FailUnless200 rejects. */
  lemma StatusRulesDiffer(status: int)
    ensures Rejects(FailFrom400, status) ==> Rejects(FailUnless200, status)
    ensures Rejects(FailUnless200, status) && !Rejects(FailFrom400, status) <==> status < 400 && status != 200
  {
  }

  /** The outcome of a call whose status is checked by `rule` before its
      body is decoded. */
  function Checked<R>(rule: StatusRule, h: HttpResult, decode: Bytes -> Result<R, string>): (r: Result<R, Error>)
    ensures h.TransportFailure? <==> r.Failure? && r.error.Transport?
    ensures h.TransportFailure? ==> r == Failure(Transport(h.cause))
    ensures r.Failure? && r.error.Decode?
            <==> h.Received? && !Rejects(rule, h.response.statusCode) && decode(h.response.body).Failure?
  {
    match h
    case TransportFailure(cause) => Failure(Transport(cause))
    case Received(resp) =>
      if Rejects(rule, resp.statusCode) then Failure(Api(NewRestApiErrorFromResponse(resp)))
      else DecodeBody(resp.body, decode)
  }

  /** A checked call succeeds exactly when a response arrived, its status
      passed the rule and its body decoded; the value is the decoded one. */
  lemma CheckedSuccess<R>(rule: StatusRule, h: HttpResult, decode: Bytes -> Result<R, string>)
    ensures Checked(rule, h, decode).Success?
            <==> h.Received? && !Rejects(rule, h.response.statusCode) && decode(h.response.body).Success?
    ensures Checked(rule, h, decode).Success? ==> Checked(rule, h, decode).value == decode(h.response.body).value
  {
  }

  /** A checked call reports an API error exactly when the status was
      rejected, and the error carries that response's status and body. */
  lemma CheckedApiError<R>(rule: StatusRule, h: HttpResult, decode: Bytes -> Result<R, string>)
    ensures (Checked(rule, h, decode).Failure? && Checked(rule, h, decode).error.Api?)
            <==> h.Received? && Rejects(rule, h.response.statusCode)
    ensures Checked(rule, h, decode).Failure? && Checked(rule, h, decode).error.Api? ==>
            Checked(rule, h, decode).error.apiError == RestApiError(h.response.statusCode, h.response.body)
  {
  }

  /** The error alone of a checked call that decodes nothing. */
  function StatusError(rule: StatusRule, h: HttpResult): (err: Option<Error>)
    ensures err.None? <==> h.Received? && !Rejects(rule, h.response.statusCode)
  {
    match h
    case TransportFailure(cause) => Some(Transport(cause))
    case Received(resp) =>
      if Rejects(rule, resp.statusCode) then Some(Api(NewRestApiErrorFromResponse(resp))) else None
  }

  const PriceTickerEndpoint: string := "/api/v3/ticker/price"
  const BookTickerEndpoint: string := "/api/v3/ticker/bookTicker"
  const UserDataStreamEndpoint: string := "/api/v1/userDataStream"
  const OrderEndpoint: string := "/api/v3/order"
  const MyTradesEndpoint: string := "/api/v3/myTrades"
  const AccountEndpoint: string := "/api/v3/account"

  /** A public call with only a symbol asks for `?symbol=<symbol>`. */
  lemma SymbolRequest(endpoint: string, symbol: string)
    ensures PublicRequest(endpoint, map["symbol" := Str(symbol)])
            == Request(GET, ApiRoot + endpoint + "?symbol=" + symbol, None)
  {
    CanonicalQuerySingleton("symbol", Str(symbol));
  }

  /** GetPriceTicker: the ticker of one symbol, unsigned and unchecked. */
  method GetPriceTicker<R>(c: RestClient, symbol: string, decode: Bytes -> Result<R, string>,
                           net: Request -> HttpResult) returns (r: Result<R, Error>)
    ensures r == DecodeResponse(net(Request(GET, ApiRoot + PriceTickerEndpoint + "?symbol=" + symbol, None)), decode)
  {
    var params := new Params(map["symbol" := Str(symbol)]);
    SymbolRequest(PriceTickerEndpoint, symbol);
    r := c.GetAndDecode(PriceTickerEndpoint, params, decode, net);
  }

  /** GetPriceTickerAll: every ticker; the URL has no query at all. */
  method GetPriceTickerAll<R>(c: RestClient, decode: Bytes -> Result<R, string>,
                              net: Request -> HttpResult) returns (r: Result<R, Error>)
    ensures r == DecodeResponse(net(Request(GET, ApiRoot + PriceTickerEndpoint, None)), decode)
  {
    CanonicalQueryEmpty(map[]);
    r := c.GetAndDecode(PriceTickerEndpoint, null, decode, net);
  }

  /** GetBookTicker: the best bid and ask of one symbol, unsigned and unchecked. */
  method GetBookTicker<R>(c: RestClient, symbol: string, decode: Bytes -> Result<R, string>,
                          net: Request -> HttpResult) returns (r: Result<R, Error>)
    ensures r == DecodeResponse(net(Request(GET, ApiRoot + BookTickerEndpoint + "?symbol=" + symbol, None)), decode)
  {
    var params := new Params(map["symbol" := Str(symbol)]);
    SymbolRequest(BookTickerEndpoint, symbol);
    r := c.GetAndDecode(BookTickerEndpoint, params, decode, net);
  }

  /** GetUserDataStream: a key-only POST with no parameters; a status from
      400 up is an API error, and on any error the listen key is empty. */
  method GetUserDataStream(c: RestClient, decode: Bytes -> Result<string, string>, net: Request -> HttpResult)
    returns (listenKey: string, err: Option<Error>)
    ensures var o := Checked(FailFrom400, net(Request(POST, ApiRoot + UserDataStreamEndpoint,
                                                      if c.apiKey != "" then Some(c.apiKey) else None)), decode);
            (o.Success? ==> listenKey == o.value && err == None)
            && (o.Failure? ==> listenKey == "" && err == Some(o.error))
  {
    CanonicalQueryEmpty(map[]);
    var httpResponse := c.PostWithApiKey(UserDataStreamEndpoint, null, net);
    if httpResponse.TransportFailure? {
      return "", Some(Transport(httpResponse.cause));
    }
    if httpResponse.response.statusCode >= 400 {
      return "", Some(Api(NewRestApiErrorFromResponse(httpResponse.response)));
    }
    var response := DecodeBody(httpResponse.response.body, decode);
    if response.Failure? {
      return "", Some(response.error);
    }
    listenKey, err := response.value, None;
  }

  /** PutUserStreamKeepAlive: a key-only PUT of
      `/api/v1/userDataStream?listenKey=<key>`, the key not escaped;
      anything but 200 is an API error. */
  method PutUserStreamKeepAlive(c: RestClient, listenKey: string, net: Request -> HttpResult)
    returns (err: Option<Error>)
    ensures err == StatusError(FailUnless200,
                               net(Request(PUT, ApiRoot + UserDataStreamEndpoint + "?listenKey=" + listenKey, Some(c.apiKey))))
  {
    var queryString := c.BuildQueryString(map["listenKey" := Str(listenKey)]);
    CanonicalQuerySingleton("listenKey", Str(listenKey));
    var path := UserDataStreamEndpoint + "?" + queryString;
    assert ApiRoot + path == ApiRoot + UserDataStreamEndpoint + "?listenKey=" + listenKey;
    var httpResponse := c.PutWithApiKey(path, net);
    if httpResponse.TransportFailure? {
      return Some(Transport(httpResponse.cause));
    }
    if httpResponse.response.statusCode != 200 {
      return Some(Api(NewRestApiErrorFromResponse(httpResponse.response)));
    }
    err := None;
  }

  /** The map of an order lookup by exchange id. */
  function OrderIdParams(symbol: string, orderId: int64): (m: map<string, Value>)
    ensures m.Keys == {"symbol", "orderId"}
    ensures m["symbol"] == Str(symbol) && m["orderId"] == Int(orderId as int)
  {
    map["symbol" := Str(symbol), "orderId" := Int(orderId as int)]
  }

  /** The four keys of a signed order lookup sort as orderId, recvWindow,
      symbol, timestamp, and origClientOrderId before recvWindow too. */
  lemma OrderKeysAscending()
    ensures Less("orderId", "recvWindow") && Less("origClientOrderId", "recvWindow")
    ensures Less("recvWindow", "symbol") && Less("symbol", "timestamp")
  {
  }

  /** The canonical query of a map built from four ascending keys. */
  lemma FourKeyQuery(k1: string, v1: Value, k2: string, v2: Value, k3: string, v3: Value, k4: string, v4: Value)
    requires Less(k1, k2) && Less(k2, k3) && Less(k3, k4)
    ensures CanonicalQuery(map[k1 := v1][k2 := v2][k3 := v3][k4 := v4])
            == k1 + "=" + FormatValue(v1) + "&" + (k2 + "=" + FormatValue(v2)) + "&" + (k3 + "=" + FormatValue(v3))
               + "&" + (k4 + "=" + FormatValue(v4))
  {
    LessTransitive(k1, k2, k3);
    LessTransitive(k1, k3, k4);
    LessTransitive(k2, k3, k4);
    var m1 := map[k1 := v1];
    var m2 := m1[k2 := v2];
    var m3 := m2[k3 := v3];
    var q1 := k1 + "=" + FormatValue(v1);
    var q2 := q1 + "&" + (k2 + "=" + FormatValue(v2));
    var q3 := q2 + "&" + (k3 + "=" + FormatValue(v3));
    KeysBelow(map[], k1, v1, k2);
    KeysBelow(map[], k1, v1, k3);
    KeysBelow(m1, k2, v2, k3);
    KeysBelow(map[], k1, v1, k4);
    KeysBelow(m1, k2, v2, k4);
    KeysBelow(m2, k3, v3, k4);
    assert CanonicalQuery(m1) == q1 by {
      CanonicalQuerySingleton(k1, v1);
    }
    assert CanonicalQuery(m2) == q2 by {
      CanonicalQueryAppend(m1, k2, v2);
    }
    assert CanonicalQuery(m3) == q3 by {
      CanonicalQueryAppend(m2, k3, v3);
    }
    CanonicalQueryAppend(m3, k4, v4);
  }

  /** A key above every key of m and above k stays above every key of m
      with k added. */
  lemma KeysBelow(m: map<string, Value>, k: string, v: Value, top: string)
    requires forall j :: j in m ==> Less(j, top)
    requires Less(k, top)
    ensures forall j :: j in m[k := v] ==> Less(j, top)
    ensures m[k := v] != map[]
  {
    assert k in m[k := v];
  }

  /** The signed query of an order lookup whose own key sorts before
      recvWindow: that key, recvWindow, symbol, timestamp. */
  lemma LookupQuery(key: string, v: Value, symbol: string, now: int)
    requires Less(key, "recvWindow")
    ensures CanonicalQuery(map[key := v]["recvWindow" := Int(RecvWindow)]["symbol" := Str(symbol)]["timestamp" := Int(now)])
            == key + "=" + FormatValue(v) + "&" + ("recvWindow" + "=" + "5000") + "&" + ("symbol" + "=" + symbol)
               + "&" + ("timestamp" + "=" + IntToString(now))
  {
    OrderKeysAscending();
    RecvWindowText();
    FourKeyQuery(key, v, "recvWindow", Int(RecvWindow), "symbol", Str(symbol), "timestamp", Int(now));
  }

  /** The signed query of an order lookup by id has the caller's two keys
      and the two added ones in ascending order, the added ones between
      them: orderId, recvWindow, symbol, timestamp. */
  lemma OrderIdQuery(symbol: string, orderId: int64, now: int)
    ensures CanonicalQuery(WithAuthParams(OrderIdParams(symbol, orderId), now))
            == "orderId=" + IntToString(orderId as int) + "&" + "recvWindow=5000" + "&"
               + "symbol=" + symbol + "&" + "timestamp=" + IntToString(now)
  {
    assert WithAuthParams(OrderIdParams(symbol, orderId), now)
        == map["orderId" := Int(orderId as int)]["recvWindow" := Int(RecvWindow)]["symbol" := Str(symbol)]["timestamp" := Int(now)];
    OrderKeysAscending();
    LookupQuery("orderId", Int(orderId as int), symbol, now);
    OrderIdText(IntToString(orderId as int), symbol, IntToString(now));
  }


  /** GetOrderByOrderId: a signed GET of /api/v3/order for symbol and
      orderId; anything but 200 is an API error. */
  method GetOrderByOrderId<R>(c: RestClient, symbol: string, orderId: int64, now: int,
                              decode: Bytes -> Result<R, string>, net: Request -> HttpResult)
    returns (r: Result<R, Error>)
    ensures r == Checked(FailUnless200, net(c.SignedRequest(GET, OrderEndpoint, OrderIdParams(symbol, orderId), now)), decode)
  {
    var params := new Params(OrderIdParams(symbol, orderId));
    var httpResponse := c.GetWithAuth(OrderEndpoint, params, now, net);
    if httpResponse.TransportFailure? {
      return Failure(Transport(httpResponse.cause));
    }
    if httpResponse.response.statusCode != 200 {
      return Failure(Api(NewRestApiErrorFromResponse(httpResponse.response)));
    }
    r := DecodeBody(httpResponse.response.body, decode);
  }

  /** The map of an order lookup by the client's own id. */
  function ClientIdParams(symbol: string, clientId: string): (m: map<string, Value>)
    ensures m.Keys == {"symbol", "origClientOrderId"}
    ensures m["symbol"] == Str(symbol) && m["origClientOrderId"] == Str(clientId)
  {
    map["symbol" := Str(symbol), "origClientOrderId" := Str(clientId)]
  }

  /** origClientOrderId, recvWindow, symbol, timestamp: the signed query of
      a lookup by client id. */
  lemma ClientIdQuery(symbol: string, clientId: string, now: int)
    ensures CanonicalQuery(WithAuthParams(ClientIdParams(symbol, clientId), now))
            == "origClientOrderId=" + clientId + "&" + "recvWindow=5000" + "&"
               + "symbol=" + symbol + "&" + "timestamp=" + IntToString(now)
  {
    assert WithAuthParams(ClientIdParams(symbol, clientId), now)
        == map["origClientOrderId" := Str(clientId)]["recvWindow" := Int(RecvWindow)]["symbol" := Str(symbol)]["timestamp" := Int(now)];
    OrderKeysAscending();
    LookupQuery("origClientOrderId", Str(clientId), symbol, now);
    ClientIdText(clientId, symbol, IntToString(now));
  }


  /** Text regrouping. FourFieldText, OrderIdText, ClientIdText and
      TwoFieldText only re-associate concatenations of literal pieces, so
      that the query lemmas can state their results as one flat text. They
      help the solver and state nothing about the client.

      The text of a signed order lookup, regrouped. */
  lemma FourFieldText(key: string, id: string, symbol: string, time: string)
    ensures key + "=" + id + "&" + ("recvWindow" + "=" + "5000") + "&" + ("symbol" + "=" + symbol)
            + "&" + ("timestamp" + "=" + time)
            == key + "=" + id + "&" + "recvWindow=5000" + "&" + "symbol=" + symbol + "&" + "timestamp=" + time
  {
    assert "recvWindow" + "=" + "5000" == "recvWindow=5000";
    var a := key + "=" + id + "&" + "recvWindow=5000" + "&";
    assert a + ("symbol" + "=" + symbol) == a + "symbol=" + symbol;
    var b := a + "symbol=" + symbol + "&";
    assert b + ("timestamp" + "=" + time) == b + "timestamp=" + time;
  }

  lemma OrderIdText(id: string, symbol: string, time: string)
    ensures "orderId" + "=" + id + "&" + ("recvWindow" + "=" + "5000") + "&" + ("symbol" + "=" + symbol)
            + "&" + ("timestamp" + "=" + time)
            == "orderId=" + id + "&" + "recvWindow=5000" + "&" + "symbol=" + symbol + "&" + "timestamp=" + time
  {
    FourFieldText("orderId", id, symbol, time);
    assert "orderId" + "=" == "orderId=";
  }

  lemma ClientIdText(id: string, symbol: string, time: string)
    ensures "origClientOrderId" + "=" + id + "&" + ("recvWindow" + "=" + "5000") + "&" + ("symbol" + "=" + symbol)
            + "&" + ("timestamp" + "=" + time)
            == "origClientOrderId=" + id + "&" + "recvWindow=5000" + "&" + "symbol=" + symbol + "&" + "timestamp=" + time
  {
    FourFieldText("origClientOrderId", id, symbol, time);
    assert "origClientOrderId" + "=" == "origClientOrderId=";
  }

  /** GetOrderByClientId: as GetOrderByOrderId, keyed by origClientOrderId. */
  method GetOrderByClientId<R>(c: RestClient, symbol: string, clientId: string, now: int,
                               decode: Bytes -> Result<R, string>, net: Request -> HttpResult)
    returns (r: Result<R, Error>)
    ensures r == Checked(FailUnless200, net(c.SignedRequest(GET, OrderEndpoint, ClientIdParams(symbol, clientId), now)), decode)
  {
    var params := new Params(ClientIdParams(symbol, clientId));
    var httpResponse := c.GetWithAuth(OrderEndpoint, params, now, net);
    if httpResponse.TransportFailure? {
      return Failure(Transport(httpResponse.cause));
    }
    if httpResponse.response.statusCode != 200 {
      return Failure(Api(NewRestApiErrorFromResponse(httpResponse.response)));
    }
    r := DecodeBody(httpResponse.response.body, decode);
  }

  /** The map of a trade-history query: the symbol always, limit only
      when positive, fromId only when not below zero. */
  function MyTradesParams(symbol: string, limit: int64, fromId: int64): (m: map<string, Value>)
    ensures "symbol" in m && m["symbol"] == Str(symbol)
    ensures "limit" in m <==> limit > 0
    ensures "fromId" in m <==> fromId > -1
    ensures "limit" in m ==> m["limit"] == Int(limit as int)
    ensures "fromId" in m ==> m["fromId"] == Int(fromId as int)
    ensures m.Keys <= {"symbol", "limit", "fromId"}
  {
    var m := map["symbol" := Str(symbol)];
    var m := if limit > 0 then m["limit" := Int(limit as int)] else m;
    if fromId > -1 then m["fromId" := Int(fromId as int)] else m
  }

  /** The trade-history query carries neither signature nor timestamp
      nor recvWindow, although the endpoint is an account one. */
  lemma MyTradesUnsigned(symbol: string, limit: int64, fromId: int64)
    ensures var m := MyTradesParams(symbol, limit, fromId);
            "timestamp" !in m && "signature" !in m && "recvWindow" !in m
  {
  }

  /** GetMytrades: the trade history through AuthGetAndDecode, so unsigned
      and with no status check. */
  method GetMytrades<R>(c: RestClient, symbol: string, limit: int64, fromId: int64,
                        decode: Bytes -> Result<R, string>, net: Request -> HttpResult)
    returns (r: Result<R, Error>)
    ensures r == DecodeResponse(net(PublicRequest(MyTradesEndpoint, MyTradesParams(symbol, limit, fromId))), decode)
  {
    var params := new Params(map["symbol" := Str(symbol)]);
    if limit > 0 {
      params.Set("limit", Int(limit as int));
    }
    if fromId > -1 {
      params.Set("fromId", Int(fromId as int));
    }
    r := c.AuthGetAndDecode(MyTradesEndpoint, params, decode, net);
  }

  /** The signed query of a call with no parameters of its own:
      recvWindow, then timestamp. */
  lemma NoParamsQuery(now: int)
    ensures CanonicalQuery(WithAuthParams(map[], now)) == "recvWindow=5000" + "&" + "timestamp=" + IntToString(now)
  {
    var m := WithAuthParams(map[], now);
    assert m == map["recvWindow" := Int(RecvWindow), "timestamp" := Int(now)];
    OrderKeysAscending();
    LessTransitive("recvWindow", "symbol", "timestamp");
    TwoKeyQuery("recvWindow", Int(RecvWindow), "timestamp", Int(now));
    RecvWindowText();
    TwoFieldText(IntToString(now));
  }

  /** Text regrouping (see FourFieldText): the text of a signed call with
      no parameters. */
  lemma TwoFieldText(time: string)
    ensures "recvWindow" + "=" + "5000" + "&" + ("timestamp" + "=" + time) == "recvWindow=5000" + "&" + "timestamp=" + time
  {
    assert "recvWindow" + "=" + "5000" == "recvWindow=5000";
    var a := "recvWindow=5000" + "&";
    assert a + ("timestamp" + "=" + time) == a + "timestamp=" + time;
  }

  /** GetAccount: a signed GET with no parameters; a status from 400 up is
      an API error. */
  method GetAccount<R>(c: RestClient, now: int, decode: Bytes -> Result<R, string>, net: Request -> HttpResult)
    returns (r: Result<R, Error>)
    ensures r == Checked(FailFrom400, net(c.SignedRequest(GET, AccountEndpoint, map[], now)), decode)
  {
    var httpResponse := c.GetWithAuth(AccountEndpoint, null, now, net);
    if httpResponse.TransportFailure? {
      return Failure(Transport(httpResponse.cause));
    }
    if httpResponse.response.statusCode >= 400 {
      return Failure(Api(NewRestApiErrorFromResponse(httpResponse.response)));
    }
    r := DecodeBody(httpResponse.response.body, decode);
  }
}
