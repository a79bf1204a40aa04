# binanceapi-go, modelled in Dafny

This project models the deterministic core of a Go client for the Binance
exchange API:

- the REST client (`rest.go`). It builds the canonical query string of a
  parameter map and composes the request for each of three tiers:
  - public calls: no key and no signature;
  - key-only calls: the `X-MBX-APIKEY` header;
  - signed calls: `recvWindow` and `timestamp` are added to the caller's
    map, and `&signature=` plus the HMAC of the query goes at the end.

  It also turns responses into decoded values or errors.
- the endpoint wrappers (`restapi.go`, `restorders.go`). Each one fills in
  its parameter map, picks a tier, and classifies the status code. Some
  treat a status of 400 or above as an error; others treat anything but 200
  as an error.
- the combined-stream builder and dispatcher (`combinedstream.go`), with the
  part of `stream.go` it relies on. The builder collects stream names and
  forms the multiplexed endpoint. The dispatcher classifies each frame by
  searching for `@aggTrade` in its first 40 bytes.
- the partial-book-depth decoder (`partialbookstream.go`). It checks a
  loosely typed JSON object field by field. It then decodes the bid levels,
  then the ask levels, stopping at the first failure.

Anything outside the program is a parameter:
- the network: `net: Request -> HttpResult`;
- the clock: `now`, in epoch milliseconds;
- HMAC-SHA256 with hex encoding: the client's `sign`;
- `%.8f` formatting: `fixed8`;
- the JSON decoders of the response structs: `decode`;
- `decodeStringFloat64`: `parse`;
- the websocket dialer: `dial`.

A Go map passed by reference is the class `Rest.Params`, and a nil map is
`null`. So the signed calls visibly add their two fields to the caller's
map. Go's `int64` is a newtype; where a product can leave its range, the
model wraps it explicitly (`Common.WrapInt64`).

Modules follow the files:
- `Common`: Option, Result, bytes, int64.
- `Text`: the parts of `strings`, `strconv` and `fmt` that are used.
- `Order`: the order `sort.Strings` uses, an insertion sort, and the
  ascending listing of a key set.
- `Errors` and `Json`.
- `Rest`, `RestApi`, `RestOrders`, `Stream`, `CombinedStream` and
  `PartialBookStream`.

Some behaviour follows directly from the code, even where the names suggest
otherwise:
- `recvWindow` and `timestamp` are sorted in with the caller's keys, not
  appended at the end. The signed query of an order lookup is
  `orderId=…&recvWindow=5000&symbol=…&timestamp=…`
  (`RestApi.OrderIdQuery`).
- `AuthGetAndDecode` does the same as `GetAndDecode`: no key, no signature
  and no status check. `GetMytrades` therefore sends an unsigned request
  (`RestApi.MyTradesUnsigned`).
- Values are not URL-escaped. Two different maps can give the same query,
  and so the same signed text (`Rest.QueryIsNotEscaped`).
- The dispatcher tests whether `@aggTrade` occurs anywhere in the first 40
  bytes. It does not look at the end of the `stream` field
  (`CombinedStream.TaggedIff`, `CombinedStream.TaggedByPrefix`).
- The depth decoder's errors carry no position. A level that is not an
  array, or that lacks an element the decoder indexes, makes the Go code
  panic. Here that is the explicit outcome `Panicked`.
- `stream.go` (line 103) tags the all-market ticker stream as
  `PARTIAL_BOOK`. `Stream.StreamType` keeps the four constants, and
  `OpenStream` leaves a new stream at the zero value, `Combined`.

## Model

| member | source | states |
|---|---|---|
| Common.WrapInt64 | combinedstream.go:77 | int64 arithmetic in two's complement: an in-range result is exact, and any result is congruent to the exact value modulo 2^64 |
| Text.SplitJoin | combinedstream.go:48 | splitting the `/`-joined names recovers them exactly when no name holds the separator |
| Text.JoinSnoc | combinedstream.go:43-48 | appending a part extends the joined text by the separator and that part |
| Text.IndexOf | combinedstream.go:94 | `strings.Index`: -1 exactly when the needle occurs nowhere, otherwise an occurrence with none before it |
| Text.Join | combinedstream.go:48 | `strings.Join`: the parts in order, with the separator between neighbours |
| Text.ToLower | combinedstream.go:42 | same length; no ASCII capital remains: each capital becomes its lower-case letter and every other character is kept |
| Text.ParseInt64 | partialbookstream.go:59 | `json.Number.Int64` (`strconv.ParseInt` in base 10) with its error dropped: digits give their value, clamped at the int64 maximum; a first character other than a sign or a digit gives 0; once the digits after the sign exceed the uint64 range the result is the int64 bound of the sign, whatever follows; a later non-digit after digits within that range gives 0 |
| Text.OverflowBeforeFraction | partialbookstream.go:59 | digits beyond the uint64 range followed by a fraction or an exponent give the int64 maximum, and with a leading `-` the int64 minimum |
| Text.IntToString | rest.go:238 | `%v` of an integer: non-empty, a leading `-` exactly when negative, and only decimal digits after the sign |
| Text.ParseInt64OfIntToString | partialbookstream.go:59 | `json.Number.Int64` reads back every int64 written in decimal |
| Text.DigitsValueOfNatToString | rest.go:238 | the decimal digits of `%v` denote the number |
| Order.Less | rest.go:230 | the string order of `sort.Strings`: character by character, a proper prefix first |
| Order.LessTransitive | rest.go:230 | the byte-wise key order of `sort.Strings` is transitive |
| Order.LessTotal | rest.go:230 | any two different keys are ordered one way or the other |
| Order.LessIrreflexive | rest.go:230 | no key sorts before itself |
| Order.Sort | rest.go:230 | `sort.Strings`: the result is ascending and a permutation of its input |
| Order.SortDistinctIsStrict | rest.go:225-232 | sorting the distinct keys of a map gives a strictly ascending sequence |
| Order.SortedKeys | rest.go:225-232 | the keys of a map, each once, in strictly ascending order |
| Order.StrictlySortedUnique | rest.go:225-232 | a strictly ascending listing is determined by its elements, so the order in which the map is visited cannot matter |
| Rest.FormatValue | rest.go:238 | `%v` of a value: a string as it is, without escaping; an integer as non-empty decimal text, with a leading `-` exactly when negative |
| Rest.FormatValueReadsBack | rest.go:238 | an integer parameter in the int64 range is written as text that `strconv.ParseInt` reads back as the same integer |
| Rest.CanonicalQuery | rest.go:222-242 | the query the loops are proved to build: `key=value` for each key of the map in ascending order, joined by `&` |
| Rest.PairsAt | rest.go:234-239 | the piece at each position is `key=value` for the key at that position |
| Rest.CanonicalQueryOfSorted | rest.go:225-239 | any ascending listing of the keys gives the same query: it depends on the map's contents only |
| Rest.CanonicalQueryLayout | rest.go:225-239 | the query lists each key of the map once, in ascending order, each with its own value, joined by `&` |
| Rest.CanonicalQueryEmpty | rest.go:223-241 | the query is empty exactly when the map is empty |
| Rest.CanonicalQuerySingleton | rest.go:234-239 | a one-key map gives `key=value` |
| Rest.CanonicalQueryAppend | rest.go:234-239 | a key above all present ones adds `&key=value` at the end, and no `&` when the map was empty |
| Rest.TwoKeyQuery | rest.go:234-239 | a two-key map gives `k1=v1&k2=v2`, with the smaller key first |
| RestApi.FourKeyQuery | rest.go:234-239 | a four-key map whose keys ascend gives their four pairs in that order, joined by `&` |
| Rest.QueryIsNotEscaped | rest.go:238 | values are printed with `%v` and not escaped, so two different maps can give the same query |
| Rest.WithAuthParams | rest.go:89-90 | the signed map is the caller's map with `recvWindow` 5000 and `timestamp` inserted or replaced, and every other key kept |
| Rest.RecvWindowText | rest.go:89 | the fixed recvWindow prints as `5000` |
| Rest.UnsignedUrl | rest.go:58-70 | the root and the endpoint, then `?` and the query exactly when the query is non-empty |
| Rest.SignedUrl | rest.go:99-103 | the unsigned URL, then `&signature=` and the signature at the end |
| Rest.UnsignedUrlLayout | rest.go:58-70 | an unsigned URL carries `?` and the query exactly when the map has entries |
| Rest.SignedUrlLayout | rest.go:92-103 | a signed URL is root, endpoint, `?`, a non-empty query holding both added keys, then `&signature=` and the signature, which is not part of the query |
| Errors.RestApiError.Error | rest.go:288-290 | the error's text is the response body, byte for byte |
| Rest.DecodeBody | rest.go:262-273 | the decoder's result on the body: success with the decoded value exactly when the body decodes, otherwise its message as a decode error |
| Rest.NewRestApiErrorFromResponse | rest.go:280-290 | the error keeps the status code and the whole body, and `Error()` is that body |
| Rest.PublicRequest | rest.go:56-77 | the request `Get` sends: a GET without an API key; its URL is root and endpoint alone exactly when the map is empty, and otherwise root, endpoint, `?` and the canonical query |
| Rest.RestClient.SignedRequest | rest.go:85-110 | the request a signed call sends: the call's verb and the client's API key; its URL is root, endpoint, `?`, the canonical query of the map with `recvWindow` and `timestamp` added, `&signature=` and the signature of exactly that query under the secret |
| Rest.EntriesOf | rest.go:61-63 | a nil parameter map reads as empty; otherwise its own entries |
| Rest.DecodeResponse | rest.go:244-251 | the outcome of `GetAndDecode`: a transport error, passed through, exactly when the network failed; otherwise success exactly when the body decodes; never an API error, whatever the status |
| Rest.DecodeResponseIgnoresStatus | rest.go:244-273 | `GetAndDecode` ignores the status code: the same body decodes to the same outcome whatever the status |
| Rest.Params.Set | restorders.go:84-97 | one assignment into the map: that key is set and the others are kept |
| Rest.RestClient.constructor | rest.go:45-47 | a client starts with no credentials |
| Rest.RestClient.WithAuth | rest.go:49-53 | sets both credentials and returns the same client |
| Rest.RestClient.BuildQueryString | rest.go:222-242 | the loops give exactly the canonical query of the map |
| Rest.RestClient.CollectKeys | rest.go:225-229 | every key of the map once, in whatever order it is visited |
| Rest.RestClient.JoinPairs | rest.go:234-239 | the accumulator loop gives the `&`-join of the `key=value` pieces, and no `&` before the first |
| Rest.RestClient.Get | rest.go:56-78 | the request is a GET of the unsigned URL for the map, where a nil map counts as empty, with no API key |
| Rest.RestClient.SendSigned | rest.go:80-113 | the caller's map gets recvWindow and timestamp; the request is the signed URL of the new map's query, with the API key |
| Rest.RestClient.GetWithAuth | rest.go:80-113 | a signed GET; the caller's map is changed in place |
| Rest.RestClient.Post | rest.go:115-147 | a signed POST; the caller's map is changed in place |
| Rest.RestClient.Delete | rest.go:188-220 | a signed DELETE; the caller's map is changed in place |
| Rest.RestClient.PostWithApiKey | rest.go:150-175 | an unsigned POST; the API key header is attached exactly when the key is non-empty |
| Rest.RestClient.PutWithApiKey | rest.go:177-186 | a PUT of the root and the path as given, always with the API key |
| Rest.RestClient.GetAndDecode | rest.go:244-251 | a transport error, or else the decoded body of the unsigned GET, whatever the status |
| Rest.RestClient.AuthGetAndDecode | rest.go:253-260 | the same as GetAndDecode: unsigned, with no key and no status check |
| RestApi.Rejects | restapi.go:83-104 | the two status checks the endpoints use (`>= 400` and `!= http.StatusOK`): both reject every status from 400 up and neither rejects 200 |
| RestApi.StatusRulesDiffer | restapi.go:83 | the `>= 400` rule rejects only what the `!= 200` rule rejects too, and the two differ exactly on statuses below 400 other than 200 |
| RestApi.Checked | restapi.go:133-145 | a transport failure is passed through unchanged, and a decode error comes exactly when the status passed the rule and the body did not decode |
| RestApi.CheckedSuccess | restapi.go:133-145 | a checked call succeeds exactly when a response arrived, its status passed and its body decoded |
| RestApi.CheckedApiError | restapi.go:138-140 | a checked call fails with an API error exactly when the status is rejected, carrying that status and body |
| RestApi.StatusError | restapi.go:100-107 | no error exactly when a response arrived and its status passed the rule |
| RestApi.SymbolRequest | restapi.go:41-44 | a public call with only a symbol asks for `?symbol=<symbol>` |
| RestApi.GetPriceTicker | restapi.go:38-46 | an unsigned, unchecked GET of `/api/v3/ticker/price?symbol=<symbol>` |
| RestApi.GetPriceTickerAll | restapi.go:48-53 | an unsigned, unchecked GET of `/api/v3/ticker/price` with no `?` |
| RestApi.GetBookTicker | restapi.go:63-71 | an unsigned, unchecked GET of `/api/v3/ticker/bookTicker?symbol=<symbol>` |
| RestApi.GetUserDataStream | restapi.go:77-93 | a key-only POST with no query; an error from transport, a status of 400 or above, or decoding comes with an empty key; otherwise the decoded key and no error |
| RestApi.PutUserStreamKeepAlive | restapi.go:95-108 | a key-only PUT of `/api/v1/userDataStream?listenKey=<key>`; anything but 200 is an API error |
| RestApi.OrderIdParams | restapi.go:129-132 | the lookup map holds exactly symbol and orderId |
| RestApi.ClientIdParams | restapi.go:150-153 | the lookup map holds exactly symbol and origClientOrderId |
| RestApi.OrderKeysAscending | restapi.go:129-133 | the fields of a signed lookup sort as orderId or origClientOrderId, then recvWindow, symbol, timestamp |
| RestApi.LookupQuery | restapi.go:129-133 | the signed query of a lookup whose key sorts before recvWindow lists that key, recvWindow, symbol and timestamp |
| RestApi.OrderIdQuery | restapi.go:129-133 | the signed query by order id is `orderId=…&recvWindow=5000&symbol=…&timestamp=…` |
| RestApi.ClientIdQuery | restapi.go:150-154 | the signed query by client id is `origClientOrderId=…&recvWindow=5000&symbol=…&timestamp=…` |
| RestApi.GetOrderByOrderId | restapi.go:127-146 | a signed GET of `/api/v3/order` for the order-id map; anything but 200 is an API error |
| RestApi.GetOrderByClientId | restapi.go:148-167 | a signed GET of `/api/v3/order` for the client-id map; anything but 200 is an API error |
| RestApi.MyTradesParams | restapi.go:184-192 | symbol always; limit exactly when positive; fromId exactly when above -1, so 0 is sent; each with its value and no other key |
| RestApi.MyTradesUnsigned | restapi.go:194 | the trade-history map has no timestamp, recvWindow or signature |
| RestApi.GetMytrades | restapi.go:182-196 | an unsigned, unchecked GET of `/api/v3/myTrades` for the trade-history map |
| RestApi.NoParamsQuery | restapi.go:217 | a signed call with no parameters queries `recvWindow=5000&timestamp=…` |
| RestApi.GetAccount | restapi.go:216-236 | a signed GET of `/api/v3/account` with no parameters; a status of 400 or above is an API error |
| RestOrders.OrderParams | restorders.go:83-97 | the order map: symbol, side, type, the `%.8f` quantity and the client order id always; price exactly when the type is not MARKET; timeInForce exactly when non-empty |
| RestOrders.EnumerationsDistinct | restorders.go:33-62 | the values of each order enumeration (side, type, time in force, status) are pairwise different texts |
| RestOrders.MarketOrderHasNoPrice | restorders.go:89-93 | price is sent exactly for non-MARKET types, and a market order's map does not depend on its price |
| RestOrders.PostOrder | restorders.go:82-107 | a signed POST of the order map; a transport error gives no response; otherwise the response, plus an API error when the status is 400 or above |
| RestOrders.CancelOrderById | restorders.go:116-140 | a signed DELETE of `/api/v3/order` for symbol and orderId; anything but 200 is an API error |
| Stream.DialError | stream.go:51-57 | no error exactly when the dial succeeded and the status is 101 Switching Protocols |
| Stream.OpenUrl | stream.go:50 | the URL `OpenStream` dials is the stream root, `/` and the stream path, with nothing else |
| Stream.OpenStream | stream.go:49-61 | dials the root and the path; a stream exists exactly when there is no error, and it is fresh and at the zero type |
| CombinedStream.AggTradeStreamName | combinedstream.go:42 | the stream name is the lower-cased symbol followed by `@aggTrade` |
| CombinedStream.CombinedStreamBuilder.constructor | combinedstream.go:37-39 | a new builder has no streams |
| CombinedStream.CombinedStreamBuilder.SubscribeAggTrade | combinedstream.go:41-45 | appends the symbol's stream at the end, keeps the earlier ones, and returns the same builder |
| CombinedStream.Endpoint | combinedstream.go:48 | `stream?streams=` followed by the `/`-joined stream names |
| CombinedStream.EndpointAppend | combinedstream.go:48 | subscribing one more stream extends the endpoint at its end |
| CombinedStream.EndpointRecoversStreams | combinedstream.go:48 | the endpoint is `stream?streams=` and then the names in subscription order, recoverable by splitting at `/` |
| CombinedStream.AggTradeNameHasNoSlash | combinedstream.go:42 | a symbol without `/` gives a stream name without `/` |
| CombinedStream.CombinedStreamBuilder.Connect | combinedstream.go:47-55 | opens the endpoint; on success a fresh stream of type Combined, on failure no stream and the error |
| CombinedStream.Timestamp | combinedstream.go:76-78 | milliseconds times 1,000,000, exact while it fits in int64, and wrapped as Go wraps otherwise |
| CombinedStream.TimestampBound | combinedstream.go:77 | one millisecond past the bound, the nanosecond count wraps to a time before the epoch |
| CombinedStream.Tagged | combinedstream.go:92-94 | the dispatcher's test: `@aggTrade` has an index above -1 in the first 40 bytes |
| CombinedStream.TaggedIff | combinedstream.go:92-94 | a frame is an aggregated trade exactly when `@aggTrade` starts at some position from 0 to 31 |
| CombinedStream.TaggedByPrefix | combinedstream.go:92 | only the first 40 bytes decide the classification |
| CombinedStream.CombinedStreamMessage.constructor | combinedstream.go:85-89 | the zero message: type Combined, no stream name, no trade |
| CombinedStream.CombinedStreamMessage.UnmarshalJSON | combinedstream.go:91-106 | tagged and decoded: type AggTrade with the envelope's stream and data; tagged but not decoded: the decode error with the message unchanged; untagged: "unknown stream type" with the message unchanged |
| CombinedStream.DecodeStreamMessage | combinedstream.go:108-112 | a syntax error gives a zero message; otherwise the error and message are what UnmarshalJSON leaves in a fresh message when given the frame's value without the whitespace around it |
| CombinedStream.ClassifiedWithoutSurroundingSpace | combinedstream.go:91-112 | whitespace before and after a frame does not change how the dispatcher classifies it |
| Json.TrimJsonSpace | combinedstream.go:110 | the value `json.Unmarshal` hands to `UnmarshalJSON` neither starts nor ends with JSON whitespace |
| Json.TrimJsonSpaceIsSlice | combinedstream.go:110 | that value is a contiguous part of the input with only whitespace before and after it |
| Json.TrimAround | combinedstream.go:110 | any whitespace around a value is cut off exactly, giving back the value |
| PartialBookStream.NotAnObject | partialbookstream.go:51 | the decoder's error for a value that cannot fill the map begins `json: cannot unmarshal ` and names the value's kind |
| PartialBookStream.ObjectOf | partialbookstream.go:46-51 | an object fills the map with its fields; null leaves the map nil, which reads as empty |
| PartialBookStream.PartialBookDepth | partialbookstream.go:45-104 | the decoder's outcome on the decoded value: a decode error, a value that is neither an object nor null (null reads as an empty object), or a missing or non-number id gives the zero message and an error; a bad bids or asks field or a level that does not decode gives what was decoded before it and an error; a crashing level panics; otherwise every level and no error |
| PartialBookStream.DecodeLevel | partialbookstream.go:66-79 | a level decodes exactly when it is an array of two or more whose price and volume decode; a failed field gives an error naming the side and the field; a non-array, an empty array, or a one-element array with a good price panics |
| PartialBookStream.DecodeLevels | partialbookstream.go:65-80 | the levels decoded so far came from the entries at the same positions, in order, and decoding stops at the first entry that does not decode |
| PartialBookStream.PrependFirstFailure | partialbookstream.go:65-80 | one decoded entry in front keeps the levels aligned with the entries |
| PartialBookStream.FirstFailureUnique | partialbookstream.go:65-80 | exactly one outcome stops at the first failing entry |
| PartialBookStream.AllDecodedIff | partialbookstream.go:65-80 | every level decodes exactly when no entry is rejected or panics |
| PartialBookStream.DecodeSide | partialbookstream.go:65-80 | the loop gives exactly the outcome that stops at the first entry that does not decode |
| PartialBookStream.DecodePartialBookDepthStream | partialbookstream.go:45-104 | the method's outcome is the decoder specification on the frame's first JSON value |
| PartialBookStream.SuccessShape | partialbookstream.go:55-103 | no error exactly when the value is an object whose id is a number and whose bids and asks are arrays whose entries all decode; then one level per entry, in order |
| PartialBookStream.AsksUnreadAfterBidFailure | partialbookstream.go:61-82 | once a bid fails, the asks do not affect the outcome |
| PartialBookStream.NoPanicOnWellFormedLevels | partialbookstream.go:66-92 | when every level is an array of at least two values, the decoder returns instead of panicking |
| PartialBookStream.PanicOnlyFromLevels | partialbookstream.go:51-101 | a panic comes only from a bid or ask entry; a wrong id, bids or asks gives an error |
| PartialBookStream.IdRoundTrip | partialbookstream.go:55-59 | an id written as a decimal int64 is read back as that int64 |
| PartialBookStream.IdOfObject | partialbookstream.go:55-59 | every message returned for an object holds the id read from its `lastUpdateId` number |
| PartialBookStream.FractionalIdReadsAsZero | partialbookstream.go:59 | the id's conversion error is dropped: a fraction after an integer part within 64 bits, as in `1.5`, gives id 0 and no error |
| PartialBookStream.OverflowingIdClamps | partialbookstream.go:59 | an id whose integer digits exceed the uint64 range reads as the int64 maximum even when a fraction follows |
| PartialBookStream.OneLevelEachSide | partialbookstream.go:45-104 | a frame with one bid and one ask decodes to those two levels and the id |

## Left out

- HMAC-SHA256 and hex encoding are the client's `sign` function. Nothing is
  proved about them.
- The network is out of the model: `http.NewRequest` and
  `http.DefaultClient.Do`.
  - An error from `http.NewRequest` (a malformed URL) is not modelled. The
    model always sends the request.
  - `ioutil.ReadAll` errors are not modelled. `NewRestApiErrorFromResponse`
    keeps the whole body.
- JSON tokenising and the response structs' decoders are parameters. Some
  calls use `UseNumber` (`decodeBody`), some a plain decoder or
  `json.Unmarshal` (the order lookups, `GetAccount`, `CancelOrderById`).
  That difference belongs to the parameter.
- The response struct Go returns beside an error holds any fields decoded
  before the failure. The model's `Result` has no value on failure.
- Floats are out of the model. A price or quantity is a `real`, `%.8f` is
  `fixed8`, and `decodeStringFloat64` is `parse`.
  - `QuoteQuantity` (a float product) is not modelled.
- `getTimeMillis` is not shown in the source. The clock is the `now`
  parameter.
- Order.Less: keys, values, symbols and stream names are Unicode text
  (`seq<char>`), ordered character by character. Go strings are bytes and need not be
  valid UTF-8. On valid UTF-8 the two orders agree; byte strings that are
  not valid UTF-8 are not modelled.
- Text.ToLower: `strings.ToLower` is modelled on ASCII letters only. Unicode case mapping
  is not modelled.
- `CombinedStream.CombinedStreamMessage.UnmarshalJSON`: a frame shorter than
  40 bytes is excluded by its precondition.
  - In Go, `b[0:40]` either panics or reads past the frame, depending on the
    slice's capacity.
- `CombinedStream.DecodeStreamMessage`: a valid frame whose value is shorter
  than 40 bytes, such as `null`, is excluded by its precondition for the
  same reason.
- `json.Unmarshal`'s syntax check is the `syntaxError` parameter, and sees
  the raw frame. Of the rest of `encoding/json` only one rule is modelled
  (`Json.TrimJsonSpace`): the value it passes to `UnmarshalJSON` is the
  frame without the JSON whitespace around it (space, tab, line feed and
  carriage return).
- The stream connection and reading are not modelled: `OpenSingleStream`,
  `Next`, `Close`, `OpenPartialBookDepthStream` and
  `OpenAllMarketTickerStream` (websocket I/O). A `Stream` keeps the URL it
  was dialed at in place of the connection.
- `proxy.go` (HTTP forwarding), `cmd/` (a command-line loop),
  `userstreamtypes.go`, `getexchangeinfo.go` and `streamtypes.go` (struct
  declarations and thin decoding wrappers) are not part of this model.
- The order enumerations are string constants in `RestOrders`. As in Go, a
  field of such a type accepts any text.
