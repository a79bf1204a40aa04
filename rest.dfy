/** rest.go: the REST client. It turns a parameter map into the canonical
    query string, composes the request URL for the public, key-only and
    signed tiers, and hands decoded bodies or classified errors back.

    What lies outside the client is a parameter here: the network is a
    function `net` from the request sent to what came back, the clock is
    the `now` argument (epoch milliseconds), and HMAC-SHA256 with hex
    encoding is the client's `sign` function. */
module Rest {
  import opened Common
  import opened Text
  import opened Order
  import opened Errors

  const ApiRoot: string := "https://api.binance.com"

  /** The fixed recvWindow every signed request carries, in milliseconds. */
  const RecvWindow: int := 5000

  /** A parameter value: the strings and integers the endpoints put into
      their map[string]interface{}. */
  datatype Value = Str(s: string) | Int(i: int)

  /** fmt's %v of a parameter value: a string as it is, an integer in
      decimal. Nothing is escaped. */
  function FormatValue(v: Value): (s: string)
    ensures v.Str? ==> s == v.s
    ensures v.Int? ==> s != "" && (s[0] == '-' <==> v.i < 0)
  {
    match v
    case Str(s) => s
    case Int(i) => IntToString(i)
  }

  /** An integer parameter in the int64 range is written as text that
      strconv reads back as the same integer. */
  lemma FormatValueReadsBack(v: Value)
    requires v.Int? && Int64Min <= v.i <= Int64Max
    ensures ParseInt64(FormatValue(v)) as int == v.i
  {
    ParseInt64OfIntToString(v.i as int64);
  }

  /** The `key=value` piece of the query for one key. */
  function Pair(key: string, m: map<string, Value>): (p: string)
    requires key in m
    ensures |p| > |key|
  {
    key + "=" + FormatValue(m[key])
  }

  /** The pieces of the query for the given keys, in their order. */
  function Pairs(keys: seq<string>, m: map<string, Value>): (r: seq<string>)
    requires forall k :: k in keys ==> k in m
    ensures |r| == |keys|
  {
    if |keys| == 0 then []
    else Pairs(keys[..|keys| - 1], m) + [Pair(keys[|keys| - 1], m)]
  }

  /** The piece at each position is the pair of the key at that position. */
  lemma {:induction false} PairsAt(keys: seq<string>, m: map<string, Value>, i: int)
    requires forall k :: k in keys ==> k in m
    requires 0 <= i < |keys|
    ensures Pairs(keys, m)[i] == Pair(keys[i], m)
  {
    var n := |keys| - 1;
    assert Pairs(keys, m) == Pairs(keys[..n], m) + [Pair(keys[n], m)];
    if i < n {
      assert keys[..n][i] == keys[i];
      PairsAt(keys[..n], m, i);
    }
  }

  /** One more key of a listing adds its pair to the joined pieces, after
      an `&` unless it is the first. */
  lemma PairsPrefixStep(keys: seq<string>, m: map<string, Value>, i: int)
    requires forall k :: k in keys ==> k in m
    requires 0 <= i < |keys|
    ensures Join("&", Pairs(keys[..i + 1], m))
            == if i == 0 then Pair(keys[i], m) else Join("&", Pairs(keys[..i], m)) + "&" + Pair(keys[i], m)
  {
    assert keys[..i + 1][..i] == keys[..i];
    JoinSnoc("&", Pairs(keys[..i], m), Pair(keys[i], m));
  }

  /** The canonical query string of a parameter map: `key=value` for each
      key in ascending order, separated by `&`. Both the URL and the
      signature are computed from it. */
  ghost function CanonicalQuery(m: map<string, Value>): string
  {
    Join("&", Pairs(SortedKeys(m.Keys), m))
  }

  /** Any strictly ascending listing of the map's keys yields the
      canonical query: the query depends on the map's contents only, not
      on the order in which its keys were inserted or are visited. */
  lemma CanonicalQueryOfSorted(m: map<string, Value>, keys: seq<string>)
    requires StrictlySorted(keys) && Elems(keys) == m.Keys
    ensures forall k :: k in keys ==> k in m
    ensures CanonicalQuery(m) == Join("&", Pairs(keys, m))
  {
    StrictlySortedUnique(keys, SortedKeys(m.Keys));
  }

  /** The canonical query names every key of the map once, in ascending
      order, each with its own value. */
  lemma CanonicalQueryLayout(m: map<string, Value>)
    ensures exists keys :: StrictlySorted(keys) && Elems(keys) == m.Keys && |keys| == |m|
                           && (forall k :: k in keys ==> k in m)
                           && CanonicalQuery(m) == Join("&", Pairs(keys, m))
  {
    var keys := SortedKeys(m.Keys);
    assert StrictlySorted(keys) && Elems(keys) == m.Keys && |keys| == |m|;
    assert forall k :: k in keys ==> k in Elems(keys);
  }

  /** The query is empty exactly when the map is. */
  lemma CanonicalQueryEmpty(m: map<string, Value>)
    ensures CanonicalQuery(m) == "" <==> m == map[]
  {
    var keys := SortedKeys(m.Keys);
    if m != map[] {
      assert |m.Keys| > 0 by {
        var k :| k in m;
        assert k in m.Keys;
      }
      assert keys[0] in Elems(keys);
      PairsAt(keys, m, 0);
      JoinNonEmpty("&", Pairs(keys, m));
    }
  }

  /** A one-key map gives `key=value`. */
  lemma CanonicalQuerySingleton(key: string, v: Value)
    ensures CanonicalQuery(map[key := v]) == key + "=" + FormatValue(v)
  {
    var m := map[key := v];
    assert Elems([key]) == m.Keys;
    CanonicalQueryOfSorted(m, [key]);
    assert Pairs([key], m) == [Pair(key, m)];
  }

  /** The pieces for the same keys of two maps that agree on them are
      the same. */
  lemma {:induction false} PairsAgree(keys: seq<string>, m: map<string, Value>, m': map<string, Value>)
    requires forall k :: k in keys ==> k in m && k in m' && m[k] == m'[k]
    ensures Pairs(keys, m) == Pairs(keys, m')
  {
    if |keys| > 0 {
      PairsAgree(keys[..|keys| - 1], m, m');
    }
  }

  /** Adding a key that sorts after every key already present appends its
      `key=value` to the query, after an `&` unless the map was empty. */
  lemma CanonicalQueryAppend(m: map<string, Value>, k: string, v: Value)
    requires forall j :: j in m ==> Less(j, k)
    ensures CanonicalQuery(m[k := v])
            == if m == map[] then k + "=" + FormatValue(v) else CanonicalQuery(m) + "&" + (k + "=" + FormatValue(v))
  {
    var pieces := Pairs(SortedKeys(m.Keys), m);
    var last := k + "=" + FormatValue(v);
    AppendedPieces(m, k, v);
    JoinSnoc("&", pieces, last);
    assert pieces == [] <==> m == map[] by {
      ListingAppend(m.Keys, k);
      if m != map[] {
        var j :| j in m;
        assert j in m.Keys;
      }
    }
  }

  /** The pieces of the query of a map with a key added above all others:
      the pieces of the map, then the new key's pair. */
  lemma AppendedPieces(m: map<string, Value>, k: string, v: Value)
    requires forall j :: j in m ==> Less(j, k)
    ensures CanonicalQuery(m[k := v]) == Join("&", Pairs(SortedKeys(m.Keys), m) + [k + "=" + FormatValue(v)])
  {
    var before := SortedKeys(m.Keys);
    AppendedListing(m, k, v);
    forall j | j in before ensures j in m && j != k {
      assert j in Elems(before);
      LessIrreflexive(k);
    }
    PairsSnoc(before, m, k, v);
  }

  /** The pieces for a listing with a new key at its end: the pieces of
      the listing, then the new key's pair. */
  lemma PairsSnoc(keys: seq<string>, m: map<string, Value>, k: string, v: Value)
    requires forall j :: j in keys ==> j in m && j != k
    ensures forall j :: j in keys + [k] ==> j in m[k := v]
    ensures Pairs(keys + [k], m[k := v]) == Pairs(keys, m) + [k + "=" + FormatValue(v)]
  {
    var m' := m[k := v];
    assert (keys + [k])[..|keys|] == keys;
    assert Pairs(keys + [k], m') == Pairs(keys, m') + [Pair(k, m')];
    PairsAgree(keys, m, m');
  }

  /** The ascending listing of the map's keys, then the new key, lists the
      keys of the extended map, so its pieces make the extended query. */
  lemma AppendedListing(m: map<string, Value>, k: string, v: Value)
    requires forall j :: j in m ==> Less(j, k)
    ensures forall j :: j in SortedKeys(m.Keys) + [k] ==> j in m[k := v]
    ensures CanonicalQuery(m[k := v]) == Join("&", Pairs(SortedKeys(m.Keys) + [k], m[k := v]))
  {
    var keys := SortedKeys(m.Keys) + [k];
    ListingAppend(m.Keys, k);
    assert Elems(keys) == m[k := v].Keys;
    CanonicalQueryOfSorted(m[k := v], keys);
  }

  /** The ascending listing of a set followed by a key above all of them
      is an ascending listing of the set with that key. */
  lemma ListingAppend(s: set<string>, k: string)
    requires forall j :: j in s ==> Less(j, k)
    ensures k !in s
    ensures StrictlySorted(SortedKeys(s) + [k])
    ensures Elems(SortedKeys(s) + [k]) == s + {k}
    ensures SortedKeys(s) == [] <==> s == {}
  {
    var before := SortedKeys(s);
    var keys := before + [k];
    LessIrreflexive(k);
    forall i, j | 0 <= i < j < |keys| ensures Less(keys[i], keys[j]) {
      assert keys[i] == before[i] && keys[i] in Elems(before);
      if j < |before| {
        assert keys[j] == before[j];
      }
    }
    forall x ensures x in Elems(keys) <==> x in s + {k} {
      assert x in keys <==> x in before || x == k;
      assert x in before <==> x in Elems(before);
    }
  }

  /** The canonical query of a two-key map. */
  lemma TwoKeyQuery(k1: string, v1: Value, k2: string, v2: Value)
    requires Less(k1, k2)
    ensures CanonicalQuery(map[k1 := v1, k2 := v2]) == k1 + "=" + FormatValue(v1) + "&" + (k2 + "=" + FormatValue(v2))
  {
    CanonicalQuerySingleton(k1, v1);
    CanonicalQueryAppend(map[k1 := v1], k2, v2);
  }

  /** Values are not URL-escaped, so different maps can give the same
      query, and so the same signed bytes: a value that itself holds `&`
      and `=` reads as a second field. */
  lemma QueryIsNotEscaped(k1: string, v1: string, k2: string, v2: string)
    requires Less(k1, k2)
    ensures var one := map[k1 := Str(v1 + "&" + k2 + "=" + v2)];
            var two := map[k1 := Str(v1), k2 := Str(v2)];
            one != two && CanonicalQuery(one) == CanonicalQuery(two)
  {
    var one := map[k1 := Str(v1 + "&" + k2 + "=" + v2)];
    var two := map[k1 := Str(v1), k2 := Str(v2)];
    LessAsymmetric(k1, k2);
    assert k2 in two && k2 !in one;
    CanonicalQuerySingleton(k1, Str(v1 + "&" + k2 + "=" + v2));
    TwoKeyQuery(k1, Str(v1), k2, Str(v2));
    FieldInValue(k1, v1, k2, v2);
  }

  /** Text regrouping for QueryIsNotEscaped: it only re-associates
      concatenations, helps the solver and states nothing about the
      client. */
  lemma FieldInValue(k1: string, v1: string, k2: string, v2: string)
    ensures k1 + "=" + (v1 + "&" + k2 + "=" + v2) == k1 + "=" + v1 + "&" + (k2 + "=" + v2)
  {
    var a, b, c := k1 + "=", v1 + "&", k2 + "=" + v2;
    assert a + (b + c) == (a + v1) + "&" + c;
  }

  /** The map after a signed call has added its two fields: what the
      caller gave, with recvWindow and timestamp set (replacing any values
      the caller had for them). */
  function WithAuthParams(m: map<string, Value>, now: int): (r: map<string, Value>)
    ensures r.Keys == m.Keys + {"recvWindow", "timestamp"}
    ensures r["recvWindow"] == Int(RecvWindow) && r["timestamp"] == Int(now)
    ensures forall k :: k in m && k != "recvWindow" && k != "timestamp" ==> r[k] == m[k]
  {
    m["recvWindow" := Int(RecvWindow)]["timestamp" := Int(now)]
  }

  /** The text of the fixed recvWindow. */
  lemma RecvWindowText()
    ensures FormatValue(Int(RecvWindow)) == "5000"
  {
    assert NatToString(5) == "5";
    assert NatToString(50) == NatToString(5) + "0";
    assert NatToString(500) == NatToString(50) + "0";
  }

  /** The URL of an unsigned call: the root and the endpoint, then `?` and
      the query only when the query is not empty. */
  function UnsignedUrl(endpoint: string, query: string): (url: string)
    ensures |url| >= |ApiRoot + endpoint| && url[..|ApiRoot + endpoint|] == ApiRoot + endpoint
    ensures query == "" <==> url == ApiRoot + endpoint
    ensures query != "" ==> url[|ApiRoot + endpoint|..] == "?" + query
  {
    if query == "" then ApiRoot + endpoint else ApiRoot + endpoint + "?" + query
  }

  /** The URL of a signed call: the unsigned URL, then `&signature=` and
      the signature as the last field. */
  function SignedUrl(endpoint: string, query: string, signature: string): (url: string)
    ensures var unsigned := UnsignedUrl(endpoint, query);
            |url| > |unsigned| && url[..|unsigned|] == unsigned && url[|unsigned|..] == "&signature=" + signature
  {
    var unsigned := UnsignedUrl(endpoint, query);
    var url := unsigned + "&signature=" + signature;
    assert url[..|unsigned|] == unsigned && url[|unsigned|..] == "&signature=" + signature;
    url
  }

  /** An unsigned URL carries `?` and the query exactly when there are
      parameters. */
  lemma UnsignedUrlLayout(endpoint: string, m: map<string, Value>)
    ensures m == map[] <==> UnsignedUrl(endpoint, CanonicalQuery(m)) == ApiRoot + endpoint
    ensures m != map[] ==> UnsignedUrl(endpoint, CanonicalQuery(m)) == ApiRoot + endpoint + "?" + CanonicalQuery(m)
  {
    CanonicalQueryEmpty(m);
    if m != map[] {
      assert |UnsignedUrl(endpoint, CanonicalQuery(m))| > |ApiRoot + endpoint|;
    }
  }

  /** A signed URL is the root, the endpoint, `?`, the query built from the
      caller's map with recvWindow and timestamp added, and `&signature=`
      followed by the signature; the query both fields sit in is never
      empty, and the signature is not part of it. */
  lemma SignedUrlLayout(endpoint: string, m: map<string, Value>, now: int, signature: string)
    ensures var a := WithAuthParams(m, now);
            && CanonicalQuery(a) != ""
            && "recvWindow" in SortedKeys(a.Keys) && "timestamp" in SortedKeys(a.Keys)
            && SignedUrl(endpoint, CanonicalQuery(a), signature)
               == ApiRoot + endpoint + "?" + CanonicalQuery(a) + "&signature=" + signature
  {
    var a := WithAuthParams(m, now);
    CanonicalQueryEmpty(a);
    assert "recvWindow" in a;
    assert "recvWindow" in Elems(SortedKeys(a.Keys)) && "timestamp" in Elems(SortedKeys(a.Keys));
  }

  datatype Verb = GET | POST | PUT | DELETE

  /** The request handed to the HTTP client: its method, its URL and the
      value of its X-MBX-APIKEY header, when it has one. */
  datatype Request = Request(verb: Verb, url: string, apiKey: Option<string>)

  datatype Response = Response(statusCode: int, body: Bytes)

  /** What http.DefaultClient.Do gives back: a transport error or a response. */
  datatype HttpResult = TransportFailure(cause: string) | Received(response: Response)

  /** The request of an unsigned GET for the map m. */
  ghost function PublicRequest(endpoint: string, m: map<string, Value>): (r: Request)
    ensures r.verb == GET && r.apiKey.None?
    ensures m == map[] <==> r.url == ApiRoot + endpoint
    ensures m != map[] ==> r.url == ApiRoot + endpoint + "?" + CanonicalQuery(m)
  {
    UnsignedUrlLayout(endpoint, m);
    Request(GET, UnsignedUrl(endpoint, CanonicalQuery(m)), None)
  }

  /** NewRestApiErrorFromResponse: keeps the status code and the whole body. */
  function NewRestApiErrorFromResponse(r: Response): (e: RestApiError)
    ensures e.statusCode == r.statusCode && e.body == r.body
    ensures e.Error() == r.body
  {
    RestApiError(r.statusCode, r.body)
  }

  /** decodeBody: the JSON decoder's result on the body, its error passed through. */
  function DecodeBody<R>(body: Bytes, decode: Bytes -> Result<R, string>): (r: Result<R, Error>)
    ensures r.Success? <==> decode(body).Success?
    ensures r.Success? ==> r.value == decode(body).value
    ensures r.Failure? ==> r.error == Decode(decode(body).error)
  {
    match decode(body)
    case Success(v) => Success(v)
    case Failure(msg) => Failure(Decode(msg))
  }

  /** The outcome of GetAndDecode and AuthGetAndDecode for what the network
      gave back: a transport error, else the decoded body; the status code
      is not looked at. */
  function DecodeResponse<R>(h: HttpResult, decode: Bytes -> Result<R, string>): (r: Result<R, Error>)
    ensures r.Failure? && r.error.Transport? <==> h.TransportFailure?
    ensures h.TransportFailure? ==> r == Failure(Transport(h.cause))
    ensures h.Received? ==> (r.Success? <==> decode(h.response.body).Success?)
    ensures !(r.Failure? && r.error.Api?)
  {
    match h
    case TransportFailure(cause) => Failure(Transport(cause))
    case Received(resp) => DecodeBody(resp.body, decode)
  }

  /** GetAndDecode never classifies by status: two responses with the same
      body, whatever their status codes, decode to the same outcome, and a
      body that decodes is a success even on status 500. */
  lemma DecodeResponseIgnoresStatus<R>(a: Response, b: Response, decode: Bytes -> Result<R, string>)
    requires a.body == b.body
    ensures DecodeResponse(Received(a), decode) == DecodeResponse(Received(b), decode)
    ensures decode(a.body).Success? <==> DecodeResponse(Received(a), decode).Success?
  {
  }

  /** A Go map[string]interface{} of parameters, passed by reference: the
      signed calls add their fields to the caller's own map. */
  class Params {
    var entries: map<string, Value>

    constructor (entries: map<string, Value>)
      ensures this.entries == entries
    {
      this.entries := entries;
    }

    /** params[key] = value */
    method Set(key: string, value: Value)
      modifies this
      ensures entries == old(entries)[key := value]
    {
      entries := entries[key := value];
    }
  }

  /** The entries of a parameter map; a nil map has none. */
  function EntriesOf(p: Params?): (m: map<string, Value>)
    reads p
    ensures p == null ==> m == map[]
    ensures p != null ==> m == p.entries
  {
    if p == null then map[] else p.entries
  }

  class RestClient {
    var apiKey: string
    var apiSecret: string

    /** hex(HMAC-SHA256(secret, message)), as crypto/hmac, crypto/sha256 and
        encoding/hex compute it from the secret and the message. */
    const sign: (string, string) -> string

    /** NewRestClient: a client with no credentials. */
    constructor (sign: (string, string) -> string)
      ensures apiKey == "" && apiSecret == "" && this.sign == sign
    {
      apiKey := "";
      apiSecret := "";
      this.sign := sign;
    }

    /** WithAuth: sets both credentials and returns the same client. */
    method WithAuth(key: string, secret: string) returns (c: RestClient)
      modifies this
      ensures apiKey == key && apiSecret == secret && c == this
    {
      apiKey := key;
      apiSecret := secret;
      c := this;
    }

    /** The request a signed call sends for the caller's map m: the map with
        recvWindow and timestamp added, its canonical query signed with the
        secret, and the API key attached. */
    ghost function SignedRequest(verb: Verb, endpoint: string, m: map<string, Value>, now: int): (r: Request)
      reads this
      ensures r.verb == verb && r.apiKey == Some(apiKey)
      ensures var q := CanonicalQuery(WithAuthParams(m, now));
              r.url == ApiRoot + endpoint + "?" + q + "&signature=" + sign(apiSecret, q)
    {
      var q := CanonicalQuery(WithAuthParams(m, now));
      SignedUrlLayout(endpoint, m, now, sign(apiSecret, q));
      Request(verb, SignedUrl(endpoint, q, sign(apiSecret, q)), Some(apiKey))
    }

    /** BuildQueryString: collects the keys in the map's iteration order,
        sorts them, and appends `key=value` for each, with `&` between. */
    method BuildQueryString(params: map<string, Value>) returns (q: string)
      ensures q == CanonicalQuery(params)
    {
      var keys := CollectKeys(params);
      var sorted := Sort(keys);
      assert Elems(sorted) == params.Keys by {
        forall k ensures k in Elems(sorted) <==> k in params.Keys {
          assert k in sorted <==> k in multiset(sorted);
          assert k in keys <==> k in multiset(keys);
        }
      }
      SortDistinctIsStrict(keys, sorted);
      CanonicalQueryOfSorted(params, sorted);
      q := JoinPairs(sorted, params);
    }

    /** The first loop of BuildQueryString: every key of the map once, in
        whatever order the map is visited. */
    method CollectKeys(params: map<string, Value>) returns (keys: seq<string>)
      ensures Distinct(keys)
      ensures forall k :: k in keys <==> k in params.Keys
    {
      keys := [];
      var unseen := params.Keys;
      while unseen != {}
        invariant unseen <= params.Keys
        invariant Distinct(keys)
        invariant forall k :: k in keys <==> k in params.Keys && k !in unseen
        decreases |unseen|
      {
        var k :| k in unseen;
        keys := keys + [k];
        unseen := unseen - {k};
      }
    }

    /** The second loop of BuildQueryString: `key=value` for each key in
        turn, with `&` before every piece but the first. */
    method JoinPairs(keys: seq<string>, params: map<string, Value>) returns (q: string)
      requires forall k :: k in keys ==> k in params
      ensures q == Join("&", Pairs(keys, params))
    {
      q := "";
      var i := 0;
      while i < |keys|
        invariant 0 <= i <= |keys|
        invariant q == Join("&", Pairs(keys[..i], params))
        invariant q == "" <==> i == 0
      {
        PairsPrefixStep(keys, params, i);
        var piece := keys[i] + "=" + FormatValue(params[keys[i]]);
        assert piece == Pair(keys[i], params);
        if q != "" {
          q := q + "&";
        }
        q := q + piece;
        i := i + 1;
      }
      assert keys[..i] == keys;
    }

    /** Get: an unsigned GET. A nil map counts as empty, and the query is
        appended only when it is not empty. No API key is attached. */
    method Get(endpoint: string, params: Params?, net: Request -> HttpResult) returns (r: HttpResult)
      ensures r == net(PublicRequest(endpoint, EntriesOf(params)))
    {
      var url := ApiRoot + endpoint;
      var m := if params == null then map[] else params.entries;
      var queryString := BuildQueryString(m);
      if queryString != "" {
        url := url + "?" + queryString;
      }
      r := net(Request(GET, url, None));
    }

    /** The common body of GetWithAuth, Post and Delete: recvWindow and
        timestamp go into the caller's map (a nil map is replaced by a
        fresh one), the query is built from the result and signed, and
        `&signature=` goes after it. */
    method SendSigned(verb: Verb, endpoint: string, params: Params?, now: int, net: Request -> HttpResult)
      returns (r: HttpResult)
      modifies params
      ensures params != null ==> params.entries == WithAuthParams(old(params.entries), now)
      ensures r == net(SignedRequest(verb, endpoint, old(EntriesOf(params)), now))
    {
      var url := ApiRoot + endpoint;
      var m := if params == null then map[] else params.entries;
      m := m["recvWindow" := Int(RecvWindow)];
      m := m["timestamp" := Int(now)];
      if params != null {
        params.entries := m;
      }
      var queryString := BuildQueryString(m);
      if queryString != "" {
        url := url + "?" + queryString;
      }
      assert url == UnsignedUrl(endpoint, queryString);
      var signature := sign(apiSecret, queryString);
      url := url + "&signature=" + signature;
      assert url == SignedUrl(endpoint, queryString, signature);
      r := net(Request(verb, url, Some(apiKey)));
    }

    method GetWithAuth(endpoint: string, params: Params?, now: int, net: Request -> HttpResult)
      returns (r: HttpResult)
      modifies params
      ensures params != null ==> params.entries == WithAuthParams(old(params.entries), now)
      ensures r == net(SignedRequest(GET, endpoint, old(EntriesOf(params)), now))
    {
      r := SendSigned(GET, endpoint, params, now, net);
    }

    method Post(endpoint: string, params: Params?, now: int, net: Request -> HttpResult)
      returns (r: HttpResult)
      modifies params
      ensures params != null ==> params.entries == WithAuthParams(old(params.entries), now)
      ensures r == net(SignedRequest(POST, endpoint, old(EntriesOf(params)), now))
    {
      r := SendSigned(POST, endpoint, params, now, net);
    }

    method Delete(endpoint: string, params: Params?, now: int, net: Request -> HttpResult)
      returns (r: HttpResult)
      modifies params
      ensures params != null ==> params.entries == WithAuthParams(old(params.entries), now)
      ensures r == net(SignedRequest(DELETE, endpoint, old(EntriesOf(params)), now))
    {
      r := SendSigned(DELETE, endpoint, params, now, net);
    }

    /** PostWithApiKey: an unsigned POST that carries the API key only when
        the client has a non-empty one. */
    method PostWithApiKey(endpoint: string, params: Params?, net: Request -> HttpResult) returns (r: HttpResult)
      ensures r == net(Request(POST, UnsignedUrl(endpoint, CanonicalQuery(EntriesOf(params))),
                               if apiKey != "" then Some(apiKey) else None))
    {
      var url := ApiRoot + endpoint;
      var m := if params == null then map[] else params.entries;
      var queryString := BuildQueryString(m);
      if queryString != "" {
        url := url + "?" + queryString;
      }
      var header := None;
      if apiKey != "" {
        header := Some(apiKey);
      }
      r := net(Request(POST, url, header));
    }

    /** PutWithApiKey: a PUT of the root and the path as given, always with
        the API key. */
    method PutWithApiKey(path: string, net: Request -> HttpResult) returns (r: HttpResult)
      ensures r == net(Request(PUT, ApiRoot + path, Some(apiKey)))
    {
      var url := ApiRoot + path;
      r := net(Request(PUT, url, Some(apiKey)));
    }

    /** GetAndDecode: an unsigned GET whose body is decoded whatever the
        status code. */
    method GetAndDecode<R>(endpoint: string, params: Params?, decode: Bytes -> Result<R, string>,
                           net: Request -> HttpResult) returns (r: Result<R, Error>)
      ensures r == DecodeResponse(net(PublicRequest(endpoint, EntriesOf(params))), decode)
    {
      var httpResponse := Get(endpoint, params, net);
      if httpResponse.TransportFailure? {
        return Failure(Transport(httpResponse.cause));
      }
      r := DecodeBody(httpResponse.response.body, decode);
    }

    /** AuthGetAndDecode: despite its name the same as GetAndDecode, an
        unsigned GET with no API key, no signature and no status check. */
    method AuthGetAndDecode<R>(endpoint: string, params: Params?, decode: Bytes -> Result<R, string>,
                               net: Request -> HttpResult) returns (r: Result<R, Error>)
      ensures r == DecodeResponse(net(PublicRequest(endpoint, EntriesOf(params))), decode)
    {
      var httpResponse := Get(endpoint, params, net);
      if httpResponse.TransportFailure? {
        return Failure(Transport(httpResponse.cause));
      }
      r := DecodeBody(httpResponse.response.body, decode);
    }
  }
}
