/** combinedstream.go: subscribing to several streams over one websocket,
    and dispatching each frame of the combined stream on the name of the
    stream it came from. The JSON syntax check and the decoder of the
    aggregated-trade envelope are parameters. */
module CombinedStream {
  import opened Common
  import opened Text
  import opened Errors
  import opened Stream
  import opened Json

  /** The suffix naming an aggregated-trade stream, and the text the
      dispatcher looks for. */
  const AggTradeSuffix: string := "@aggTrade"

  /** The prefix of the combined-stream path. */
  const StreamsPrefix: string := "stream?streams="

  /** How many leading bytes of a frame the dispatcher inspects. */
  const PrefixLength: nat := 40

  /** The name of the aggregated-trade stream of a symbol. */
  function AggTradeStreamName(symbol: string): (name: string)
    ensures |name| == |symbol| + |AggTradeSuffix|
    ensures name[..|symbol|] == ToLower(symbol) && name[|symbol|..] == AggTradeSuffix
  {
    ToLower(symbol) + AggTradeSuffix
  }

  /** The path Connect opens: the prefix, then the stream names in
      subscription order with `/` between them. */
  function Endpoint(streams: seq<string>): (e: string)
    ensures |e| >= |StreamsPrefix| && e[..|StreamsPrefix|] == StreamsPrefix
    ensures e[|StreamsPrefix|..] == Join("/", streams)
  {
    StreamsPrefix + Join("/", streams)
  }

  /** Subscribing one more stream extends the endpoint at its end and
      leaves the part before unchanged. */
  lemma EndpointAppend(streams: seq<string>, name: string)
    ensures Endpoint(streams + [name])
            == if streams == [] then StreamsPrefix + name else Endpoint(streams) + "/" + name
  {
    JoinSnoc("/", streams, name);
  }

  /** The endpoint names every subscribed stream, in order: splitting what
      follows the prefix at `/` recovers the names, when none holds a `/`. */
  lemma EndpointRecoversStreams(streams: seq<string>)
    requires |streams| > 0
    requires forall s :: s in streams ==> '/' !in s
    ensures Endpoint(streams)[..|StreamsPrefix|] == StreamsPrefix
    ensures Split('/', Endpoint(streams)[|StreamsPrefix|..]) == streams
  {
    assert Endpoint(streams)[|StreamsPrefix|..] == Join("/", streams);
    assert "/" == ['/'];
    SplitJoin('/', streams);
  }

  /** A symbol without `/` gives a stream name without `/`. */
  lemma AggTradeNameHasNoSlash(symbol: string)
    requires '/' !in symbol
    ensures '/' !in AggTradeStreamName(symbol)
  {
    var name := AggTradeStreamName(symbol);
    forall i | 0 <= i < |name| ensures name[i] != '/' {
      if i < |symbol| {
        assert name[i] == ToLower(symbol)[i];
        assert symbol[i] != '/';
      } else {
        assert name[i] == AggTradeSuffix[i - |symbol|];
      }
    }
  }

  /** CombinedStreamBuilder: the stream names subscribed so far. */
  class CombinedStreamBuilder {
    var streams: seq<string>

    /** NewCombinedStreamBuilder: nothing subscribed. */
    constructor ()
      ensures streams == []
    {
      streams := [];
    }

    /** SubscribeAggTrade: appends the symbol's aggregated-trade stream and
        returns the same builder. */
    method SubscribeAggTrade(symbol: string) returns (b: CombinedStreamBuilder)
      modifies this
      ensures streams == old(streams) + [AggTradeStreamName(symbol)]
      ensures b == this
    {
      var stream := ToLower(symbol) + AggTradeSuffix;
      streams := streams + [stream];
      b := this;
    }

    /** Connect: opens the combined endpoint; on success the stream is
        marked Combined, on failure there is no stream. */
    method Connect(dial: string -> DialResult) returns (s: Stream?, err: Option<Error>)
      ensures err == DialError(dial(OpenUrl(Endpoint(streams))))
      ensures err.None? <==> s != null
      ensures s != null ==> fresh(s) && s.kind == Combined && s.url == OpenUrl(Endpoint(streams))
    {
      var endpoint := StreamsPrefix + Join("/", streams);
      var stream, e := OpenStream(endpoint, dial);
      if e.Some? {
        return null, e;
      }
      stream.kind := Combined;
      s, err := stream, None;
    }
  }

  /** The aggregated-trade record. Prices and quantities are float64 in
      Go, reals here. */
  datatype StreamAggTrade = StreamAggTrade(
    eventType: string,
    eventTimeMillis: int64,
    symbol: string,
    tradeId: int64,
    price: real,
    quantity: real,
    firstTradeId: int64,
    lastTradeId: int64,
    tradeTimeMillis: int64,
    buyerMaker: bool,
    ignored: bool)

  /** The largest millisecond count whose nanosecond count fits in int64. */
  const MaxExactMillis: int := 9_223_372_036_854

  /** Timestamp: the trade time in nanoseconds since the epoch, the int64
      multiplication by 1,000,000 wrapping as in Go. */
  function Timestamp(t: StreamAggTrade): (nanos: int64)
    ensures -MaxExactMillis <= t.tradeTimeMillis as int <= MaxExactMillis ==>
            nanos as int == t.tradeTimeMillis as int * 1_000_000
    ensures (t.tradeTimeMillis as int * 1_000_000 - nanos as int) % 0x1_0000_0000_0000_0000 == 0
  {
    WrapInt64(t.tradeTimeMillis as int * 1_000_000)
  }

  /** The bound is tight: one millisecond more and the product leaves the
      int64 range, so Timestamp wraps to a time before the epoch. */
  lemma TimestampBound(t: StreamAggTrade)
    requires t.tradeTimeMillis as int == MaxExactMillis + 1
    ensures Timestamp(t) as int != t.tradeTimeMillis as int * 1_000_000
    ensures Timestamp(t) < 0
  {
    assert t.tradeTimeMillis as int * 1_000_000 == 9_223_372_036_855_000_000;
  }

  /** The envelope of an aggregated-trade frame: `stream` and `data`. */
  datatype CombinedStreamAggTrade = CombinedStreamAggTrade(stream: string, aggTrade: StreamAggTrade)

  /** The bytes the dispatcher searches for. */
  function AggTradeTag(): (tag: Bytes)
    ensures |tag| == 9
  {
    Ascii(AggTradeSuffix)
  }

  /** A frame is classified as an aggregated trade when the tag occurs in
      its first 40 bytes. */
  predicate Tagged(b: Bytes)
    requires |b| >= PrefixLength
  {
    IndexOf(b[..PrefixLength], AggTradeTag()) > -1
  }

  /** The classification looks at the tag anywhere in the first 40 bytes,
      not at the end of the stream's name: a frame is tagged exactly when
      the 9 tag bytes start at some position up to 31. */
  lemma TaggedIff(b: Bytes)
    requires |b| >= PrefixLength
    ensures Tagged(b) <==> exists i :: 0 <= i <= PrefixLength - 9 && OccursAt(b, AggTradeTag(), i)
  {
    var p := b[..PrefixLength];
    var tag := AggTradeTag();
    if Tagged(b) {
      var i := IndexOf(p, tag);
      assert p[i..i + 9] == b[i..i + 9];
      assert OccursAt(b, tag, i);
    } else {
      forall i | 0 <= i <= PrefixLength - 9 ensures !OccursAt(b, tag, i) {
        assert !OccursAt(p, tag, i);
        assert p[i..i + 9] == b[i..i + 9];
      }
    }
  }

  /** Only the first 40 bytes decide: frames that agree on them are
      classified alike, whatever follows. */
  lemma TaggedByPrefix(b1: Bytes, b2: Bytes)
    requires |b1| >= PrefixLength && |b2| >= PrefixLength
    requires b1[..PrefixLength] == b2[..PrefixLength]
    ensures Tagged(b1) <==> Tagged(b2)
  {
  }

  /** A combined-stream message: which kind it is, the stream it came from
      and, for an aggregated trade, the record. */
  class CombinedStreamMessage {
    var kind: StreamType
    var stream: string
    var aggTrade: Option<StreamAggTrade>

    /** The zero value of the struct. */
    constructor ()
      ensures kind == Combined && stream == "" && aggTrade == None
    {
      kind := Combined;
      stream := "";
      aggTrade := None;
    }

    /** UnmarshalJSON: looks for the tag in the first 40 bytes (a shorter
        frame makes the Go slice panic, so it is excluded here). When the
        tag is there the envelope is decoded and, on success, copied into
        the message; a failed decode or a missing tag leaves the message
        as it was. */
    method UnmarshalJSON(b: Bytes, decodeEnvelope: Bytes -> Result<CombinedStreamAggTrade, string>)
      returns (err: Option<Error>)
      requires |b| >= PrefixLength
      modifies this
      ensures !Tagged(b) ==> err == Some(UnknownStreamType) && unchanged(this)
      ensures Tagged(b) && decodeEnvelope(b).Failure? ==>
              err == Some(Decode(decodeEnvelope(b).error)) && unchanged(this)
      ensures Tagged(b) && decodeEnvelope(b).Success? ==>
              err == None && kind == AggTrade && stream == decodeEnvelope(b).value.stream
              && aggTrade == Some(decodeEnvelope(b).value.aggTrade)
    {
      var prefix := b[0..PrefixLength];
      if IndexOf(prefix, AggTradeTag()) > -1 {
        var message := decodeEnvelope(b);
        if message.Failure? {
          return Some(Decode(message.error));
        }
        kind := AggTrade;
        stream := message.value.stream;
        aggTrade := Some(message.value.aggTrade);
        return None;
      }
      err := Some(UnknownStreamType);
    }
  }

  /** DecodeStreamMessage: json.Unmarshal into a fresh message. Text that
      is not JSON fails the syntax check (`syntaxError`) before the
      message's own decoder runs; otherwise UnmarshalJSON decides, on the
      value without the whitespace around it. */
  method DecodeStreamMessage(b: Bytes, syntaxError: Bytes -> Option<string>,
                             decodeEnvelope: Bytes -> Result<CombinedStreamAggTrade, string>)
    returns (message: CombinedStreamMessage, err: Option<Error>)
    requires syntaxError(b).Some? || |TrimJsonSpace(b)| >= PrefixLength
    ensures fresh(message)
    ensures syntaxError(b).Some? ==>
            err == Some(Decode(syntaxError(b).value)) && message.kind == Combined && message.stream == ""
            && message.aggTrade == None
    ensures syntaxError(b).None? ==>
            var value := TrimJsonSpace(b);
            err == (if !Tagged(value) then Some(UnknownStreamType)
                    else if decodeEnvelope(value).Failure? then Some(Decode(decodeEnvelope(value).error))
                    else None)
    ensures syntaxError(b).None? && (err.Some? || !Tagged(TrimJsonSpace(b))) ==>
            message.kind == Combined && message.stream == "" && message.aggTrade == None
    ensures syntaxError(b).None? && err.None? ==>
            message.kind == AggTrade && message.stream == decodeEnvelope(TrimJsonSpace(b)).value.stream
            && message.aggTrade == Some(decodeEnvelope(TrimJsonSpace(b)).value.aggTrade)
  {
    message := new CombinedStreamMessage();
    var syntax := syntaxError(b);
    if syntax.Some? {
      return message, Some(Decode(syntax.value));
    }
    var value := TrimJsonSpace(b);
    err := message.UnmarshalJSON(value, decodeEnvelope);
  }

  /** Whitespace around a frame does not change how it is classified:
      the dispatcher sees the frame itself. */
  lemma ClassifiedWithoutSurroundingSpace(before: Bytes, frame: Bytes, after: Bytes)
    requires AllJsonSpace(before) && AllJsonSpace(after) && Trimmed(frame)
    requires |frame| >= PrefixLength
    ensures |TrimJsonSpace(before + frame + after)| >= PrefixLength
    ensures Tagged(TrimJsonSpace(before + frame + after)) <==> Tagged(frame)
  {
    TrimAround(before, frame, after);
  }
}
