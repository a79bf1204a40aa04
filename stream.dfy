/** stream.go, the part the combined stream relies on: the stream kinds,
    the websocket root and opening a stream. The websocket dialer is the
    parameter `dial`: the URL dialed, to a failure or the handshake's
    status. */
module Stream {
  import opened Common
  import opened Errors

  /** StreamType, in the order of its Go constants 0 to 3; a Go zero
      value is Combined. */
  datatype StreamType = Combined | AggTrade | PartialBook | AllMarketTicker

  const StreamUrl: string := "wss://stream.binance.com:9443"

  /** The status code of a successful websocket upgrade. */
  const SwitchingProtocols: int := 101

  /** What websocket.DefaultDialer.Dial gives back. */
  datatype DialResult = DialFailed(cause: string) | Dialed(statusCode: int, status: string)

  /** An open stream: its kind, and the URL its connection was dialed at
      in place of the connection itself. */
  class Stream {
    var kind: StreamType
    const url: string

    /** A stream as OpenStream creates it: its Type left at the zero value. */
    constructor (url: string)
      ensures kind == Combined && this.url == url
    {
      kind := Combined;
      this.url := url;
    }
  }

  /** The URL OpenStream dials for a stream path. */
  function OpenUrl(stream: string): (url: string)
    ensures |url| == |StreamUrl| + 1 + |stream|
    ensures url[..|StreamUrl| + 1] == StreamUrl + "/" && url[|StreamUrl| + 1..] == stream
  {
    StreamUrl + "/" + stream
  }

  /** The error of a dial that did not give an upgraded connection, or
      None when it did. */
  function DialError(d: DialResult): (err: Option<Error>)
    ensures err.None? <==> d.Dialed? && d.statusCode == SwitchingProtocols
  {
    match d
    case DialFailed(cause) => Some(Transport(cause))
    case Dialed(code, status) =>
      if code != SwitchingProtocols then Some(Transport("failed to upgrade to websocket: " + status)) else None
  }

  /** OpenStream: dials the root and the path; a dial error, or a handshake
      that did not switch protocols, gives no stream. */
  method OpenStream(stream: string, dial: string -> DialResult) returns (s: Stream?, err: Option<Error>)
    ensures err == DialError(dial(OpenUrl(stream)))
    ensures err.None? <==> s != null
    ensures s != null ==> fresh(s) && s.kind == Combined && s.url == OpenUrl(stream)
  {
    var url := StreamUrl + "/" + stream;
    var response := dial(url);
    if response.DialFailed? {
      return null, Some(Transport(response.cause));
    }
    if response.statusCode != SwitchingProtocols {
      return null, Some(Transport("failed to upgrade to websocket: " + response.status));
    }
    s := new Stream(url);
    err := None;
  }
}
