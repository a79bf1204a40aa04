/** partialbookstream.go: decoding a partial-book-depth frame into its
    update id and its bid and ask levels. The frame is read as a generic
    JSON value (numbers kept as text); turning one element of a level into
    a float is the parameter `parse` (decodeStringFloat64 is not part of
    this model). A type assertion or an index out of range panics in Go;
    here that is the outcome Panicked. */
module PartialBookStream {
  import opened Common
  import opened Text
  import opened Errors
  import opened Json

  /** One level of the book: BidEntry, and AskEntry which has its shape. */
  datatype Level = Level(price: real, volume: real)

  /** PartialBookDepthStreamMessage. */
  datatype Message = Message(lastUpdateId: int64, bids: seq<Level>, asks: seq<Level>)

  /** What the decoder does with a frame: return a message and an error,
      or panic. */
  datatype Outcome = Returned(message: Message, err: Option<Error>) | Panicked

  /** The named result as it starts out: all zero. */
  const ZeroMessage: Message := Message(0, [], [])

  /** The Go side name of each level list, as the error messages print it. */
  const BidSide: string := "bid"
  const AskSide: string := "ask"

  /** What decoding one level gives: the level, an error message, or a
      panic. */
  datatype LevelStep = Decoded(level: Level) | Rejected(message: string) | Crashed

  /** One level: element 0 is the price, element 1 the volume. The entry
      must be an array (or the type assertion panics) with an element 0
      (or the index panics); element 1 is indexed only once the price has
      decoded. */
  function DecodeLevel(side: string, entry: Json, parse: Json -> Result<real, string>): (r: LevelStep)
    ensures r.Decoded? <==>
            entry.JArr? && |entry.items| >= 2 && parse(entry.items[0]).Success? && parse(entry.items[1]).Success?
    ensures r.Decoded? ==> r.level == Level(parse(entry.items[0]).value, parse(entry.items[1]).value)
    ensures r.Crashed? <==>
            !entry.JArr? || |entry.items| == 0 || (|entry.items| == 1 && parse(entry.items[0]).Success?)
    ensures r.Rejected? && parse(entry.items[0]).Failure? ==>
            r.message == "failed to decode " + side + " price: " + parse(entry.items[0]).error
    ensures r.Rejected? && parse(entry.items[0]).Success? ==>
            r.message == "failed to decode " + side + " volume: " + parse(entry.items[1]).error
  {
    if !entry.JArr? || |entry.items| == 0 then Crashed
    else
      var price := parse(entry.items[0]);
      if price.Failure? then Rejected("failed to decode " + side + " price: " + price.error)
      else if |entry.items| < 2 then Crashed
      else
        var volume := parse(entry.items[1]);
        if volume.Failure? then Rejected("failed to decode " + side + " volume: " + volume.error)
        else Decoded(Level(price.value, volume.value))
  }

  /** What decoding a list of levels gives: every level; the levels before
      the first rejected entry and that entry's message; or the levels
      before the entry that panics. */
  datatype LevelsOutcome =
    | AllDecoded(levels: seq<Level>)
    | StoppedAt(levels: seq<Level>, message: string)
    | LevelsCrashed(levels: seq<Level>)

  /** The outcome of decoding the entry in front of the rest. */
  function Prepend(level: Level, rest: LevelsOutcome): LevelsOutcome
  {
    match rest
    case AllDecoded(ls) => AllDecoded([level] + ls)
    case StoppedAt(ls, m) => StoppedAt([level] + ls, m)
    case LevelsCrashed(ls) => LevelsCrashed([level] + ls)
  }

  /** r is what decoding entries in order and stopping at the first entry
      that does not decode gives: its levels decode from the entries at the
      same positions, and it ends where the first failure is. */
  ghost predicate FirstFailure(side: string, entries: seq<Json>, parse: Json -> Result<real, string>,
                               r: LevelsOutcome)
  {
    && |r.levels| <= |entries|
    && (forall i :: 0 <= i < |r.levels| ==> DecodeLevel(side, entries[i], parse) == Decoded(r.levels[i]))
    && (r.AllDecoded? ==> |r.levels| == |entries|)
    && (r.StoppedAt? ==>
          |r.levels| < |entries| && DecodeLevel(side, entries[|r.levels|], parse) == Rejected(r.message))
    && (r.LevelsCrashed? ==>
          |r.levels| < |entries| && DecodeLevel(side, entries[|r.levels|], parse).Crashed?)
  }

  /** The levels of one side, decoded front to back. */
  function DecodeLevels(side: string, entries: seq<Json>, parse: Json -> Result<real, string>): (r: LevelsOutcome)
    ensures FirstFailure(side, entries, parse, r)
    decreases |entries|
  {
    if |entries| == 0 then AllDecoded([])
    else
      match DecodeLevel(side, entries[0], parse)
      case Crashed => LevelsCrashed([])
      case Rejected(m) => StoppedAt([], m)
      case Decoded(level) =>
        var rest := DecodeLevels(side, entries[1..], parse);
        PrependFirstFailure(side, entries, parse, level, rest);
        Prepend(level, rest)
  }

  /** A decoded entry in front of the outcome of the rest: the levels
      still line up with the entries, and the first failure moves one on. */
  lemma PrependFirstFailure(side: string, entries: seq<Json>, parse: Json -> Result<real, string>,
                            level: Level, rest: LevelsOutcome)
    requires |entries| > 0 && DecodeLevel(side, entries[0], parse) == Decoded(level)
    requires FirstFailure(side, entries[1..], parse, rest)
    ensures FirstFailure(side, entries, parse, Prepend(level, rest))
  {
    var r := Prepend(level, rest);
    assert r.levels == [level] + rest.levels;
    forall i | 1 <= i < |r.levels|
      ensures DecodeLevel(side, entries[i], parse) == Decoded(r.levels[i])
    {
      assert r.levels[i] == rest.levels[i - 1] && entries[i] == entries[1..][i - 1];
    }
    assert entries[|r.levels|..] == entries[1..][|rest.levels|..];
  }

  /** FirstFailure determines the outcome: DecodeLevels is the only
      outcome that stops at the first failing entry. */
  lemma FirstFailureUnique(side: string, entries: seq<Json>, parse: Json -> Result<real, string>,
                           r: LevelsOutcome)
    requires FirstFailure(side, entries, parse, r)
    ensures r == DecodeLevels(side, entries, parse)
  {
    var d := DecodeLevels(side, entries, parse);
    assert |r.levels| == |d.levels|;
    assert r.levels == d.levels;
  }

  /** Every level decodes exactly when no entry is rejected or panics. */
  lemma AllDecodedIff(side: string, entries: seq<Json>, parse: Json -> Result<real, string>)
    ensures DecodeLevels(side, entries, parse).AllDecoded? <==>
            forall i :: 0 <= i < |entries| ==> DecodeLevel(side, entries[i], parse).Decoded?
  {
    var d := DecodeLevels(side, entries, parse);
    if !d.AllDecoded? {
      assert !DecodeLevel(side, entries[|d.levels|], parse).Decoded?;
    }
  }

  /** encoding/json's message for a value whose kind cannot fill a map. */
  function NotAnObject(v: Json): (message: string)
    ensures var head := "json: cannot unmarshal ";
            |message| > |head| + |KindName(v)|
            && message[..|head|] == head && message[|head|..|head| + |KindName(v)|] == KindName(v)
  {
    "json: cannot unmarshal " + KindName(v) + " into Go value of type map[string]interface {}"
  }

  /** The map a decoded value fills: null leaves it nil, which reads as
      empty. */
  function ObjectOf(v: Json): (m: map<string, Json>)
    ensures v.JObj? ==> m == v.fields
    ensures v.JNull? ==> m == map[]
  {
    if v.JObj? then v.fields else map[]
  }

  /** The whole decoder, on the first JSON value of the frame (or the
      decoder's error). The update id is any JSON number, read with its
      conversion error dropped; the bids are decoded first, the asks only
      when every bid decoded; the message returned with an error holds all
      that was decoded before it. */
  function PartialBookDepth(payload: Result<Json, string>, parse: Json -> Result<real, string>): (o: Outcome)
  {
    match payload
    case Failure(e) => Returned(ZeroMessage, Some(Decode(e)))
    case Success(v) =>
      if !v.JObj? && !v.JNull? then Returned(ZeroMessage, Some(Decode(NotAnObject(v))))
      else
        var obj := ObjectOf(v);
        if "lastUpdateId" !in obj || !obj["lastUpdateId"].JNum? then
          Returned(ZeroMessage, Some(Decode("invalid datatype for lastUpdateId")))
        else
          var id := ParseInt64(obj["lastUpdateId"].text);
          if "bids" !in obj || !obj["bids"].JArr? then
            Returned(Message(id, [], []), Some(Decode("invalid type for bids")))
          else
            match DecodeLevels(BidSide, obj["bids"].items, parse)
            case LevelsCrashed(_) => Panicked
            case StoppedAt(bids, m) => Returned(Message(id, bids, []), Some(Decode(m)))
            case AllDecoded(bids) =>
              if "asks" !in obj || !obj["asks"].JArr? then
                Returned(Message(id, bids, []), Some(Decode("invalid type for asks")))
              else
                match DecodeLevels(AskSide, obj["asks"].items, parse)
                case LevelsCrashed(_) => Panicked
                case StoppedAt(asks, m) => Returned(Message(id, bids, asks), Some(Decode(m)))
                case AllDecoded(asks) => Returned(Message(id, bids, asks), None)
  }

  /** The loop over one side's entries: appends each decoded level and
      stops at the first entry that does not decode. */
  method DecodeSide(side: string, entries: seq<Json>, parse: Json -> Result<real, string>)
    returns (r: LevelsOutcome)
    ensures r == DecodeLevels(side, entries, parse)
  {
    var levels: seq<Level> := [];
    var i := 0;
    while i < |entries|
      invariant 0 <= i <= |entries|
      invariant |levels| == i
      invariant forall k :: 0 <= k < i ==> DecodeLevel(side, entries[k], parse) == Decoded(levels[k])
    {
      var step := DecodeLevel(side, entries[i], parse);
      if step.Crashed? {
        r := LevelsCrashed(levels);
        FirstFailureUnique(side, entries, parse, r);
        return;
      }
      if step.Rejected? {
        r := StoppedAt(levels, step.message);
        FirstFailureUnique(side, entries, parse, r);
        return;
      }
      levels := levels + [step.level];
      i := i + 1;
    }
    r := AllDecoded(levels);
    FirstFailureUnique(side, entries, parse, r);
  }

  /** DecodePartialBookDepthStream: the decoder gives the first JSON value
      of the payload (or its error); then the id, the bids and the asks
      are read in that order, each failure returning what was decoded so
      far. */
  method DecodePartialBookDepthStream(payload: Bytes, decodeValue: Bytes -> Result<Json, string>,
                                      parse: Json -> Result<real, string>)
    returns (o: Outcome)
    ensures o == PartialBookDepth(decodeValue(payload), parse)
  {
    var message := ZeroMessage;
    var decoded := decodeValue(payload);
    if decoded.Failure? {
      return Returned(message, Some(Decode(decoded.error)));
    }
    var v := decoded.value;
    if !v.JObj? && !v.JNull? {
      return Returned(message, Some(Decode(NotAnObject(v))));
    }
    var obj := if v.JObj? then v.fields else map[];
    if "lastUpdateId" !in obj || !obj["lastUpdateId"].JNum? {
      return Returned(message, Some(Decode("invalid datatype for lastUpdateId")));
    }
    message := message.(lastUpdateId := ParseInt64(obj["lastUpdateId"].text));
    if "bids" !in obj || !obj["bids"].JArr? {
      return Returned(message, Some(Decode("invalid type for bids")));
    }
    var bids := DecodeSide(BidSide, obj["bids"].items, parse);
    if bids.LevelsCrashed? {
      return Panicked;
    }
    message := message.(bids := bids.levels);
    if bids.StoppedAt? {
      return Returned(message, Some(Decode(bids.message)));
    }
    if "asks" !in obj || !obj["asks"].JArr? {
      return Returned(message, Some(Decode("invalid type for asks")));
    }
    var asks := DecodeSide(AskSide, obj["asks"].items, parse);
    if asks.LevelsCrashed? {
      return Panicked;
    }
    message := message.(asks := asks.levels);
    if asks.StoppedAt? {
      return Returned(message, Some(Decode(asks.message)));
    }
    o := Returned(message, None);
  }

  /** A frame decodes without error exactly when it is an obj whose id
      is a number and whose bids and asks are arrays of levels that all
      decode; the message then has one level per entry, in the frame's
      order, each from the entry at its position. */
  lemma SuccessShape(v: Json, parse: Json -> Result<real, string>)
    ensures PartialBookDepth(Success(v), parse).Returned? && PartialBookDepth(Success(v), parse).err.None?
            <==>
            && v.JObj?
            && "lastUpdateId" in v.fields && v.fields["lastUpdateId"].JNum?
            && "bids" in v.fields && v.fields["bids"].JArr?
            && "asks" in v.fields && v.fields["asks"].JArr?
            && (forall i :: 0 <= i < |v.fields["bids"].items| ==>
                  DecodeLevel(BidSide, v.fields["bids"].items[i], parse).Decoded?)
            && (forall i :: 0 <= i < |v.fields["asks"].items| ==>
                  DecodeLevel(AskSide, v.fields["asks"].items[i], parse).Decoded?)
    ensures PartialBookDepth(Success(v), parse).Returned? && PartialBookDepth(Success(v), parse).err.None? ==>
            var m := PartialBookDepth(Success(v), parse).message;
            && m.lastUpdateId == ParseInt64(v.fields["lastUpdateId"].text)
            && |m.bids| == |v.fields["bids"].items| && |m.asks| == |v.fields["asks"].items|
            && (forall i :: 0 <= i < |m.bids| ==> DecodeLevel(BidSide, v.fields["bids"].items[i], parse) == Decoded(m.bids[i]))
            && (forall i :: 0 <= i < |m.asks| ==> DecodeLevel(AskSide, v.fields["asks"].items[i], parse) == Decoded(m.asks[i]))
  {
    var obj := ObjectOf(v);
    if "bids" in obj && obj["bids"].JArr? {
      AllDecodedIff(BidSide, obj["bids"].items, parse);
    }
    if "asks" in obj && obj["asks"].JArr? {
      AllDecodedIff(AskSide, obj["asks"].items, parse);
    }
  }

  /** The asks are not looked at until every bid has decoded: when a bid
      fails, whatever the asks hold, the outcome is the same. */
  lemma AsksUnreadAfterBidFailure(fields: map<string, Json>, asks: Json, parse: Json -> Result<real, string>)
    requires "bids" in fields && fields["bids"].JArr?
    requires !DecodeLevels(BidSide, fields["bids"].items, parse).AllDecoded?
    ensures PartialBookDepth(Success(JObj(fields)), parse)
            == PartialBookDepth(Success(JObj(fields["asks" := asks])), parse)
  {
    var f2 := fields["asks" := asks];
    assert "lastUpdateId" in fields <==> "lastUpdateId" in f2;
    assert "lastUpdateId" in fields ==> fields["lastUpdateId"] == f2["lastUpdateId"];
    assert f2["bids"] == fields["bids"];
  }

  /** Every entry is an array of at least two values. */
  ghost predicate WellFormedLevels(obj: map<string, Json>, key: string)
  {
    key in obj && obj[key].JArr? ==> forall j :: j in obj[key].items ==> j.JArr? && |j.items| >= 2
  }

  /** Entries that are all arrays of at least two values never panic. */
  lemma NoCrashOnWellFormed(side: string, entries: seq<Json>, parse: Json -> Result<real, string>)
    requires forall j :: j in entries ==> j.JArr? && |j.items| >= 2
    ensures !DecodeLevels(side, entries, parse).LevelsCrashed?
  {
  }

  /** A panic needs a level that is not an array of at least two values:
      when every entry of both sides is one, the decoder always returns. */
  lemma NoPanicOnWellFormedLevels(v: Json, parse: Json -> Result<real, string>)
    requires WellFormedLevels(ObjectOf(v), "bids") && WellFormedLevels(ObjectOf(v), "asks")
    ensures PartialBookDepth(Success(v), parse).Returned?
  {
    var obj := ObjectOf(v);
    if "bids" in obj && obj["bids"].JArr? {
      NoCrashOnWellFormed(BidSide, obj["bids"].items, parse);
    }
    if "asks" in obj && obj["asks"].JArr? {
      NoCrashOnWellFormed(AskSide, obj["asks"].items, parse);
    }
  }

  /** A decoder panic always comes from a level: an id, bids or asks of the
      wrong kind give an error, never a panic. */
  lemma PanicOnlyFromLevels(v: Json, parse: Json -> Result<real, string>)
    requires PartialBookDepth(Success(v), parse).Panicked?
    ensures v.JObj? && "bids" in v.fields && v.fields["bids"].JArr?
    ensures (exists i :: 0 <= i < |v.fields["bids"].items| && DecodeLevel(BidSide, v.fields["bids"].items[i], parse).Crashed?)
            || ("asks" in v.fields && v.fields["asks"].JArr? &&
                exists i :: 0 <= i < |v.fields["asks"].items| && DecodeLevel(AskSide, v.fields["asks"].items[i], parse).Crashed?)
  {
    var bids := DecodeLevels(BidSide, v.fields["bids"].items, parse);
    if bids.LevelsCrashed? {
      assert DecodeLevel(BidSide, v.fields["bids"].items[|bids.levels|], parse).Crashed?;
    } else {
      var asks := DecodeLevels(AskSide, v.fields["asks"].items, parse);
      assert DecodeLevel(AskSide, v.fields["asks"].items[|asks.levels|], parse).Crashed?;
    }
  }

  /** The update id round-trips: an id written as a decimal int64 is
      read back as that int64 in every message the decoder returns. */
  lemma IdRoundTrip(fields: map<string, Json>, n: int64, parse: Json -> Result<real, string>)
    requires "lastUpdateId" in fields && fields["lastUpdateId"] == JNum(IntToString(n as int))
    ensures PartialBookDepth(Success(JObj(fields)), parse).Returned? ==>
            PartialBookDepth(Success(JObj(fields)), parse).message.lastUpdateId == n
  {
    IdOfObject(fields, parse);
    ParseInt64OfIntToString(n);
  }

  /** Every message returned for an object holds the id read from its
      lastUpdateId number. */
  lemma IdOfObject(fields: map<string, Json>, parse: Json -> Result<real, string>)
    requires "lastUpdateId" in fields && fields["lastUpdateId"].JNum?
    ensures PartialBookDepth(Success(JObj(fields)), parse).Returned? ==>
            PartialBookDepth(Success(JObj(fields)), parse).message.lastUpdateId == ParseInt64(fields["lastUpdateId"].text)
  {
  }

  /** The conversion error of the id is dropped: a number with a
      fraction whose integer part fits in 64 bits, such as 1.5, gives id 0
      and no error on its account. */
  lemma FractionalIdReadsAsZero(fields: map<string, Json>, parse: Json -> Result<real, string>)
    requires "lastUpdateId" in fields && fields["lastUpdateId"] == JNum("1.5")
    requires "bids" in fields && fields["bids"] == JArr([])
    requires "asks" in fields && fields["asks"] == JArr([])
    ensures PartialBookDepth(Success(JObj(fields)), parse) == Returned(Message(0, [], []), None)
  {
    assert "1.5"[1] == '.';
  }

  /** An id whose integer digits exceed the uint64 range reads as the
      int64 maximum even when a fraction or an exponent follows, as for
      100000000000000000000.5: strconv stops at the overflowing digit. */
  lemma OverflowingIdClamps(fields: map<string, Json>, digits: string, rest: string, parse: Json -> Result<real, string>)
    requires |digits| > 0 && AllDigits(digits) && DigitsValue(digits) > Uint64Max
    requires |rest| > 0 ==> !IsDigit(rest[0])
    requires "lastUpdateId" in fields && fields["lastUpdateId"] == JNum(digits + rest)
    ensures PartialBookDepth(Success(JObj(fields)), parse).Returned? ==>
            PartialBookDepth(Success(JObj(fields)), parse).message.lastUpdateId as int == Int64Max
  {
    IdOfObject(fields, parse);
    OverflowBeforeFraction(digits, rest);
  }

  /** A frame with one bid and one ask, as the stream sends it. */
  lemma OneLevelEachSide(parse: Json -> Result<real, string>)
    requires parse(JStr("0.0024")) == Success(0.0024) && parse(JStr("10")) == Success(10.0)
    requires parse(JStr("0.0026")) == Success(0.0026) && parse(JStr("5")) == Success(5.0)
    ensures PartialBookDepth(Success(JObj(map[
              "lastUpdateId" := JNum("160"),
              "bids" := JArr([JArr([JStr("0.0024"), JStr("10")])]),
              "asks" := JArr([JArr([JStr("0.0026"), JStr("5")])])])), parse)
            == Returned(Message(160, [Level(0.0024, 10.0)], [Level(0.0026, 5.0)]), None)
  {
    var bids := [JArr([JStr("0.0024"), JStr("10")])];
    var asks := [JArr([JStr("0.0026"), JStr("5")])];
    UpdateIdText();
    SingleLevel(BidSide, JStr("0.0024"), JStr("10"), parse);
    SingleLevel(AskSide, JStr("0.0026"), JStr("5"), parse);
    var f := map["lastUpdateId" := JNum("160"), "bids" := JArr(bids), "asks" := JArr(asks)];
    assert f["lastUpdateId"] == JNum("160") && f["bids"] == JArr(bids) && f["asks"] == JArr(asks);
    WholeFrame(f, [Level(0.0024, 10.0)], [Level(0.0026, 5.0)], parse);
  }

  /** A frame whose id, bids and asks are all there and decode. */
  lemma WholeFrame(f: map<string, Json>, bidLevels: seq<Level>, askLevels: seq<Level>,
                   parse: Json -> Result<real, string>)
    requires "lastUpdateId" in f && f["lastUpdateId"].JNum?
    requires "bids" in f && f["bids"].JArr? && DecodeLevels(BidSide, f["bids"].items, parse) == AllDecoded(bidLevels)
    requires "asks" in f && f["asks"].JArr? && DecodeLevels(AskSide, f["asks"].items, parse) == AllDecoded(askLevels)
    ensures PartialBookDepth(Success(JObj(f)), parse)
            == Returned(Message(ParseInt64(f["lastUpdateId"].text), bidLevels, askLevels), None)
  {
  }

  lemma UpdateIdText()
    ensures ParseInt64("160") == 160
  {
    assert IntToString(160) == "160";
    ParseInt64OfIntToString(160);
  }

  /** A side with one entry whose price and volume decode. */
  lemma SingleLevel(side: string, price: Json, volume: Json, parse: Json -> Result<real, string>)
    requires parse(price).Success? && parse(volume).Success?
    ensures DecodeLevels(side, [JArr([price, volume])], parse)
            == AllDecoded([Level(parse(price).value, parse(volume).value)])
  {
    var entries := [JArr([price, volume])];
    assert entries[1..] == [];
  }
}
