/** The position client: for each endpoint, the request it sends (normalised
    arguments, fixed path, GET) and how it turns the transport's reply into a
    response envelope holding freshly built records. */
module Client {
  import opened Wrappers
  import opened Json
  import opened PyText
  import opened Models
  import opened Normalizer

  /** What the client hands to the transport: the HTTP method, the endpoint
      path and the query parameters. */
  datatype Request = Request(verb: string, path: string, params: map<string, string>)

  const ALL_POSITIONS_PATH: string := "/api/v2/mix/position/all-position"
  const SINGLE_POSITION_PATH: string := "/api/v2/mix/position/single-position"
  const HISTORY_POSITION_PATH: string := "/api/v2/mix/position/history-position"
  const POSITION_TIER_PATH: string := "/api/v2/mix/market/query-position-lever"

  /** The product type `get_historical_position` uses when the caller gives none. */
  const DEFAULT_HISTORY_PRODUCT_TYPE: string := "USDT-FUTURES"

  /** Python truthiness of an optional string: None and '' are false. */
  predicate Present(s: Option<string>)
    ensures Present(s) ==> s.Some? && |s.value| > 0
    ensures s.Some? && |s.value| > 0 ==> Present(s)
  {
    s.Some? && s.value != ""
  }

  // ---------------------------------------------------------------------------
  // Parameter maps of the four endpoints, worked out once for any values

  lemma AllPositionsParams(pt: string, coin: Option<Arg>)
    ensures var m := BuildParams([("productType", Some(StrArg(pt))), ("marginCoin", coin)]);
            && m.Keys == {"productType"} + (if coin.Some? then {"marginCoin"} else {})
            && m["productType"] == pt
            && (coin.Some? ==> m["marginCoin"] == Str(coin.value))
  {
    var a0, a1 := ("productType", Some(StrArg(pt))), ("marginCoin", coin);
    assert [a0, a1] == [] + [a0] + [a1];
    BuildParamsSnoc([], a0);
    BuildParamsSnoc([a0], a1);
  }

  lemma SinglePositionParams(sym: string, pt: string, coin: string)
    ensures var m := BuildParams([("symbol", Some(StrArg(sym))), ("productType", Some(StrArg(pt))), ("marginCoin", Some(StrArg(coin)))]);
            && m.Keys == {"symbol", "productType", "marginCoin"}
            && m["symbol"] == sym && m["productType"] == pt && m["marginCoin"] == coin
  {
    var a0, a1, a2 := ("symbol", Some(StrArg(sym))), ("productType", Some(StrArg(pt))), ("marginCoin", Some(StrArg(coin)));
    assert [a0, a1, a2] == [a0, a1] + [a2];
    assert [a0, a1] == [a0] + [a1];
    assert [a0] == [] + [a0];
    BuildParamsSnoc([], a0);
    BuildParamsSnoc([a0], a1);
    BuildParamsSnoc([a0, a1], a2);
    var m0: map<string, string> := map[];
    PutFacts(m0, a0);
    PutFacts(Put(m0, a0), a1);
    PutFacts(Put(Put(m0, a0), a1), a2);
  }

  lemma HistoricalHeadParams(pt: string, sym: Option<Arg>, cursor: Option<Arg>)
    ensures var m := BuildParams([("productType", Some(StrArg(pt))), ("symbol", sym), ("idLessThan", cursor)]);
            && m.Keys <= {"productType", "symbol", "idLessThan"}
            && "productType" in m && m["productType"] == pt
            && ("symbol" in m <==> sym.Some?) && (sym.Some? ==> m["symbol"] == Str(sym.value))
            && ("idLessThan" in m <==> cursor.Some?) && (cursor.Some? ==> m["idLessThan"] == Str(cursor.value))
  {
    var a0, a1, a2 := ("productType", Some(StrArg(pt))), ("symbol", sym), ("idLessThan", cursor);
    assert [a0, a1, a2] == [a0, a1] + [a2];
    assert [a0, a1] == [a0] + [a1];
    assert [a0] == [] + [a0];
    BuildParamsSnoc([], a0);
    BuildParamsSnoc([a0], a1);
    BuildParamsSnoc([a0, a1], a2);
    var m0: map<string, string> := map[];
    PutFacts(m0, a0);
    PutFacts(Put(m0, a0), a1);
    PutFacts(Put(Put(m0, a0), a1), a2);
  }

  /** The time bounds and the page size put after the first three arguments. */
  lemma HistoricalTailParams(m: map<string, string>, from: Option<Arg>, to: Option<Arg>, size: int)
    requires m.Keys <= {"productType", "symbol", "idLessThan"}
    ensures var t := Put(Put(Put(m, ("startTime", from)), ("endTime", to)), ("limit", Some(IntArg(size))));
            && t.Keys <= m.Keys + {"startTime", "endTime", "limit"}
            && (forall k :: k in m ==> k in t && t[k] == m[k])
            && "limit" in t && t["limit"] == IntToString(size)
            && ("startTime" in t <==> from.Some?) && (from.Some? ==> t["startTime"] == Str(from.value))
            && ("endTime" in t <==> to.Some?) && (to.Some? ==> t["endTime"] == Str(to.value))
  {
    var a3, a4, a5 := ("startTime", from), ("endTime", to), ("limit", Some(IntArg(size)));
    PutFacts(m, a3);
    PutFacts(Put(m, a3), a4);
    PutFacts(Put(Put(m, a3), a4), a5);
  }

  lemma HistoricalPositionParams(pt: string, sym: Option<Arg>, cursor: Option<Arg>, from: Option<Arg>, to: Option<Arg>, size: int)
    ensures var m := BuildParams([("productType", Some(StrArg(pt))), ("symbol", sym), ("idLessThan", cursor),
                                  ("startTime", from), ("endTime", to), ("limit", Some(IntArg(size)))]);
            && m.Keys <= {"productType", "symbol", "idLessThan", "startTime", "endTime", "limit"}
            && "productType" in m && m["productType"] == pt
            && "limit" in m && m["limit"] == IntToString(size)
            && ("symbol" in m <==> sym.Some?) && (sym.Some? ==> m["symbol"] == Str(sym.value))
            && ("idLessThan" in m <==> cursor.Some?) && (cursor.Some? ==> m["idLessThan"] == Str(cursor.value))
            && ("startTime" in m <==> from.Some?) && (from.Some? ==> m["startTime"] == Str(from.value))
            && ("endTime" in m <==> to.Some?) && (to.Some? ==> m["endTime"] == Str(to.value))
  {
    var a0, a1, a2 := ("productType", Some(StrArg(pt))), ("symbol", sym), ("idLessThan", cursor);
    var a3, a4, a5 := ("startTime", from), ("endTime", to), ("limit", Some(IntArg(size)));
    assert [a0, a1, a2, a3, a4, a5] == [a0, a1, a2, a3, a4] + [a5];
    assert [a0, a1, a2, a3, a4] == [a0, a1, a2, a3] + [a4];
    assert [a0, a1, a2, a3] == [a0, a1, a2] + [a3];
    BuildParamsSnoc([a0, a1, a2], a3);
    BuildParamsSnoc([a0, a1, a2, a3], a4);
    BuildParamsSnoc([a0, a1, a2, a3, a4], a5);
    HistoricalHeadParams(pt, sym, cursor);
    HistoricalTailParams(BuildParams([a0, a1, a2]), from, to, size);
  }

  lemma PositionTierParams(sym: string, pt: string)
    ensures var m := BuildParams([("symbol", Some(StrArg(sym))), ("productType", Some(StrArg(pt)))]);
            m.Keys == {"symbol", "productType"} && m["symbol"] == sym && m["productType"] == pt
  {
    var a0, a1 := ("symbol", Some(StrArg(sym))), ("productType", Some(StrArg(pt)));
    assert [a0, a1] == [] + [a0] + [a1];
    BuildParamsSnoc([], a0);
    BuildParamsSnoc([a0], a1);
  }

  // ---------------------------------------------------------------------------
  // Requests

  /** The request `get_all_positions` sends. */
  function AllPositionsRequest(productType: string, marginCoin: Option<string> := None): (r: Result<Request, Failure>)
    ensures r.Err? <==> productType !in WireValues()
    ensures r.Err? ==> r.error == InvalidProductType
    ensures r.Ok? ==>
              && r.value.verb == "GET" && r.value.path == ALL_POSITIONS_PATH
              && r.value.params.Keys == {"productType"} + (if Present(marginCoin) then {"marginCoin"} else {})
              && r.value.params["productType"] == productType
              && (Present(marginCoin) ==> r.value.params["marginCoin"] == Upper(marginCoin.value))
  {
    match ValidateProductType(productType)
    case Err(e) => Err(e)
    case Ok(pt) =>
      var coin := if Present(marginCoin) then Some(StrArg(Upper(marginCoin.value))) else None;
      AllPositionsParams(pt, coin);
      Ok(Request("GET", ALL_POSITIONS_PATH, BuildParams([("productType", Some(StrArg(pt))), ("marginCoin", coin)])))
  }

  /** The request `get_single_position` sends: every argument is required
      and every one appears, the symbol canonicalised and the margin coin
      upper-cased. */
  function SinglePositionRequest(symbol: string, productType: string, marginCoin: string): (r: Result<Request, Failure>)
    ensures r.Err? <==> productType !in WireValues()
    ensures r.Err? ==> r.error == InvalidProductType
    ensures r.Ok? ==>
              && r.value.verb == "GET" && r.value.path == SINGLE_POSITION_PATH
              && r.value.params.Keys == {"symbol", "productType", "marginCoin"}
              && r.value.params["symbol"] == CleanSymbol(symbol)
              && r.value.params["productType"] == productType
              && r.value.params["marginCoin"] == Upper(marginCoin)
  {
    match ValidateProductType(productType)
    case Err(e) => Err(e)
    case Ok(pt) =>
      var sym, coin := CleanSymbol(symbol), Upper(marginCoin);
      SinglePositionParams(sym, pt, coin);
      Ok(Request("GET", SINGLE_POSITION_PATH,
                 BuildParams([("symbol", Some(StrArg(sym))), ("productType", Some(StrArg(pt))), ("marginCoin", Some(StrArg(coin)))])))
  }

  /** The request `get_historical_position` sends. The product type and the
      clamped limit always appear; the symbol, the cursor and each time bound
      appear only when supplied. */
  function HistoricalPositionRequest(
    productType: string := DEFAULT_HISTORY_PRODUCT_TYPE,
    symbol: Option<string> := None,
    idLessThan: Option<string> := None,
    startTime: Option<TimeBound> := None,
    endTime: Option<TimeBound> := None,
    limit: Option<int> := None
  ): (r: Result<Request, Failure>)
    ensures r.Err? <==> productType !in WireValues()
    ensures r.Err? ==> r.error == InvalidProductType
    ensures r.Ok? ==>
              var p := r.value.params;
              var range := ValidateTimeRange(startTime, endTime);
              && r.value.verb == "GET" && r.value.path == HISTORY_POSITION_PATH
              && p.Keys <= {"productType", "symbol", "idLessThan", "startTime", "endTime", "limit"}
              && "productType" in p && p["productType"] == productType
              && "limit" in p && p["limit"] == IntToString(ClampLimit(limit))
              && ("symbol" in p <==> Present(symbol)) && (Present(symbol) ==> p["symbol"] == CleanSymbol(symbol.value))
              && ("idLessThan" in p <==> idLessThan.Some?) && (idLessThan.Some? ==> p["idLessThan"] == idLessThan.value)
              && ("startTime" in p <==> startTime.Some?) && ("endTime" in p <==> endTime.Some?)
              && (startTime.Some? ==> p["startTime"] == Str(BoundArg(range.0.value)))
              && (endTime.Some? ==> p["endTime"] == Str(BoundArg(range.1.value)))
  {
    match ValidateProductType(productType)
    case Err(e) => Err(e)
    case Ok(pt) =>
      var range := ValidateTimeRange(startTime, endTime);
      var sym := if Present(symbol) then Some(StrArg(CleanSymbol(symbol.value))) else None;
      var cursor := if idLessThan.Some? then Some(StrArg(idLessThan.value)) else None;
      var from := if range.0.Some? then Some(BoundArg(range.0.value)) else None;
      var to := if range.1.Some? then Some(BoundArg(range.1.value)) else None;
      var size := ClampLimit(limit);
      HistoricalPositionParams(pt, sym, cursor, from, to, size);
      Ok(Request("GET", HISTORY_POSITION_PATH,
                 BuildParams([("productType", Some(StrArg(pt))), ("symbol", sym), ("idLessThan", cursor),
                              ("startTime", from), ("endTime", to), ("limit", Some(IntArg(size)))])))
  }

  /** The request `get_position_tier` sends. */
  function PositionTierRequest(symbol: string, productType: string): (r: Result<Request, Failure>)
    ensures r.Err? <==> productType !in WireValues()
    ensures r.Err? ==> r.error == InvalidProductType
    ensures r.Ok? ==>
              && r.value.verb == "GET" && r.value.path == POSITION_TIER_PATH
              && r.value.params.Keys == {"symbol", "productType"}
              && r.value.params["symbol"] == CleanSymbol(symbol)
              && r.value.params["productType"] == productType
  {
    match ValidateProductType(productType)
    case Err(e) => Err(e)
    case Ok(pt) =>
      var sym := CleanSymbol(symbol);
      PositionTierParams(sym, pt);
      Ok(Request("GET", POSITION_TIER_PATH, BuildParams([("symbol", Some(StrArg(sym))), ("productType", Some(StrArg(pt)))])))
  }

  // ---------------------------------------------------------------------------
  // Replies

  /** `v[key]` on a parsed reply: only an object holding the key answers. */
  function Lookup(v: Value, key: string): (r: Result<Value, Failure>)
    ensures r.Ok? <==> v.JObj? && key in v.members
    ensures r.Ok? ==> r.value == v.members[key]
    ensures r.Err? ==> r.error == MalformedResponse
  {
    if v.JObj? && key in v.members then Ok(v.members[key]) else Err(MalformedResponse)
  }

  /** Which record class a reply's list is fed to. The historical records sit
      one level deeper, under `data["list"]`. */
  datatype RecordKind = Positions | HistoricalPositions | PositionTiers

  /** The keyword dictionaries `Record(**item)` accepts for this kind. */
  predicate Accepts(kind: RecordKind, item: map<string, Value>)
  {
    if kind.Positions? then PositionKwargs(item) else OpenRecordKwargs(item)
  }

  /** Every element of an array is an object the record constructor accepts. */
  predicate AllAccepted(kind: RecordKind, elems: seq<Value>)
  {
    forall i :: 0 <= i < |elems| ==> elems[i].JObj? && Accepts(kind, elems[i].members)
  }

  /** The keyword dictionaries that `[Record(**item) for item in v]` passes
      on. An array of acceptable objects gives their members in order;
      iterating an empty string or an empty object gives nothing; anything
      else (a non-object element, a key the constructor refuses, a non-empty
      string or object, a scalar) raises. */
  function RecordPayloads(v: Value, kind: RecordKind): (r: Result<seq<map<string, Value>>, Failure>)
    ensures r.Ok? <==> (v.JArr? && AllAccepted(kind, v.elems)) || v == JStr("") || v == JObj(map[])
    ensures r.Ok? && v.JArr? ==>
              |r.value| == |v.elems| && forall i :: 0 <= i < |v.elems| ==> r.value[i] == v.elems[i].members
    ensures r.Ok? && !v.JArr? ==> r.value == []
    ensures r.Ok? ==> forall i :: 0 <= i < |r.value| ==> Accepts(kind, r.value[i])
    ensures r.Err? ==> r.error == MalformedResponse
  {
    match v
    case JArr(elems) =>
      if AllAccepted(kind, elems) then Ok(seq(|elems|, i requires 0 <= i < |elems| => elems[i].members))
      else Err(MalformedResponse)
    case JStr(s) => if s == "" then Ok([]) else Err(MalformedResponse)
    case JObj(m) => if m == map[] then Ok([]) else Err(MalformedResponse)
    case _ => Err(MalformedResponse)
  }

  /** The parts of a reply an envelope is built from. */
  datatype Envelope = Envelope(code: Value, msg: Value, requestTime: Value, items: seq<map<string, Value>>)

  /** Reads `code`, `msg`, `requestTime` and the record list, which is
      `data` itself or, for historical positions, `data["list"]`. */
  function ParseEnvelope(reply: Value, kind: RecordKind): (r: Result<Envelope, Failure>)
    ensures r.Ok? <==>
              && reply.JObj?
              && "code" in reply.members && "msg" in reply.members
              && "requestTime" in reply.members && "data" in reply.members
              && (var data := reply.members["data"];
                  if kind.HistoricalPositions? then data.JObj? && "list" in data.members && RecordPayloads(data.members["list"], kind).Ok?
                  else RecordPayloads(data, kind).Ok?)
    ensures r.Ok? ==>
              && r.value.code == reply.members["code"]
              && r.value.msg == reply.members["msg"]
              && r.value.requestTime == reply.members["requestTime"]
              && r.value.items == RecordPayloads(if kind.HistoricalPositions? then reply.members["data"].members["list"]
                                                 else reply.members["data"], kind).value
    ensures r.Ok? ==> forall i :: 0 <= i < |r.value.items| ==> Accepts(kind, r.value.items[i])
    ensures r.Err? ==> r.error == MalformedResponse
  {
    match Lookup(reply, "code")
    case Err(e) => Err(e)
    case Ok(code) =>
      match Lookup(reply, "msg")
      case Err(e) => Err(e)
      case Ok(msg) =>
        match Lookup(reply, "requestTime")
        case Err(e) => Err(e)
        case Ok(requestTime) =>
          match Lookup(reply, "data")
          case Err(e) => Err(e)
          case Ok(data) =>
            match (if kind.HistoricalPositions? then Lookup(data, "list") else Ok(data))
            case Err(e) => Err(e)
            case Ok(list) =>
              match RecordPayloads(list, kind)
              case Err(e) => Err(e)
              case Ok(items) => Ok(Envelope(code, msg, requestTime, items))
  }

  // ---------------------------------------------------------------------------
  // Records

  /** `rs` holds one record per payload, built by PositionData's constructor. */
  ghost predicate PositionsFrom(rs: seq<PositionData>, items: seq<map<string, Value>>)
    reads rs
  {
    |rs| == |items| && forall i :: 0 <= i < |rs| ==> rs[i].attrs == Assigned(items[i], POSITION_FIELDS)
  }

  ghost predicate HistoricalPositionsFrom(rs: seq<HistoricalPositionData>, items: seq<map<string, Value>>)
    reads rs
  {
    |rs| == |items| && forall i :: 0 <= i < |rs| ==> rs[i].attrs == Assigned(items[i], items[i].Keys)
  }

  ghost predicate PositionTiersFrom(rs: seq<PositionTierData>, items: seq<map<string, Value>>)
    reads rs
  {
    |rs| == |items| && forall i :: 0 <= i < |rs| ==> rs[i].attrs == Assigned(items[i], items[i].Keys)
  }

  /** `[PositionData(**item) for item in items]` */
  method NewPositions(items: seq<map<string, Value>>) returns (rs: seq<PositionData>)
    requires forall i :: 0 <= i < |items| ==> PositionKwargs(items[i])
    ensures PositionsFrom(rs, items)
    ensures forall i :: 0 <= i < |rs| ==> fresh(rs[i])
  {
    rs := [];
    for n := 0 to |items|
      invariant PositionsFrom(rs, items[..n])
      invariant forall i :: 0 <= i < |rs| ==> fresh(rs[i])
    {
      var record := new PositionData(items[n]);
      assert items[..n + 1] == items[..n] + [items[n]];
      rs := rs + [record];
    }
    assert items[..|items|] == items;
  }

  /** `[HistoricalPositionData(**item) for item in items]` */
  method NewHistoricalPositions(items: seq<map<string, Value>>) returns (rs: seq<HistoricalPositionData>)
    requires forall i :: 0 <= i < |items| ==> OpenRecordKwargs(items[i])
    ensures HistoricalPositionsFrom(rs, items)
    ensures forall i :: 0 <= i < |rs| ==> fresh(rs[i])
  {
    rs := [];
    for n := 0 to |items|
      invariant HistoricalPositionsFrom(rs, items[..n])
      invariant forall i :: 0 <= i < |rs| ==> fresh(rs[i])
    {
      var record := new HistoricalPositionData(items[n]);
      assert items[..n + 1] == items[..n] + [items[n]];
      rs := rs + [record];
    }
    assert items[..|items|] == items;
  }

  /** `[PositionTierData(**item) for item in items]` */
  method NewPositionTiers(items: seq<map<string, Value>>) returns (rs: seq<PositionTierData>)
    requires forall i :: 0 <= i < |items| ==> OpenRecordKwargs(items[i])
    ensures PositionTiersFrom(rs, items)
    ensures forall i :: 0 <= i < |rs| ==> fresh(rs[i])
  {
    rs := [];
    for n := 0 to |items|
      invariant PositionTiersFrom(rs, items[..n])
      invariant forall i :: 0 <= i < |rs| ==> fresh(rs[i])
    {
      var record := new PositionTierData(items[n]);
      assert items[..n + 1] == items[..n] + [items[n]];
      rs := rs + [record];
    }
    assert items[..|items|] == items;
  }

  // ---------------------------------------------------------------------------
  // The client

  /** The position client. Its one collaborator, the transport, is fixed at
      construction and never replaced. The transport either answers with a
      parsed JSON body or fails with a reason. */
  class PositionClient {
    const transport: Request -> Result<Value, string>

    constructor (transport: Request -> Result<Value, string>)
      ensures this.transport == transport
    {
      this.transport := transport;
    }

    /** One round trip: the transport's answer to `req`, read as an envelope. */
    function Exchange(req: Request, kind: RecordKind): (r: Result<Envelope, Failure>)
      ensures transport(req).Err? ==> r == Err(RequestFailed(transport(req).error))
      ensures transport(req).Ok? ==> r == ParseEnvelope(transport(req).value, kind)
    {
      match transport(req)
      case Err(reason) => Err(RequestFailed(reason))
      case Ok(reply) => ParseEnvelope(reply, kind)
    }

    /** `get_all_positions` */
    method GetAllPositions(productType: string, marginCoin: Option<string> := None) returns (r: Result<AllPositionsResponse, Failure>)
      ensures productType !in WireValues() ==> r == Err(InvalidProductType)
      ensures productType in WireValues() ==>
                var e := Exchange(AllPositionsRequest(productType, marginCoin).value, Positions);
                && (e.Err? ==> r == Err(e.error))
                && (e.Ok? ==> r.Ok? && r.value.code == e.value.code && r.value.msg == e.value.msg
                              && r.value.requestTime == e.value.requestTime
                              && PositionsFrom(r.value.data, e.value.items))
      ensures r.Ok? ==> forall i :: 0 <= i < |r.value.data| ==> fresh(r.value.data[i])
    {
      var q := AllPositionsRequest(productType, marginCoin);
      if q.Err? {
        return Err(q.error);
      }
      var e := Exchange(q.value, Positions);
      if e.Err? {
        return Err(e.error);
      }
      var data := NewPositions(e.value.items);
      return Ok(AllPositionsResponse(e.value.code, e.value.msg, e.value.requestTime, data));
    }

    /** `get_single_position` */
    method GetSinglePosition(symbol: string, productType: string, marginCoin: string) returns (r: Result<SinglePositionResponse, Failure>)
      ensures productType !in WireValues() ==> r == Err(InvalidProductType)
      ensures productType in WireValues() ==>
                var e := Exchange(SinglePositionRequest(symbol, productType, marginCoin).value, Positions);
                && (e.Err? ==> r == Err(e.error))
                && (e.Ok? ==> r.Ok? && r.value.code == e.value.code && r.value.msg == e.value.msg
                              && r.value.requestTime == e.value.requestTime
                              && PositionsFrom(r.value.data, e.value.items))
      ensures r.Ok? ==> forall i :: 0 <= i < |r.value.data| ==> fresh(r.value.data[i])
    {
      var q := SinglePositionRequest(symbol, productType, marginCoin);
      if q.Err? {
        return Err(q.error);
      }
      var e := Exchange(q.value, Positions);
      if e.Err? {
        return Err(e.error);
      }
      var data := NewPositions(e.value.items);
      return Ok(SinglePositionResponse(e.value.code, e.value.msg, e.value.requestTime, data));
    }

    /** `get_historical_position`; the records come from `data["list"]`.
        A caller that omits the product type passes DEFAULT_HISTORY_PRODUCT_TYPE. */
    method GetHistoricalPosition(
      productType: string := DEFAULT_HISTORY_PRODUCT_TYPE,
      symbol: Option<string> := None,
      idLessThan: Option<string> := None,
      startTime: Option<TimeBound> := None,
      endTime: Option<TimeBound> := None,
      limit: Option<int> := None
    ) returns (r: Result<HistoricalPositionsResponse, Failure>)
      ensures productType !in WireValues() ==> r == Err(InvalidProductType)
      ensures productType in WireValues() ==>
                var e := Exchange(HistoricalPositionRequest(productType, symbol, idLessThan, startTime, endTime, limit).value, HistoricalPositions);
                && (e.Err? ==> r == Err(e.error))
                && (e.Ok? ==> r.Ok? && r.value.code == e.value.code && r.value.msg == e.value.msg
                              && r.value.requestTime == e.value.requestTime
                              && HistoricalPositionsFrom(r.value.data, e.value.items))
      ensures r.Ok? ==> forall i :: 0 <= i < |r.value.data| ==> fresh(r.value.data[i])
    {
      var q := HistoricalPositionRequest(productType, symbol, idLessThan, startTime, endTime, limit);
      if q.Err? {
        return Err(q.error);
      }
      var e := Exchange(q.value, HistoricalPositions);
      if e.Err? {
        return Err(e.error);
      }
      var data := NewHistoricalPositions(e.value.items);
      return Ok(HistoricalPositionsResponse(e.value.code, e.value.msg, e.value.requestTime, data));
    }

    /** `get_position_tier` */
    method GetPositionTier(symbol: string, productType: string) returns (r: Result<PositionTierResponse, Failure>)
      ensures productType !in WireValues() ==> r == Err(InvalidProductType)
      ensures productType in WireValues() ==>
                var e := Exchange(PositionTierRequest(symbol, productType).value, PositionTiers);
                && (e.Err? ==> r == Err(e.error))
                && (e.Ok? ==> r.Ok? && r.value.code == e.value.code && r.value.msg == e.value.msg
                              && r.value.requestTime == e.value.requestTime
                              && PositionTiersFrom(r.value.data, e.value.items))
      ensures r.Ok? ==> forall i :: 0 <= i < |r.value.data| ==> fresh(r.value.data[i])
    {
      var q := PositionTierRequest(symbol, productType);
      if q.Err? {
        return Err(q.error);
      }
      var e := Exchange(q.value, PositionTiers);
      if e.Err? {
        return Err(e.error);
      }
      var data := NewPositionTiers(e.value.items);
      return Ok(PositionTierResponse(e.value.code, e.value.msg, e.value.requestTime, data));
    }
  }
}
