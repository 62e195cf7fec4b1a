/** The position domain types: the closed set of product types, the three
    record kinds built from a JSON object's members, and the four response
    envelopes. A record is the map of attributes its constructor set. */
module Models {
  import opened Json

  /** The six market segments, in declaration order. */
  datatype ProductType =
    | UsdtFutures
    | CoinFutures
    | UsdcFutures
    | SusdtFutures
    | ScoinFutures
    | SusdcFutures

  /** The exchange's wire spelling of a product type. */
  function WireValue(p: ProductType): (r: string)
    ensures |r| > 8 && r[|r| - 8..] == "-FUTURES"
  {
    match p
    case UsdtFutures => "USDT-FUTURES"
    case CoinFutures => "COIN-FUTURES"
    case UsdcFutures => "USDC-FUTURES"
    case SusdtFutures => "SUSDT-FUTURES"
    case ScoinFutures => "SCOIN-FUTURES"
    case SusdcFutures => "SUSDC-FUTURES"
  }

  const ALL_PRODUCT_TYPES: seq<ProductType> :=
    [UsdtFutures, CoinFutures, UsdcFutures, SusdtFutures, ScoinFutures, SusdcFutures]

  /** `[pt.value for pt in ProductType]` */
  function WireValues(): (r: seq<string>)
    ensures |r| == |ALL_PRODUCT_TYPES|
    ensures forall i :: 0 <= i < |r| ==> r[i] == WireValue(ALL_PRODUCT_TYPES[i])
  {
    seq(|ALL_PRODUCT_TYPES|, i requires 0 <= i < |ALL_PRODUCT_TYPES| => WireValue(ALL_PRODUCT_TYPES[i]))
  }

  /** Every member of the enumeration is listed once. */
  lemma AllProductTypesListed(p: ProductType)
    ensures p in ALL_PRODUCT_TYPES
    ensures forall i, j :: 0 <= i < j < |ALL_PRODUCT_TYPES| ==> ALL_PRODUCT_TYPES[i] != ALL_PRODUCT_TYPES[j]
  {
  }

  /** No two product types share a wire value. */
  lemma WireValueInjective()
    ensures forall p, q :: WireValue(p) == WireValue(q) ==> p == q
  {
  }

  /** There are exactly six wire values and no two product types share one. */
  lemma WireValuesDistinct()
    ensures |WireValues()| == 6
    ensures forall p, q :: WireValue(p) == WireValue(q) ==> p == q
    ensures forall i, j :: 0 <= i < j < |WireValues()| ==> WireValues()[i] != WireValues()[j]
  {
    WireValueInjective();
    AllProductTypesListed(UsdtFutures);
  }

  /** What a record constructor stores for a payload value: None becomes ''. */
  function Stored(v: Value): (r: Value)
    ensures v == JNull ==> r == JStr("")
    ensures v != JNull ==> r == v
  {
    if v.JNull? then JStr("") else v
  }

  /** The attributes a record constructor sets from `kwargs` when it keeps the
      keys in `keep`: exactly the supplied keys that are kept, each with its
      stored value. Nothing is set for a key that was not supplied. */
  function Assigned(kwargs: map<string, Value>, keep: set<string>): (r: map<string, Value>)
    ensures r.Keys == kwargs.Keys * keep
    ensures forall k :: k in r ==> r[k] == Stored(kwargs[k])
  {
    map k | k in kwargs && k in keep :: Stored(kwargs[k])
  }

  /** Processing one more key of `kwargs` extends the attributes set so far
      by that key, when it is kept. */
  lemma AssignedStep(kwargs: map<string, Value>, pending: set<string>, k: string, keep: set<string>)
    requires k in pending && pending <= kwargs.Keys
    ensures Assigned(kwargs - (pending - {k}), keep)
         == if k in keep then Assigned(kwargs - pending, keep)[k := Stored(kwargs[k])]
            else Assigned(kwargs - pending, keep)
  {
  }

  /** The declared fields of PositionData. */
  const POSITION_FIELDS: set<string> := {
    "marginCoin", "symbol", "holdSide", "openDelegateSize", "marginSize",
    "available", "locked", "total", "leverage", "achievedProfits",
    "openPriceAvg", "marginMode", "posMode", "unrealizedPL", "liquidationPrice",
    "keepMarginRate", "markPrice", "breakEvenPrice", "totalFee", "deductedFee",
    "marginRatio", "assetMode", "autoMargin", "grant", "takeProfit",
    "stopLoss", "takeProfitId", "stopLossId", "cTime", "uTime"
  }

  /** The declared fields of HistoricalPositionData. */
  const HISTORICAL_POSITION_FIELDS: set<string> := {
    "positionId", "marginCoin", "symbol", "holdSide", "openAvgPrice",
    "closeAvgPrice", "marginMode", "openTotalPos", "closeTotalPos", "pnl",
    "netProfit", "totalFunding", "openFee", "closeFee", "cTime", "uTime"
  }

  /** The declared fields of PositionTierData. */
  const POSITION_TIER_FIELDS: set<string> := {
    "symbol", "level", "startUnit", "endUnit", "leverage", "keepMarginRate"
  }

  /** The keyword arguments `PositionData(**kwargs)` accepts. Python binds
      `self` positionally, so a "self" key raises TypeError before the body
      runs; every other key is either kept or skipped. */
  predicate PositionKwargs(kwargs: map<string, Value>)
  {
    "self" !in kwargs
  }

  /** The keyword arguments the two records that keep every key accept.
      Besides "self", `setattr` raises for the read-only "__class__" and
      "__weakref__" slots. A "__dict__" key either raises or replaces the
      whole attribute dictionary; the model does not accept it. */
  predicate OpenRecordKwargs(kwargs: map<string, Value>)
  {
    "self" !in kwargs && "__class__" !in kwargs && "__weakref__" !in kwargs && "__dict__" !in kwargs
  }

  /** A current position. Its constructor sets only declared fields and
      silently drops every other key. */
  class PositionData {
    var attrs: map<string, Value>

    constructor (kwargs: map<string, Value>)
      requires PositionKwargs(kwargs)
      ensures attrs == Assigned(kwargs, POSITION_FIELDS)
    {
      attrs := map[];
      new;
      var pending := kwargs.Keys;
      while pending != {}
        invariant pending <= kwargs.Keys
        invariant attrs == Assigned(kwargs - pending, POSITION_FIELDS)
        decreases pending
      {
        var k :| k in pending;
        AssignedStep(kwargs, pending, k, POSITION_FIELDS);
        if k in POSITION_FIELDS {
          attrs := attrs[k := Stored(kwargs[k])];
        }
        pending := pending - {k};
      }
      assert kwargs - {} == kwargs;
    }
  }

  /** A closed position. Its constructor sets an attribute for every supplied
      key, declared or not. */
  class HistoricalPositionData {
    var attrs: map<string, Value>

    constructor (kwargs: map<string, Value>)
      requires OpenRecordKwargs(kwargs)
      ensures attrs == Assigned(kwargs, kwargs.Keys)
    {
      attrs := map[];
      new;
      var pending := kwargs.Keys;
      while pending != {}
        invariant pending <= kwargs.Keys
        invariant attrs == Assigned(kwargs - pending, kwargs.Keys)
        decreases pending
      {
        var k :| k in pending;
        AssignedStep(kwargs, pending, k, kwargs.Keys);
        attrs := attrs[k := Stored(kwargs[k])];
        pending := pending - {k};
      }
      assert kwargs - {} == kwargs;
    }
  }

  /** One leverage bracket. Its constructor sets an attribute for every
      supplied key, declared or not. */
  class PositionTierData {
    var attrs: map<string, Value>

    constructor (kwargs: map<string, Value>)
      requires OpenRecordKwargs(kwargs)
      ensures attrs == Assigned(kwargs, kwargs.Keys)
    {
      attrs := map[];
      new;
      var pending := kwargs.Keys;
      while pending != {}
        invariant pending <= kwargs.Keys
        invariant attrs == Assigned(kwargs - pending, kwargs.Keys)
        decreases pending
      {
        var k :| k in pending;
        AssignedStep(kwargs, pending, k, kwargs.Keys);
        attrs := attrs[k := Stored(kwargs[k])];
        pending := pending - {k};
      }
      assert kwargs - {} == kwargs;
    }
  }

  datatype AllPositionsResponse =
    AllPositionsResponse(code: Value, msg: Value, requestTime: Value, data: seq<PositionData>)

  datatype SinglePositionResponse =
    SinglePositionResponse(code: Value, msg: Value, requestTime: Value, data: seq<PositionData>)

  datatype HistoricalPositionsResponse =
    HistoricalPositionsResponse(code: Value, msg: Value, requestTime: Value, data: seq<HistoricalPositionData>)

  datatype PositionTierResponse =
    PositionTierResponse(code: Value, msg: Value, requestTime: Value, data: seq<PositionTierData>)
}
