/** Worked examples of the position client's rules on concrete inputs: the
    spellings of one symbol, the "usdt"-anywhere rewrite, the parameter map,
    the page-size clamp, the historical defaults, how a lone datetime bound
    reaches the wire, and what each record constructor keeps. */
module Scenarios {
  import opened Wrappers
  import opened Json
  import opened PyText
  import opened Datetime
  import opened Models
  import opened Normalizer
  import opened Client

  // ---------------------------------------------------------------------------
  // Symbols

  /** Cleaning in evaluated steps: lower-case, strip, filter, and a result
      that already ends in "usdt". */
  lemma CleansVia(symbol: string, lowered: string, stripped: string, cleaned: string)
    requires Lower(symbol) == lowered && Strip(lowered) == stripped && KeepAlnum(stripped) == cleaned
    requires |cleaned| >= 4 && cleaned[|cleaned| - 4..] == "usdt"
    ensures CleanSymbol(symbol) == cleaned
  {
    UsdtSuffixKept(symbol);
  }

  lemma SlashLowered() ensures Lower("BTC/USDT") == "btc/usdt" {}
  lemma SlashStripped() ensures Strip("btc/usdt") == "btc/usdt" {}
  lemma SlashFiltered() ensures KeepAlnum("btc/usdt") == "btcusdt" {}

  lemma SlashSpelling()
    ensures CleanSymbol("BTC/USDT") == "btcusdt"
  {
    SlashLowered();
    SlashStripped();
    SlashFiltered();
    CleansVia("BTC/USDT", "btc/usdt", "btc/usdt", "btcusdt");
  }

  lemma DashLowered() ensures Lower("BTC-USDT") == "btc-usdt" {}
  lemma DashStripped() ensures Strip("btc-usdt") == "btc-usdt" {}
  lemma DashFiltered() ensures KeepAlnum("btc-usdt") == "btcusdt" {}

  lemma DashSpelling()
    ensures CleanSymbol("BTC-USDT") == "btcusdt"
  {
    DashLowered();
    DashStripped();
    DashFiltered();
    CleansVia("BTC-USDT", "btc-usdt", "btc-usdt", "btcusdt");
  }

  lemma PaddedLowered() ensures Lower(" btcusdt ") == " btcusdt " {}
  lemma PaddedLeftTrimmed()
    ensures TrimLeft(" btcusdt ") == "btcusdt "
  {
    assert " btcusdt "[1..] == "btcusdt ";
    assert !IsSpace('b');
  }
  lemma PaddedRightTrimmed() ensures TrimRight("btcusdt ") == "btcusdt" {}

  lemma PaddedStripped()
    ensures Strip(" btcusdt ") == "btcusdt"
  {
    PaddedLeftTrimmed();
    PaddedRightTrimmed();
  }
  lemma PaddedFiltered() ensures KeepAlnum("btcusdt") == "btcusdt" {}

  lemma PaddedSpelling()
    ensures CleanSymbol(" btcusdt ") == "btcusdt"
  {
    PaddedLowered();
    PaddedStripped();
    PaddedFiltered();
    CleansVia(" btcusdt ", " btcusdt ", "btcusdt", "btcusdt");
  }

  /** Three spellings of the same market reach the exchange as one symbol. */
  lemma SpellingsAgree()
    ensures CleanSymbol("BTC/USDT") == CleanSymbol("BTC-USDT") == CleanSymbol(" btcusdt ") == "btcusdt"
  {
    SlashSpelling();
    DashSpelling();
    PaddedSpelling();
  }

  /** Cleaning in evaluated steps to a result that starts with "usdt": the
      rewrite replaces its last four characters. */
  lemma RewritesVia(symbol: string, lowered: string, stripped: string, cleaned: string)
    requires Lower(symbol) == lowered && Strip(lowered) == stripped && KeepAlnum(stripped) == cleaned
    requires |cleaned| >= 4 && cleaned[..4] == "usdt"
    ensures CleanSymbol(symbol) == cleaned[..|cleaned| - 4] + "usdt"
  {
    ContainsIffOccurs(cleaned, "usdt");
    assert OccursAt(cleaned, "usdt", 0);
    var r := CleanSymbol(symbol);
    assert r == r[..|r| - 4] + r[|r| - 4..];
  }

  lemma LeadingUsdtLowered() ensures Lower("USDTBTC") == "usdtbtc" {}
  lemma LeadingUsdtStripped() ensures Strip("usdtbtc") == "usdtbtc" {}
  lemma LeadingUsdtFiltered() ensures KeepAlnum("usdtbtc") == "usdtbtc" {}

  /** "usdt" at the front still triggers the rewrite of the last four
      characters, so the quote currency is not preserved. */
  lemma LeadingUsdtRewritesTail()
    ensures CleanSymbol("USDTBTC") == "usdusdt"
  {
    LeadingUsdtLowered();
    LeadingUsdtStripped();
    LeadingUsdtFiltered();
    RewritesVia("USDTBTC", "usdtbtc", "usdtbtc", "usdtbtc");
    assert "usdtbtc"[..3] + "usdt" == "usdusdt";
  }

  // ---------------------------------------------------------------------------
  // Parameter maps and the page size

  /** None is dropped and everything else is stringified. */
  lemma BuildParamsExample()
    ensures BuildParams([("a", Some(IntArg(1))), ("b", None), ("c", Some(StrArg("x")))]) == map["a" := "1", "c" := "x"]
  {
    var a0, a1, a2 := ("a", Some(IntArg(1))), ("b", None), ("c", Some(StrArg("x")));
    assert [a0, a1, a2] == [] + [a0] + [a1] + [a2];
    BuildParamsSnoc([], a0);
    BuildParamsSnoc([a0], a1);
    BuildParamsSnoc([a0, a1], a2);
  }

  /** 0 and None take the default, a large page is capped, and a negative
      page size passes through unchanged. */
  lemma ClampLimitExamples()
    ensures ClampLimit(None) == 20 && ClampLimit(Some(0)) == 20
    ensures ClampLimit(Some(50)) == 50 && ClampLimit(Some(500)) == 100
    ensures ClampLimit(Some(-5)) == -5
  {
  }

  // ---------------------------------------------------------------------------
  // The historical endpoint

  lemma TwentyText()
    ensures IntToString(20) == "20"
  {
    assert NatToString(2) == "2";
  }

  /** Called with no arguments, the historical endpoint sends exactly the
      default product type and the default page size. */
  lemma HistoricalDefaults()
    ensures HistoricalPositionRequest()
         == Ok(Request("GET", HISTORY_POSITION_PATH, map["productType" := "USDT-FUTURES", "limit" := "20"]))
  {
    assert WireValues()[0] == DEFAULT_HISTORY_PRODUCT_TYPE;
    var r := HistoricalPositionRequest();
    var p := r.value.params;
    TwentyText();
    assert p["limit"] == "20" && p["productType"] == "USDT-FUTURES";
    assert p.Keys == {"productType", "limit"};
    assert p == map["productType" := "USDT-FUTURES", "limit" := "20"];
  }

  /** A datetime start with no end bound is not converted: its str() text,
      which contains a colon, goes on the wire. */
  lemma LoneDatetimeBoundSentAsText(ms: EpochMs)
    ensures var r := HistoricalPositionRequest(startTime := Some(Instant(ms)));
            r.Ok? && "startTime" in r.value.params && r.value.params["startTime"] == Text(ms)
            && ':' in r.value.params["startTime"]
  {
    assert WireValues()[0] == DEFAULT_HISTORY_PRODUCT_TYPE;
  }

  /** The epoch itself, sent alone, reads as a calendar date and time. */
  lemma LoneEpochBound()
    ensures var r := HistoricalPositionRequest(startTime := Some(Instant(0)));
            r.Ok? && r.value.params["startTime"] == "1970-01-01 00:00:00"
  {
    LoneDatetimeBoundSentAsText(0);
    TextOfEpoch();
  }

  /** With both datetime bounds supplied, each goes out as decimal
      milliseconds, never as a colon-separated date. */
  lemma PairedDatetimeBoundsSentAsMillis(start: EpochMs, end: EpochMs)
    ensures var r := HistoricalPositionRequest(startTime := Some(Instant(start)), endTime := Some(Instant(end)));
            && r.Ok?
            && r.value.params["endTime"] == IntToString(end)
            && ':' !in r.value.params["startTime"] && ':' !in r.value.params["endTime"]
  {
    assert WireValues()[0] == DEFAULT_HISTORY_PRODUCT_TYPE;
    var range := ValidateTimeRange(Some(Instant(start)), Some(Instant(end)));
    ResolvedRangeWithinLimit(start, end);
    var r := HistoricalPositionRequest(startTime := Some(Instant(start)), endTime := Some(Instant(end)));
    assert r.value.params["startTime"] == IntToString(range.0.value.n);
    NoColonInNumber(range.0.value.n);
    NoColonInNumber(end);
  }

  lemma NoColonInNumber(i: int)
    ensures ':' !in IntToString(i)
  {
  }

  /** An integer zero bound is falsy, so the pair is sent as given and the
      zero still appears. */
  lemma ZeroBoundStillSent(end: int)
    ensures var r := HistoricalPositionRequest(startTime := Some(Millis(0)), endTime := Some(Millis(end)));
            r.Ok? && "startTime" in r.value.params && "endTime" in r.value.params
            && r.value.params["endTime"] == IntToString(end)
  {
    assert WireValues()[0] == DEFAULT_HISTORY_PRODUCT_TYPE;
  }

  // ---------------------------------------------------------------------------
  // Records

  /** A payload without "grant" leaves "grant" unset on a PositionData, an
      undeclared key is dropped, and a None value is stored as ''. */
  lemma PositionPayloadExample(kwargs: map<string, Value>)
    requires kwargs == map["symbol" := JStr("BTCUSDT"), "takeProfit" := JNull, "extra" := JNum(1)]
    ensures Assigned(kwargs, POSITION_FIELDS) == map["symbol" := JStr("BTCUSDT"), "takeProfit" := JStr("")]
  {
    var r := Assigned(kwargs, POSITION_FIELDS);
    assert "extra" !in POSITION_FIELDS;
    assert r.Keys == {"symbol", "takeProfit"};
  }

  /** The same undeclared key is kept by HistoricalPositionData. */
  lemma HistoricalPayloadExample(kwargs: map<string, Value>)
    requires kwargs == map["positionId" := JStr("1"), "extra" := JNum(1)]
    ensures "extra" !in HISTORICAL_POSITION_FIELDS
    ensures Assigned(kwargs, kwargs.Keys) == map["positionId" := JStr("1"), "extra" := JNum(1)]
  {
  }

  /** And by PositionTierData, which also stores None as ''. */
  lemma PositionTierPayloadExample(kwargs: map<string, Value>)
    requires kwargs == map["level" := JStr("1"), "endUnit" := JNull, "extra" := JNum(1)]
    ensures "extra" !in POSITION_TIER_FIELDS
    ensures Assigned(kwargs, kwargs.Keys) == map["level" := JStr("1"), "endUnit" := JStr(""), "extra" := JNum(1)]
  {
  }

  /** An item with a "self" key cannot be passed as keyword arguments to any
      record constructor, so the reply is malformed. */
  lemma SelfKeyRefused()
    ensures RecordPayloads(JArr([JObj(map["self" := JNum(1)])]), Positions) == Err(MalformedResponse)
    ensures RecordPayloads(JArr([JObj(map["self" := JNum(1)])]), PositionTiers) == Err(MalformedResponse)
  {
    var item := map["self" := JNum(1)];
    assert [JObj(item)][0].members == item;
    assert !Accepts(Positions, item);
    assert !AllAccepted(Positions, [JObj(item)]);
    assert !AllAccepted(PositionTiers, [JObj(item)]);
  }

  /** A "__class__" key is ignored by PositionData, which sets only its
      declared fields, but cannot be assigned on the records that keep every
      key. */
  lemma ClassKeyOnlyRefusedByOpenRecords()
    ensures RecordPayloads(JArr([JObj(map["__class__" := JNum(1)])]), Positions).Ok?
    ensures RecordPayloads(JArr([JObj(map["__class__" := JNum(1)])]), HistoricalPositions) == Err(MalformedResponse)
  {
    var item := map["__class__" := JNum(1)];
    assert "self" !in item;
    assert AllAccepted(Positions, [JObj(item)]);
    assert [JObj(item)][0].members == item;
    assert !AllAccepted(HistoricalPositions, [JObj(item)]);
  }
}
