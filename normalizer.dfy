/** The rules the position client applies to a caller's arguments before the
    single transport call: symbol canonicalisation, time-range clamping,
    product-type validation, the page-size clamp and the parameter map. */
module Normalizer {
  import opened Wrappers
  import opened PyText
  import opened Datetime
  import opened Models

  const MAX_TIME_RANGE_DAYS: int := 90
  const DEFAULT_LIMIT: int := 20
  const MAX_LIMIT: int := 100

  /** What a client call can fail with. */
  datatype Failure =
    | InvalidProductType        // raised before any request is made
    | RequestFailed(reason: string)   // raised by the transport
    | MalformedResponse         // a missing key or a value of the wrong shape

  // ---------------------------------------------------------------------------
  // Symbols

  /** A character of a canonical symbol: a lower-case ASCII letter or a digit. */
  predicate IsCanonicalChar(c: char) { IsLowerAscii(c) || IsDigit(c) }

  predicate IsCanonical(s: string) { forall i :: 0 <= i < |s| ==> IsCanonicalChar(s[i]) }

  /** `''.join(c for c in symbol.lower().strip() if c.isalnum())` */
  function Cleaned(symbol: string): (r: string)
    ensures |r| <= |symbol|
  {
    KeepAlnum(Strip(Lower(symbol)))
  }

  /** The quote rewrite of `_clean_symbol`: the last four characters become
      "usdt" whenever "usdt" occurs anywhere. */
  function RewriteQuote(cleaned: string): (r: string)
    ensures Contains(cleaned, "usdt") ==>
              |r| == |cleaned| && r[|r| - 4..] == "usdt" && r[..|r| - 4] == cleaned[..|r| - 4]
    ensures !Contains(cleaned, "usdt") ==> r == cleaned
    ensures IsCanonical(cleaned) ==> IsCanonical(r)
  {
    if Contains(cleaned, "usdt") then
      var r := cleaned[..|cleaned| - 4] + "usdt";
      assert forall i :: 0 <= i < |r| - 4 ==> r[i] == cleaned[i];
      assert r[|r| - 4..] == "usdt";
      r
    else cleaned
  }

  /** The cleaned symbol holds exactly the alphanumeric characters of the
      lower-cased symbol. */
  lemma CleanedMembers(symbol: string)
    ensures forall c :: c in Cleaned(symbol) <==> c in Lower(symbol) && IsAlnum(c)
  {
    StripIsRedundant(symbol);
    KeepAlnumMembers(Lower(symbol));
  }

  /** `_clean_symbol`: the cleaned string, with its last four characters
      replaced by "usdt" whenever "usdt" occurs in it anywhere. */
  function CleanSymbol(symbol: string): (r: string)
    ensures IsCanonical(r)
    ensures Contains(Cleaned(symbol), "usdt") ==>
              |r| == |Cleaned(symbol)| && r[|r| - 4..] == "usdt" && r[..|r| - 4] == Cleaned(symbol)[..|r| - 4]
    ensures !Contains(Cleaned(symbol), "usdt") ==> r == Cleaned(symbol)
  {
    CleanedIsCanonical(symbol);
    RewriteQuote(Cleaned(symbol))
  }

  lemma {:induction false} KeepAlnumCanonical(s: string)
    requires forall i :: 0 <= i < |s| ==> !IsUpperAscii(s[i])
    ensures IsCanonical(KeepAlnum(s))
  {
    if s != [] {
      KeepAlnumCanonical(s[1..]);
    }
  }

  /** The cleaned form never holds anything but lower-case letters and digits. */
  lemma CleanedIsCanonical(symbol: string)
    ensures IsCanonical(Cleaned(symbol))
  {
    StripIsRedundant(symbol);
    var lowered := Lower(symbol);
    assert forall i :: 0 <= i < |lowered| ==> lowered[i] == LowerChar(symbol[i]);
    KeepAlnumCanonical(lowered);
  }

  lemma {:induction false} KeepAlnumOfAlnum(s: string)
    requires forall i :: 0 <= i < |s| ==> IsAlnum(s[i])
    ensures KeepAlnum(s) == s
  {
    if s != [] {
      KeepAlnumOfAlnum(s[1..]);
    }
  }

  /** Cleaning leaves a canonical string as it is. */
  lemma CleanedOfCanonical(s: string)
    requires IsCanonical(s)
    ensures Cleaned(s) == s
  {
    assert Lower(s) == s;
    assert TrimLeft(s) == s;
    assert TrimRight(s) == s;
    KeepAlnumOfAlnum(s);
  }

  /** A string that already ends in "usdt" comes through the rewrite unchanged. */
  lemma RewriteQuoteKeepsSuffix(cleaned: string)
    requires |cleaned| >= 4 && cleaned[|cleaned| - 4..] == "usdt"
    ensures RewriteQuote(cleaned) == cleaned
  {
    ContainsIffOccurs(cleaned, "usdt");
    assert OccursAt(cleaned, "usdt", |cleaned| - 4);
    assert cleaned[..|cleaned| - 4] + "usdt" == cleaned;
  }

  /** Rewriting twice is rewriting once. */
  lemma RewriteQuoteIdempotent(cleaned: string)
    ensures RewriteQuote(RewriteQuote(cleaned)) == RewriteQuote(cleaned)
  {
    if Contains(cleaned, "usdt") {
      RewriteQuoteKeepsSuffix(RewriteQuote(cleaned));
    }
  }

  /** `_clean_symbol` is idempotent. */
  lemma CleanSymbolIdempotent(symbol: string)
    ensures CleanSymbol(CleanSymbol(symbol)) == CleanSymbol(symbol)
  {
    var cleaned := Cleaned(symbol);
    var once := CleanSymbol(symbol);
    assert once == RewriteQuote(cleaned);
    CleanedOfCanonical(once);
    RewriteQuoteIdempotent(cleaned);
  }

  /** A symbol whose cleaned form already ends in "usdt" comes through the
      rewrite unchanged. */
  lemma UsdtSuffixKept(symbol: string)
    requires |Cleaned(symbol)| >= 4 && Cleaned(symbol)[|Cleaned(symbol)| - 4..] == "usdt"
    ensures CleanSymbol(symbol) == Cleaned(symbol)
  {
    RewriteQuoteKeepsSuffix(Cleaned(symbol));
  }

  lemma {:induction false} KeepAlnumAppend(a: string, b: string)
    ensures KeepAlnum(a + b) == KeepAlnum(a) + KeepAlnum(b)
  {
    if a == [] {
      assert a + b == b;
    } else {
      assert (a + b)[0] == a[0];
      assert (a + b)[1..] == a[1..] + b;
      KeepAlnumAppend(a[1..], b);
    }
  }

  lemma {:induction false} KeepAlnumTrimLeft(s: string)
    ensures KeepAlnum(TrimLeft(s)) == KeepAlnum(s)
  {
    if s != [] && IsSpace(s[0]) {
      KeepAlnumTrimLeft(s[1..]);
    }
  }

  lemma {:induction false} KeepAlnumTrimRight(s: string)
    ensures KeepAlnum(TrimRight(s)) == KeepAlnum(s)
  {
    if s != [] && IsSpace(s[|s| - 1]) {
      var init := s[..|s| - 1];
      assert s == init + [s[|s| - 1]];
      KeepAlnumAppend(init, [s[|s| - 1]]);
      KeepAlnumTrimRight(init);
    }
  }

  /** Whitespace is never alphanumeric, so the strip() before the filter has
      no effect on the canonical form. */
  lemma StripIsRedundant(symbol: string)
    ensures Cleaned(symbol) == KeepAlnum(Lower(symbol))
  {
    KeepAlnumTrimLeft(Lower(symbol));
    KeepAlnumTrimRight(TrimLeft(Lower(symbol)));
  }

  // ---------------------------------------------------------------------------
  // Time ranges

  /** A time bound as the caller gives it: a datetime, or an integer that is
      already in epoch milliseconds. */
  datatype TimeBound = Instant(ms: EpochMs) | Millis(n: int)

  /** Python truthiness of an optional bound: None and the integer 0 are
      false, every datetime is true. */
  predicate Truthy(b: Option<TimeBound>)
    ensures Truthy(b) ==> b.Some?
    ensures b.Some? && b.value.Instant? ==> Truthy(b)
  {
    b.Some? && (b.value.Instant? || b.value.n != 0)
  }

  /** `int(x.timestamp() * 1000)` for a datetime; integers are left alone. */
  function ToMillis(b: TimeBound): (r: TimeBound)
    ensures r.Millis?
    ensures b.Instant? ==> r.n == b.ms
    ensures b.Millis? ==> r == b
  {
    match b
    case Instant(ms) => Millis(ms)
    case Millis(_) => b
  }

  /** `timedelta.days`: whole days, rounded down. */
  function WholeDays(spanMs: int): (r: int)
    ensures r * DAY_MS <= spanMs < (r + 1) * DAY_MS
  {
    spanMs / DAY_MS
  }

  /** `_validate_time_range` */
  function ValidateTimeRange(start: Option<TimeBound>, end: Option<TimeBound>): (r: (Option<TimeBound>, Option<TimeBound>))
    // a missing or falsy bound: both returned as given
    ensures !(Truthy(start) && Truthy(end)) ==> r == (start, end)
    // both truthy: both come back as milliseconds, the end bound unmoved
    ensures Truthy(start) && Truthy(end) ==>
              r.0.Some? && r.0.value.Millis? && r.1 == Some(ToMillis(end.value))
    // both datetimes: the start moves to end - 90 days exactly when the span exceeds 90 whole days
    ensures Truthy(start) && Truthy(end) && start.value.Instant? && end.value.Instant? ==>
              r.0 == Some(Millis(if WholeDays(end.value.ms - start.value.ms) > MAX_TIME_RANGE_DAYS
                                 then end.value.ms - MAX_TIME_RANGE_DAYS * DAY_MS
                                 else start.value.ms))
    // an integer bound is never clamped or altered
    ensures start.Some? && start.value.Millis? ==> r.0 == start
    ensures end.Some? && end.value.Millis? ==> r.1 == end
    // a datetime paired with an integer is converted but not clamped
    ensures Truthy(start) && Truthy(end) && start.value.Instant? && end.value.Millis? ==> r.0 == Some(Millis(start.value.ms))
    ensures r.0.Some? == start.Some? && r.1.Some? == end.Some?
  {
    if !(Truthy(start) && Truthy(end)) then (start, end)
    else
      var s :=
        if start.value.Instant? && end.value.Instant?
           && WholeDays(end.value.ms - start.value.ms) > MAX_TIME_RANGE_DAYS
        then Instant(end.value.ms - MAX_TIME_RANGE_DAYS * DAY_MS)
        else start.value;
      (Some(ToMillis(s)), Some(ToMillis(end.value)))
  }

  /** For two datetimes the resolved range never spans more than 90 whole
      days, ends where the caller said, and starts no earlier than asked;
      when it was clamped it spans exactly 90 days. */
  lemma ResolvedRangeWithinLimit(start: EpochMs, end: EpochMs)
    ensures var r := ValidateTimeRange(Some(Instant(start)), Some(Instant(end)));
            && r.0.Some? && r.0.value.Millis? && r.1 == Some(Millis(end))
            && WholeDays(end - r.0.value.n) <= MAX_TIME_RANGE_DAYS
            && r.0.value.n >= start
            && (WholeDays(end - start) > MAX_TIME_RANGE_DAYS ==> end - r.0.value.n == MAX_TIME_RANGE_DAYS * DAY_MS)
            && (WholeDays(end - start) <= MAX_TIME_RANGE_DAYS ==> r.0.value.n == start)
  {
  }

  // ---------------------------------------------------------------------------
  // Product types

  /** `_validate_product_type`: the argument is returned unchanged exactly
      when it is one of the six wire values. */
  function ValidateProductType(productType: string): (r: Result<string, Failure>)
    ensures r.Ok? <==> productType in WireValues()
    ensures r.Ok? <==> exists p :: WireValue(p) == productType
    ensures r.Ok? ==> r.value == productType
    ensures r.Err? ==> r.error == InvalidProductType
  {
    assert forall p :: WireValue(p) in WireValues() by {
      forall p ensures WireValue(p) in WireValues() {
        AllProductTypesListed(p);
        var i :| 0 <= i < |ALL_PRODUCT_TYPES| && ALL_PRODUCT_TYPES[i] == p;
        assert WireValues()[i] == WireValue(p);
      }
    }
    if productType in WireValues() then Ok(productType) else Err(InvalidProductType)
  }

  // ---------------------------------------------------------------------------
  // Parameter maps

  /** A value handed to `_build_params`. */
  datatype Arg = StrArg(s: string) | IntArg(i: int) | DatetimeArg(ms: EpochMs)

  /** str() of an argument. */
  function Str(a: Arg): string
  {
    match a
    case StrArg(s) => s
    case IntArg(i) => IntToString(i)
    case DatetimeArg(ms) => Text(ms)
  }

  /** A time bound as it reaches `_build_params`. */
  function BoundArg(b: TimeBound): Arg
  {
    match b
    case Instant(ms) => DatetimeArg(ms)
    case Millis(n) => IntArg(n)
  }

  /** Keyword arguments always carry distinct names. */
  predicate DistinctNames(args: seq<(string, Option<Arg>)>)
  {
    forall i, j :: 0 <= i < j < |args| ==> args[i].0 != args[j].0
  }

  /** The entry one keyword argument adds to the parameter map, if any. */
  function Put(m: map<string, string>, arg: (string, Option<Arg>)): map<string, string>
  {
    if arg.1.Some? then m[arg.0 := Str(arg.1.value)] else m
  }

  /** Adding an argument touches its own name only. */
  lemma PutFacts(m: map<string, string>, arg: (string, Option<Arg>))
    ensures Put(m, arg).Keys == m.Keys + (if arg.1.Some? then {arg.0} else {})
    ensures arg.1.Some? ==> Put(m, arg)[arg.0] == Str(arg.1.value)
    ensures forall k :: k in m && k != arg.0 ==> Put(m, arg)[k] == m[k]
  {
  }

  /** `_build_params(**kwargs)`: `{k: str(v) for k, v in kwargs.items() if v is not None}`. */
  function BuildParams(args: seq<(string, Option<Arg>)>): (r: map<string, string>)
    ensures args == [] ==> r == map[]
  {
    if args == [] then map[] else Put(BuildParams(args[..|args| - 1]), args[|args| - 1])
  }

  /** The keys are exactly the names whose value is not None. */
  lemma {:induction false} BuildParamsKeys(args: seq<(string, Option<Arg>)>)
    ensures forall k :: k in BuildParams(args) <==> exists i :: 0 <= i < |args| && args[i].0 == k && args[i].1.Some?
  {
    if args != [] {
      var init := args[..|args| - 1];
      assert forall i :: 0 <= i < |init| ==> init[i] == args[i];
      BuildParamsKeys(init);
    }
  }

  /** One more keyword argument adds its own entry on top of the others'. */
  lemma BuildParamsSnoc(args: seq<(string, Option<Arg>)>, arg: (string, Option<Arg>))
    ensures BuildParams(args + [arg]) == Put(BuildParams(args), arg)
  {
    assert (args + [arg])[..|args|] == args;
  }

  /** Each supplied name maps to the str() of its value. */
  lemma {:induction false} BuildParamsValues(args: seq<(string, Option<Arg>)>)
    requires DistinctNames(args)
    ensures forall i :: 0 <= i < |args| && args[i].1.Some? ==>
              args[i].0 in BuildParams(args) && BuildParams(args)[args[i].0] == Str(args[i].1.value)
  {
    if args != [] {
      var init := args[..|args| - 1];
      var last := args[|args| - 1];
      assert DistinctNames(init) by {
        assert forall i :: 0 <= i < |init| ==> init[i] == args[i];
      }
      BuildParamsValues(init);
      BuildParamsKeys(init);
      assert args == init + [last];
      BuildParamsSnoc(init, last);
      var whole, earlier := BuildParams(args), BuildParams(init);
      forall i | 0 <= i < |args| && args[i].1.Some?
        ensures args[i].0 in whole && whole[args[i].0] == Str(args[i].1.value)
      {
        if i < |init| {
          assert init[i] == args[i];
          assert args[i].0 != last.0;
          assert earlier[init[i].0] == Str(init[i].1.value);
        }
      }
    }
  }

  /** `min(limit or DEFAULT_LIMIT, MAX_LIMIT)`: None and 0 become 20, values
      above 100 become 100, and every other value, negative ones included,
      passes through. */
  function ClampLimit(limit: Option<int>): (r: int)
    ensures r <= MAX_LIMIT
    ensures (limit.None? || limit.value == 0) ==> r == DEFAULT_LIMIT
    ensures limit.Some? && limit.value != 0 && limit.value <= MAX_LIMIT ==> r == limit.value
    ensures limit.Some? && limit.value > MAX_LIMIT ==> r == MAX_LIMIT
  {
    var requested := if limit.None? || limit.value == 0 then DEFAULT_LIMIT else limit.value;
    if requested < MAX_LIMIT then requested else MAX_LIMIT
  }
}
