# Bitget position client: a verified model

This project models the position client of the Bitget API wrapper. The client offers four read-only calls:

- `get_all_positions`
- `get_single_position`
- `get_historical_position`
- `get_position_tier`

Each call does the same three things. It normalises the caller's arguments: it canonicalises the symbol, clamps the time range and the page size, checks the product type against the closed `ProductType` enumeration and builds the string-valued parameter map. It then hands one GET request to the transport. Finally it turns the reply into a response envelope of freshly built records.

Modules:

- `Wrappers`: `Option` and `Result`.
- `Json`: the parsed reply, as a JSON value with integer numbers.
- `PyText`: the Python string builtins the client relies on, on their ASCII meaning. These are `lower`, `upper`, `strip`, `isalnum`, `in` on strings and `str()` of an integer.
- `Datetime`: a `datetime` as epoch milliseconds in the years 1 to 9999, and the text `str()` prints for it on a UTC clock.
- `Models` (`bitget_api/models/position.py`):
  - the product types and their wire values;
  - the three record classes, whose constructors loop over the payload's keys;
  - `PositionKwargs` and `OpenRecordKwargs`, the keyword dictionaries those constructors accept: `__init__(self, **kwargs)` refuses a "self" key, and `setattr` on the keep-all records refuses "__class__", "__weakref__" and "__dict__";
  - the four response envelopes `AllPositionsResponse`, `SinglePositionResponse`, `HistoricalPositionsResponse` and `PositionTierResponse` (lines 94-123), each holding code, msg, requestTime and its record list.
- `Normalizer` (`bitget_api/clients/position.py`, lines 23-50 and 93): the argument rules, including `Str`, the `str(v)` of line 50 over strings, integers and datetimes.
- `Client` (`bitget_api/clients/position.py`, lines 52-123):
  - the request each endpoint sends;
  - reading the reply;
  - building the record lists;
  - the `PositionClient` class, whose transport is a function fixed at construction.
- `Scenarios`: the rules worked out on concrete inputs.

Behaviour of the code worth knowing, all kept as written:

- **Page size.** `min(limit or 20, 100)` has no lower bound: a negative page size goes to the exchange unchanged (`Scenarios.ClampLimitExamples`).
- **Missing fields.** A field absent from the payload is never set on a record. Only a supplied `None` becomes `''` (`Models.Assigned`, `Scenarios.PositionPayloadExample`).
- **The 90-day rule.** It compares whole days, as `timedelta.days` does (rounded down). A span of 90 days and 23 hours is therefore not clamped.
- **The "usdt" rewrite.** It fires when "usdt" occurs anywhere in the cleaned symbol, not only at its end. "USDTBTC" becomes "usdusdt" (`Scenarios.LeadingUsdtRewritesTail`).
- **A lone datetime bound.** When only one bound is truthy, `_validate_time_range` returns both bounds untouched. A `datetime` bound then reaches `_build_params` and is sent as its `str()` text, for example "1970-01-01 00:00:00", rather than as epoch milliseconds (`Scenarios.LoneDatetimeBoundSentAsText`, `Scenarios.LoneEpochBound`).

## Model

| member | source | states |
|---|---|---|
| PyText.Lower | bitget_api/clients/position.py:25 | `str.lower`: same length, and each character lower-cased, the ASCII capitals shifted by 32 and every other character kept |
| PyText.Upper | bitget_api/clients/position.py:56 | `str.upper`: same length, and each character upper-cased, the ASCII small letters shifted by 32 and every other character kept |
| PyText.TrimLeft | bitget_api/clients/position.py:25 | the result is a suffix of the input that does not start with whitespace, and every removed character is whitespace |
| PyText.TrimRight | bitget_api/clients/position.py:25 | the result is a prefix of the input that does not end with whitespace, and every removed character is whitespace |
| PyText.Strip | bitget_api/clients/position.py:25 | `str.strip` never lengthens the string, and what is left neither starts nor ends with whitespace |
| PyText.StripIsWindow | bitget_api/clients/position.py:25 | `strip()` leaves a contiguous window of the string, and every character before and after that window is whitespace |
| PyText.KeepAlnum | bitget_api/clients/position.py:25 | keeping only the alphanumeric characters never lengthens the string |
| PyText.KeepAlnumMembers | bitget_api/clients/position.py:25 | a character is in the filtered string exactly when it is in the input and is alphanumeric |
| PyText.Contains | bitget_api/clients/position.py:26 | `sub in s` holds only when `sub` is no longer than `s` |
| PyText.ContainsIffOccurs | bitget_api/clients/position.py:26 | the left-to-right scan used for `"usdt" in cleaned` is true exactly when some window of the string equals the substring |
| PyText.ContainsOccurs | bitget_api/clients/position.py:26 | a match found by the scan is a window of the string equal to the substring |
| PyText.OccursContains | bitget_api/clients/position.py:26 | every window equal to the substring is found by the scan |
| PyText.IntToString | bitget_api/clients/position.py:50 | `str()` of an integer is non-empty and made of digits, with a leading '-' exactly when the integer is negative |
| PyText.NatToStringRoundTrip | bitget_api/clients/position.py:50 | reading back the decimal digits `str(n)` wrote gives n |
| PyText.IntToStringInjective | bitget_api/clients/position.py:50 | two integers with the same `str()` are equal, so a stringified parameter determines its value |
| Datetime.Text | bitget_api/clients/position.py:50 | `str()` of a datetime, "YYYY-MM-DD HH:MM:SS" with ".ffffff" when needed, contains both a '-' and a ':' |
| Datetime.TextOfEpoch | bitget_api/clients/position.py:50 | `str()` of 1970-01-01 00:00 UTC is "1970-01-01 00:00:00" |
| Models.WireValues | bitget_api/models/position.py:6-12 | `[pt.value for pt in ProductType]` lists the wire value of each member, in declaration order |
| Models.WireValue | bitget_api/models/position.py:6-12 | every wire value is a non-empty prefix followed by "-FUTURES" |
| Models.AllProductTypesListed | bitget_api/models/position.py:6-12 | every member of the enumeration occurs in the declared list, and exactly once |
| Models.WireValueInjective | bitget_api/models/position.py:6-12 | no two product types share a wire value |
| Models.WireValuesDistinct | bitget_api/models/position.py:6-12 | there are exactly six wire values, and no two product types share one |
| Models.Stored | bitget_api/models/position.py:53 | a `None` payload value is stored as `''`, and any other value is stored unchanged |
| Models.Assigned | bitget_api/models/position.py:48-53 | a record's attributes are exactly the supplied keys it keeps, each with its stored value; a key that was not supplied is never set |
| Models.AssignedStep | bitget_api/models/position.py:50-53 | handling one more key adds exactly that key when it is kept, and nothing otherwise |
| Models.PositionData.constructor | bitget_api/models/position.py:48-53 | for keyword arguments without a "self" key, after the loop the attributes are the supplied keys that are declared fields, with `None` stored as `''` |
| Models.HistoricalPositionData.constructor | bitget_api/models/position.py:75-77 | for keyword arguments without "self", "__class__", "__weakref__" or "__dict__", after the loop every supplied key, declared or not, is an attribute, with `None` stored as `''` |
| Models.PositionTierData.constructor | bitget_api/models/position.py:89-91 | for keyword arguments without "self", "__class__", "__weakref__" or "__dict__", after the loop every supplied key, declared or not, is an attribute, with `None` stored as `''` |
| Normalizer.Cleaned | bitget_api/clients/position.py:25 | the cleaned string is never longer than the symbol |
| Normalizer.CleanedMembers | bitget_api/clients/position.py:25 | a character is in the cleaned symbol exactly when it occurs in the lower-cased symbol and is alphanumeric |
| Normalizer.RewriteQuote | bitget_api/clients/position.py:26 | when "usdt" occurs, the result has the input's length, ends in "usdt" and agrees with the input before the last four characters. Otherwise it is the input. Lower-case letters and digits stay lower-case letters and digits |
| Normalizer.RewriteQuoteKeepsSuffix | bitget_api/clients/position.py:26 | a string that already ends in "usdt" comes through the rewrite unchanged |
| Normalizer.RewriteQuoteIdempotent | bitget_api/clients/position.py:26 | rewriting twice gives the same as rewriting once |
| Normalizer.UsdtSuffixKept | bitget_api/clients/position.py:24-26 | a symbol whose cleaned form ends in "usdt" is sent as its cleaned form |
| Normalizer.CleanSymbol | bitget_api/clients/position.py:24-26 | the output holds only lower-case ASCII letters and digits. When "usdt" occurs in the cleaned string, the output has the cleaned string's length, ends in "usdt" and agrees with it before the last four characters. Otherwise it is the cleaned string |
| Normalizer.CleanedIsCanonical | bitget_api/clients/position.py:25 | lower-casing, stripping and keeping alphanumerics leaves only lower-case letters and digits |
| Normalizer.KeepAlnumCanonical | bitget_api/clients/position.py:25 | the alphanumeric filter of a string without capitals leaves only lower-case letters and digits |
| Normalizer.KeepAlnumOfAlnum | bitget_api/clients/position.py:25 | the alphanumeric filter leaves an all-alphanumeric string unchanged |
| Normalizer.CleanedOfCanonical | bitget_api/clients/position.py:25 | cleaning a string of lower-case letters and digits returns it unchanged |
| Normalizer.CleanSymbolIdempotent | bitget_api/clients/position.py:24-26 | cleaning an already-cleaned symbol returns it unchanged |
| Normalizer.KeepAlnumAppend | bitget_api/clients/position.py:25 | the alphanumeric filter distributes over concatenation |
| Normalizer.KeepAlnumTrimLeft | bitget_api/clients/position.py:25 | the filter gives the same result with or without leading whitespace |
| Normalizer.KeepAlnumTrimRight | bitget_api/clients/position.py:25 | the filter gives the same result with or without trailing whitespace |
| Normalizer.StripIsRedundant | bitget_api/clients/position.py:25 | the `strip()` before the filter never changes the cleaned symbol |
| Normalizer.ToMillis | bitget_api/clients/position.py:39-40 | a datetime becomes its epoch milliseconds and an integer is left alone |
| Normalizer.Truthy | bitget_api/clients/position.py:30 | a truthy bound is present, and every datetime bound is truthy |
| Normalizer.WholeDays | bitget_api/clients/position.py:35 | `timedelta.days` is the number of whole days in the span, rounded down |
| Normalizer.ValidateTimeRange | bitget_api/clients/position.py:28-41 | when either bound is missing or falsy (None, or the integer 0), both come back as given. Otherwise both come back as milliseconds with the end unmoved. For two datetimes, the start becomes end minus 90 days exactly when the span exceeds 90 whole days. An integer bound is never altered, and the presence of each bound is preserved |
| Normalizer.ResolvedRangeWithinLimit | bitget_api/clients/position.py:33-41 | for two datetimes, the resolved range ends where asked, starts no earlier than asked and spans at most 90 whole days. It spans exactly 90 days when it was clamped, and it is the caller's start otherwise |
| Normalizer.ValidateProductType | bitget_api/clients/position.py:43-47 | the argument is returned unchanged exactly when it is one of the six wire values, that is, the value of some `ProductType`. Otherwise the result is the invalid-product-type error |
| Normalizer.PutFacts | bitget_api/clients/position.py:50 | one keyword argument adds its own name exactly when its value is not None, mapped to its `str()`, and leaves every other name as it was |
| Normalizer.BuildParams | bitget_api/clients/position.py:49-50 | no keyword arguments give the empty map |
| Normalizer.BuildParamsKeys | bitget_api/clients/position.py:49-50 | the keys of the parameter map are exactly the argument names whose value is not None |
| Normalizer.BuildParamsSnoc | bitget_api/clients/position.py:50 | one more keyword argument adds its own entry on top of the map built from the others |
| Normalizer.BuildParamsValues | bitget_api/clients/position.py:49-50 | with distinct argument names, each supplied name maps to the `str()` of its value |
| Normalizer.ClampLimit | bitget_api/clients/position.py:93 | the page size is at most 100. It is 20 for None and for 0, capped to 100 above 100, and every other value, negative ones included, passes through |
| Client.AllPositionsParams | bitget_api/clients/position.py:54-57 | the all-positions map holds the product type, and the margin coin only when it is supplied |
| Client.SinglePositionParams | bitget_api/clients/position.py:68-72 | the single-position map holds exactly the symbol, the product type and the margin coin |
| Client.HistoricalHeadParams | bitget_api/clients/position.py:95-98 | the first three history arguments give the product type always, and the symbol and cursor exactly when each is not None, with its `str()` |
| Client.HistoricalTailParams | bitget_api/clients/position.py:99-101 | the two time bounds and the limit added on top keep the earlier entries, always add the limit, and add each bound exactly when it is not None |
| Client.HistoricalPositionParams | bitget_api/clients/position.py:95-102 | the history map always holds the product type and the limit. It holds each of the symbol, cursor, start and end exactly when that argument is not None, each with its `str()`, and nothing else |
| Client.PositionTierParams | bitget_api/clients/position.py:113-116 | the tier map holds exactly the symbol and the product type |
| Client.Present | bitget_api/clients/position.py:56 | an optional string is truthy exactly when it is supplied and non-empty; the same test guards the symbol at line 97 |
| Client.AllPositionsRequest | bitget_api/clients/position.py:52-58 | invalid product type gives an error. Otherwise a GET to the all-positions path, with the product type, plus the upper-cased margin coin exactly when it is truthy |
| Client.SinglePositionRequest | bitget_api/clients/position.py:66-73 | invalid product type gives an error. Otherwise a GET to the single-position path, with exactly the cleaned symbol, the product type and the upper-cased margin coin |
| Client.HistoricalPositionRequest | bitget_api/clients/position.py:81-103 | invalid product type gives an error. Otherwise a GET to the history path. The product type and the clamped limit are always present. The cleaned symbol is present exactly when the symbol is truthy, the cursor exactly when it is supplied, and each time bound exactly when it is supplied, with its resolved value |
| Client.PositionTierRequest | bitget_api/clients/position.py:111-117 | invalid product type gives an error. Otherwise a GET to the tier path, with exactly the cleaned symbol and the product type |
| Client.Lookup | bitget_api/clients/position.py:60-62 | `reply[key]` answers exactly when the reply is an object holding the key, and fails as a malformed response otherwise |
| Client.RecordPayloads | bitget_api/clients/position.py:63 | iterating the record list succeeds exactly for an array of objects the record's constructor accepts (giving their members, in order) and for an empty string or an empty object (giving nothing). A "self" key is refused by every record, and "__class__", "__weakref__" and "__dict__" by the records that keep every key. Anything else is malformed |
| Client.ParseEnvelope | bitget_api/clients/position.py:59-63 | the envelope is read exactly when code, msg, requestTime and data are present and the record list (`data`, or `data["list"]` for historical positions) is iterable into keyword dictionaries the record's constructor accepts. Its parts are those values |
| Client.NewPositions | bitget_api/clients/position.py:63 | one fresh PositionData per payload, in order, each built by the PositionData constructor |
| Client.NewHistoricalPositions | bitget_api/clients/position.py:108 | one fresh HistoricalPositionData per payload of `data["list"]`, in order |
| Client.NewPositionTiers | bitget_api/clients/position.py:122 | one fresh PositionTierData per payload, in order |
| Client.PositionClient.constructor | bitget_api/clients/position.py:19-21 | the client keeps the transport it is given |
| Client.PositionClient.Exchange | bitget_api/clients/position.py:58 | a failing transport gives its reason as the error, and otherwise the reply is read as an envelope |
| Client.PositionClient.GetAllPositions | bitget_api/clients/position.py:52-64 | an invalid product type fails before any request is built. Otherwise the result is the envelope of the all-positions request's reply, with PositionData records built from `data` |
| Client.PositionClient.GetSinglePosition | bitget_api/clients/position.py:66-79 | the same for the single-position request |
| Client.PositionClient.GetHistoricalPosition | bitget_api/clients/position.py:81-109 | the same for the history request, with HistoricalPositionData records built from `data["list"]` |
| Client.PositionClient.GetPositionTier | bitget_api/clients/position.py:111-123 | the same for the tier request, with PositionTierData records |
| Scenarios.SlashSpelling | bitget_api/clients/position.py:24-26 | "BTC/USDT" cleans to "btcusdt" |
| Scenarios.DashSpelling | bitget_api/clients/position.py:24-26 | "BTC-USDT" cleans to "btcusdt" |
| Scenarios.PaddedSpelling | bitget_api/clients/position.py:24-26 | " btcusdt " cleans to "btcusdt" |
| Scenarios.SpellingsAgree | bitget_api/clients/position.py:24-26 | "BTC/USDT", " btcusdt " and "BTC-USDT" all clean to "btcusdt" |
| Scenarios.LeadingUsdtRewritesTail | bitget_api/clients/position.py:26 | "USDTBTC" cleans to "usdusdt", because "usdt" occurs even though it is not at the end |
| Scenarios.BuildParamsExample | bitget_api/clients/position.py:49-50 | `a=1, b=None, c="x"` gives `{"a": "1", "c": "x"}` |
| Scenarios.ClampLimitExamples | bitget_api/clients/position.py:93 | None and 0 give 20, 50 stays 50, 500 gives 100, and -5 stays -5 |
| Scenarios.HistoricalDefaults | bitget_api/clients/position.py:83-102 | called with no arguments, the history request's parameters are exactly productType=USDT-FUTURES and limit=20 |
| Scenarios.LoneDatetimeBoundSentAsText | bitget_api/clients/position.py:30-31 | a datetime start with no end is sent as its `str()` text, which contains a colon |
| Scenarios.LoneEpochBound | bitget_api/clients/position.py:30-31 | the epoch sent alone reads "1970-01-01 00:00:00" |
| Scenarios.PairedDatetimeBoundsSentAsMillis | bitget_api/clients/position.py:33-41 | two datetime bounds are both sent as decimal milliseconds, with no colon, and the end is the caller's end |
| Scenarios.ZeroBoundStillSent | bitget_api/clients/position.py:30-31 | an integer 0 start is falsy, so the pair passes through and both bounds are still sent |
| Scenarios.PositionPayloadExample | bitget_api/models/position.py:48-53 | a PositionData payload without `grant` and with an undeclared key keeps only the declared keys it supplied, with None stored as `''` |
| Scenarios.HistoricalPayloadExample | bitget_api/models/position.py:75-77 | HistoricalPositionData keeps an undeclared key |
| Scenarios.SelfKeyRefused | bitget_api/models/position.py:48 | a reply item with a "self" key makes the record list malformed, for PositionData and for PositionTierData |
| Scenarios.ClassKeyOnlyRefusedByOpenRecords | bitget_api/models/position.py:75-77 | a "__class__" key is ignored by PositionData but makes a HistoricalPositionData list malformed |
| Scenarios.PositionTierPayloadExample | bitget_api/models/position.py:89-91 | PositionTierData keeps an undeclared key and stores None as `''` |

## Left out

- `RequestHandler.request` (HTTP, signing, network I/O) is not part of this model. The transport is a function parameter of `PositionClient`, from a request to either a parsed JSON reply or a failure reason.
- The `debug` flag of the client constructor is not modelled, because no behaviour here depends on it.
- `bitget_api/api.py` and `bitget_api/__init__.py` are not part of this model. They only wire the client up and declare exports.
- Exception message texts are not modelled. `InvalidProductTypeError`, the transport's exceptions and the `KeyError`/`TypeError` a malformed reply raises become the three `Failure` cases.
- Normalizer.ToMillis: `int(x.timestamp() * 1000)` is taken as exact. A datetime is its epoch milliseconds, so floating-point rounding and the local-timezone reading of naive datetimes are not modelled.
- Normalizer.ValidateTimeRange: subtracting a naive datetime from an aware one raises `TypeError` in Python. That case is not modelled, because every datetime is a plain instant here.
- Datetime.Text: renders the date and time on a UTC clock. It does not model the local timezone or a `+HH:MM` offset suffix for an aware datetime. Its contract states only what separates it from a number, not the full calendar text.
- PyText.Lower, PyText.Upper, PyText.IsAlnum, PyText.IsSpace: ASCII only. Python's Unicode case mapping and its Unicode alphanumeric and whitespace classes are not modelled, so a non-ASCII character is treated as non-alphanumeric and is dropped from a symbol.
- JSON numbers are integers. Floating-point values in a reply are not modelled, because the client never inspects them and only copies them into records.
- The record lists are built by methods with a loop, not by a list comprehension. A record is a class instance, and Dafny allocates objects only in methods.
- Client.RecordPayloads: a "__dict__" key whose value is an object replaces a keep-all record's attribute dictionary in Python instead of raising. The model treats every "__dict__" key as malformed, so it does not capture that replacement.
- Models.HistoricalPositionData.constructor, Models.PositionTierData.constructor, Models.PositionData.constructor: the keys Python refuses ("self", and for the keep-all records "__class__", "__weakref__" and "__dict__") are excluded by the precondition. The reply reader checks that precondition and reports a malformed response, where Python raises `TypeError` or `AttributeError`.
- Normalizer.BuildParams: the parameter map is a `map`, so the insertion order of the dict `_build_params` hands the transport is not modelled. Only the keys and their values are.
- Attribute order in a record and duplicate keys in a payload are not modelled. A payload is a map, as a Python `dict` is after parsing.

