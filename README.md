# Bitfinex REST client (`api.py`) in Dafny

This project models the request side of the `Bitfinex` client class and its
two response converters. It covers:

- the static command tables and the API URL;
- `_send_request` up to the HTTP GET it would issue: argument-kind checks,
  table checks, URL construction and header selection;
- the payload each public operation builds;
- the header set `_sign` returns;
- `decimalize` and `undecimalize`, with Python's `Decimal(str)` and
  `str(Decimal)` for fixed-point numerals.

A public operation is modelled as a method. It returns either the GET request
(`HttpGet`: URL, headers, `verify=True`, `timeout=1`) or the error raised
before any request is made. JSON serialisation, UTF-8 encoding, Base64 and
HMAC-SHA384 are uninterpreted. Each one is a constructor of `Signing.Term`, so
a header records which inputs went through which primitive. The nonce
(`str(time.time() * 100000)` in the source) is a string parameter.

Modules, in dependency order:

- `Wrappers` (`wrappers.dfy`): `Option`, `Result` and the error kinds.
- `Decimals` (`decimals.dfy`): finite decimals, parsing, `str()`, and the
  numeral round trip.
- `Codec` (`codec.dfy`): JSON-like values, `decimalize`, `undecimalize` and
  their lemmas.
- `Routing` (`routing.dfy`): tables, URL and header kind.
- `Signing` (`signing.dfy`): header names and symbolic header values.
- `Payloads` (`payloads.dfy`): reference definitions of the payloads and the
  methods that build them.
- `Client` (`client.dfy`): the `Bitfinex` class, with `Sign`, `SendRequest` and
  the public operations.

The source behaves in some ways that a reader of its comments may not expect.
The model follows the code:

- `ticker` passes the client object itself as the command, so it is always
  refused.
- `order_new` dispatches the pair-scoped command `order/new` without a symbol,
  so it is always refused before anything is signed.
- In `payload is not {}`, the `{}` is a fresh dict, so the test always holds.
  Every operation that builds a payload dict therefore sends headers, even
  when the dict is empty.
- The docstrings of `decimalize` and `undecimalize` (api.py:375, api.py:393)
  speak of "JSON objects" in general, but neither walks a whole document.
  `decimalize` maps lists element by element and, in a dict, converts the
  values held directly and the lists held; it does not look into a nested
  dict. What a dict entry becomes depends on its key and value:
  - a dict under a key outside the key set is kept as it is, numerals and all
    (`Codec.NestedDictKept`);
  - a dict under a key in the key set is handed to `Decimal(...)`, which raises;
  - any str, int or bool under a key in the key set goes through `Decimal(...)`,
    so an int becomes a Decimal too.
- `undecimalize` maps lists element by element and, in a dict, converts only
  the Decimals held directly. A Decimal inside a list inside a dict, or at the
  top level, is kept (`Codec.NestedDecimalKept`).

## Model

| member | source | states |
|---|---|---|
| Routing.BuildApiUrl | api.py:63-69 | the URL is accepted exactly for protocol http or https and version v1; it is protocol "://" domain "/" version "/"; otherwise the error names the protocol and version |
| Routing.ApiUrlAccepted | api.py:63-69 | the class constants pass the check, and API_URL is "https://api.bitfinex.com/v1/" |
| Routing.ScopeTables | api.py:85-97 | the pair, currency and other command tables are pairwise disjoint; their union is COMMANDS; every signed command is in COMMANDS |
| Routing.ScopeOf | api.py:85-97 | each command lies in exactly one scope table, and its scope names that table (all three directions as iff) |
| Routing.RouteRequest | api.py:115-151 | a routed request has a str command that is in COMMANDS; it carries headers exactly when a payload dict was given |
| Routing.RouteMatchesScopes | api.py:118-141 | routing succeeds iff all four hold: the symbol is None or str, the payload is None or dict, the command is in the table, and the symbol fits the command's scope; the URL is API_URL + command + "/" for unscoped commands and + "/" + symbol for scoped ones |
| Routing.UnscopedUrl | api.py:130-132 | an unscoped command is routed whatever str or None symbol it gets, and its URL ignores the symbol |
| Routing.ScopedUrl | api.py:133-136 | a currency command with a known currency, or a pair command with a known pair, is routed to a URL ending in the symbol |
| Routing.Rejections | api.py:118-141 | each refusal comes with its error, in the source's order: non-str command; then a symbol that is not str or None; then a payload that is not a dict or None; then an unknown command; then a symbol that does not fit the scope |
| Routing.HeaderSelection | api.py:143-151 | no payload gives no headers; a dict payload, an empty one included, gives signed headers for the signed commands and payload-only headers for the others |
| Routing.OrderNewRejected | api.py:268-295 | "order/new" with no symbol is refused as an invalid combination whatever the payload |
| Routing.TickerRejected | api.py:164-168 | the call `ticker` makes is refused as a non-str command |
| Signing.KeyValue | api.py:360 | the API key header is the client's key as text when it has one, and None exactly when it has none |
| Signing.EncodedPayload | api.py:348-349 | the payload header reads back as the dict with its Decimals turned into strings |
| Signing.EncodingDeterminedByStrings | api.py:348-349 | two payloads are encoded alike exactly when they agree after `undecimalize` |
| Signing.Signature | api.py:356-357 | the signature is HMAC-SHA384 hex digest keyed with the UTF-8 secret over the encoded payload |
| Payloads.ElisionRule | api.py:193-197 | a key is in the elided payload iff it is an argument with no default or differing from its default, and it then has the argument's value |
| Payloads.AllDefaultsElided | api.py:193-197 | with every argument at its default the payload is empty |
| Payloads.BookPayload | api.py:193-198 | the orderbook/lendbook payload equals the elided argument map; "limit_bids" and "limit_asks" are present iff they differ from 50 and then hold the argument; no other key |
| Payloads.HistoryPayload | api.py:214-219 | the trades/lends payload equals the elided argument map; the limit key is present iff the limit differs from 50; "timestamp" is present iff it is not None; the values are the arguments; no other key |
| Payloads.AuthenticatedKeys | api.py:283-284 | a signed payload has its own fields plus "request" = "/v1/" + command and "nonce" |
| Payloads.OrderNewPayload | api.py:282-293 | the order payload is the order fields with request path and nonce; it has exactly nine keys; request is "/v1/order/new" |
| Payloads.OrderIdPayload | api.py:307-310 | the cancel/status payload is exactly order_id, request = "/v1/" + command, and nonce |
| Payloads.RequestPayload | api.py:331-333 | the orders/balances payload is exactly request = "/v1/" + command and nonce |
| Client.Bitfinex.constructor | api.py:103-105 | secret and key are stored as given |
| Client.Bitfinex.Sign | api.py:347-367 | it fails iff signing is asked for without a secret; signed headers are exactly the key, signature and payload headers; unsigned headers are exactly the payload header; the payload header is the Base64 of the JSON of the undecimalized dict in both cases; the key header is the key; the signature is HMAC-SHA384 keyed with the secret over that same encoded payload |
| Client.Bitfinex.SendRequest | api.py:115-153 | validation errors pass through unchanged; a routed request fails only when it must be signed and there is no secret; it goes to the routed URL with verify true and timeout 1; it has no headers exactly for no payload; the payload and signature headers are over the routed payload |
| Client.Bitfinex.SignedExactlyForAuthed | api.py:143-151 | for a routed request with a dict payload, an empty one included: it fails iff the command is signed and there is no secret; otherwise headers are present, with three keys for signed commands and only the payload header for the others |
| Client.Bitfinex.SamePayloadEncoding | api.py:348-349 | the signed and the unsigned header sets carry the same payload: the dict with its Decimals turned back into strings |
| Client.Bitfinex.Ticker | api.py:164-168 | `ticker` always fails with the bad-command-type error, whatever the pair |
| Client.Bitfinex.Today | api.py:170-174 | succeeds iff the pair is known; the URL is API_URL + "today/" + pair, with no headers; otherwise an invalid combination error naming the pair |
| Client.Bitfinex.Orderbook | api.py:176-198 | succeeds iff the pair is known, else an invalid combination error naming "book" and the pair; URL ".../book/" + pair; the headers are only the payload header, over the elided limit map |
| Client.Bitfinex.Trades | api.py:200-219 | succeeds iff the pair is known, else an invalid combination error naming "trades" and the pair; URL ".../trades/" + pair; the headers are only the payload header, over the elided limit/timestamp map |
| Client.Bitfinex.Lendbook | api.py:221-242 | succeeds iff the currency is known, else an invalid combination error naming "lendbook" and the currency; URL ".../lendbook/" + currency; the headers are only the payload header, over the elided limit map |
| Client.Bitfinex.Lends | api.py:244-262 | succeeds iff the currency is known, else an invalid combination error naming "lends" and the currency; URL ".../lends/" + currency; the headers are only the payload header, over the elided limit/timestamp map |
| Client.Bitfinex.Pairs | api.py:264-266 | always yields the GET of API_URL + "symbols/", with no headers |
| Client.Bitfinex.OrderNew | api.py:268-295 | `order_new` always fails with an invalid combination error for "order/new" with no symbol |
| Client.Bitfinex.OrderCancel | api.py:300-311 | succeeds iff a secret is set, else the missing-secret error; the GET of ".../order/cancel/" is signed over exactly order_id, request and nonce |
| Client.Bitfinex.OrderStatus | api.py:313-324 | succeeds iff a secret is set, else the missing-secret error; the GET of ".../order/status/" is signed over exactly order_id, request and nonce |
| Client.Bitfinex.Orders | api.py:326-334 | succeeds iff a secret is set, else the missing-secret error; the GET of ".../orders/" is signed over exactly request and nonce |
| Client.Bitfinex.Balances | api.py:336-344 | succeeds iff a secret is set, else the missing-secret error; the GET of ".../balances/" is signed over exactly request and nonce |
| Client.Bitfinex.TickerIntended | api.py:164-168 | with the pair as symbol: succeeds iff the pair is known; the URL is ".../ticker/" + pair, with no headers |
| Client.Bitfinex.OrderNewIntended | api.py:268-295 | with the pair as symbol: fails for an unknown pair with an error naming it; with a known pair, fails iff there is no secret; otherwise it is the signed GET of ".../order/new/" + pair over the nine-key order payload |
| Client.BfxDecimalize | api.py:370-371 | a scalar response is returned unchanged; a list response succeeds iff every element does and is converted element by element; a dict response succeeds iff every entry converts under the sixteen decimal keys, and each entry becomes its converted value |
| Client.BfxRoundTrip | api.py:99-101 | a flat response whose numeric fields are canonical numerals comes back unchanged through conversion and `undecimalize` |
| Codec.ToDecimal | api.py:387 | `Decimal(val)` succeeds iff the value is not a dict and, for a str, parses; a str gives its parsed Decimal, an int `Decimal(n)`, a bool `Decimal(1)` or `Decimal(0)`, a Decimal itself; a new Decimal is well formed |
| Codec.Decimalize | api.py:374-389 | scalars are returned unchanged; a list succeeds iff every element does, and each element becomes its own conversion; a dict succeeds iff every entry does, keeps its key set, and each entry becomes its `to_decimal` conversion |
| Codec.ConvertEntry | api.py:381-388 | None stays None; a list is decimalized as a whole value; a value under a key outside the key set, dicts included, is kept; under a key in the set it goes through `Decimal(val)` |
| Codec.Undecimalize | api.py:392-404 | scalars are unchanged; a list is mapped element by element; a dict keeps its key set, each Decimal it holds directly becomes `str` of it and every other value is kept, so no Decimal is held directly afterwards |
| Codec.FromDecimal | api.py:400-403 | a Decimal becomes `str` of it; any other value is returned unchanged |
| Codec.DecimalizeIdempotent | api.py:374-389 | converting a converted value again changes nothing |
| Codec.UndecimalizeIdempotent | api.py:392-404 | undoing twice is undoing once |
| Codec.FlatRoundTrip | api.py:374-404 | a dict with no list or Decimal values, whose numeric keys hold None or canonical numerals, converts without error and `undecimalize` restores it exactly |
| Codec.FlatListRoundTrip | api.py:374-404 | the same holds for a list of such dicts |
| Codec.NestedDictKept | api.py:381-389 | a dict under a key outside the key set is not searched; its numerals stay strings |
| Codec.NestedDecimalKept | api.py:394-404 | a Decimal inside a list held by a dict survives `undecimalize` |
| Decimals.FromString | api.py:387 | parsing succeeds iff the parts before and after the first point are all digits with at least one digit in all; the result is well formed, its coefficient is the digits without leading zeros, its exponent minus the fraction length, and it is negative iff the text starts with '-' |
| Decimals.FromStringValue | api.py:387 | the parsed coefficient denotes the same number as all the numeral's digits, so `Decimal(s)` has the value written |
| Decimals.FromInt | api.py:387 | `Decimal(n)` is well formed, has exponent 0 and is negative iff n is |
| Decimals.FromIntValue | api.py:387 | `Decimal(n)` denotes n |
| Decimals.IntToString | api.py:387-402 | `str(Decimal(n))` is `str(n)` |
| Decimals.ToString | api.py:402 | `str(val)` is never empty, and for a well-formed Decimal starts with '-' iff it is negative |
| Decimals.NonCanonicalExamples | api.py:387 | "+5" and "007" parse to 5, and ".5" parses to 5E-1, which prints as "0.5" |
| Decimals.StringRoundTrip | api.py:387-402 | for every canonical numeral s, `str(Decimal(s)) == s` |
| Decimals.TrailingPointExample | api.py:387-402 | `str(Decimal("1."))` is "1" |
| Decimals.ScientificExample | api.py:402 | `str` of 10^-7 is "1E-7" |
| Decimals.RefusedExamples | api.py:387 | "1,5", "." and "" are not decimal numerals |

## Findings

| source | as written | input that shows it | evidently intended | confidence | as-written member | corrected member |
|---|---|---|---|---|---|---|
| api.py:168 | `self._send_request(self, 'ticker', pair)` passes the client as the command | `ticker("btcusd")` is refused as a non-str command | `self._send_request('ticker', pair)`, a GET of ".../ticker/btcusd" | high (not executed) | Client.Bitfinex.Ticker | Client.Bitfinex.TickerIntended |
| api.py:295 | `self._send_request('order/new', payload=payload)` dispatches a pair command with no symbol | `order_new(1, 1, "buy", "limit")` is refused as "order/new" with symbol None | one reading: `self._send_request('order/new', pair, payload)`, a signed GET of ".../order/new/btcusd", as the table at api.py:88-89 puts "order/new" among the pair commands. The other reading: the command belongs among the unscoped commands, so the URL is ".../order/new/" with the pair only in the payload's "symbol"; the signed request path (api.py:283) and the commented-out POST (api.py:297) both point to this URL. The model corrects along the first reading | high that the call is refused; the intended fix is one of two readings (not executed) | Client.Bitfinex.OrderNew | Client.Bitfinex.OrderNewIntended |

## Left out

- HTTP transport: the GET itself, `response.json()`, the `except` branches that log and return `{}`, and logging. Each operation yields the GET it would issue. The `{}` degradation and the conversion of a real response are therefore not modelled, only `bfx_decimalize` on a given value.
- json.dumps, `str.encode('utf-8')`, `base64.standard_b64encode` and HMAC-SHA384 are uninterpreted constructors. Their outputs are not modelled. Neither is json.dumps raising TypeError on any value it cannot serialise: for example, a Decimal inside a list or a nested dict of a payload, such as an `order_id` given as a dict that holds a Decimal.
- The `print` before `_sign` raises for a missing secret (api.py:354) is not modelled; only the raise is.
- A `Json.Dec` value may hold a malformed Decimal; `Decimals.Valid` states well-formedness, and every Decimal the model creates is proved well formed.
- The nonce clock (`time.time()`) is a string parameter of the signed operations.
- The constructor's pair-list check (a network call to `pairs()` and a logged warning) is not modelled.
- `Decimal(str)` accepts only an optional sign, digits and an optional point, with at least one digit. Several inputs are refused in the model although Python accepts them: exponents, surrounding whitespace, underscores, NaN, Infinity and non-ASCII digits. Floats are not modelled; JSON numbers are integers.
- Codec.ToDecimal: the two ways `Decimal(val)` fails, a string that does not parse (InvalidOperation) and a dict (TypeError), are one error kind, NotConvertible.
- Codec.Undecimalize: on a list it yields a list, as Python 2's `map` does; Python 3 yields a lazy map object.
- Routing.RouteRequest: where a failing check's error message concatenates None or a non-str into a string, Python raises TypeError instead of ValueError. The model reports the check's own error. This affects the bad-argument messages and an invalid combination with no symbol.
- A header value holds the key as a str or None; any other Python object given as key or secret is not modelled.
- Dict ordering, and therefore the exact JSON text of a payload, is not modelled.
- `main()`, `_ACCT_TYPES` and the commented-out `BFXLoanAPI` are outside the model.
