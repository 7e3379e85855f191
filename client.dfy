/** The `Bitfinex` client object: its credentials, `_sign`, `_send_request`
    up to the GET it issues, the public operations, and the conversion of
    responses. A public operation yields the GET request it would issue, or
    the error raised before any request is made. */
module Client {
  import opened Wrappers
  import opened Codec
  import opened Routing
  import opened Signing
  import opened Payloads

  /** `requests.get(url, verify=True, headers=headers, timeout=1)`, not performed. */
  datatype HttpGet = HttpGet(url: string, headers: Option<Headers>, verify: bool, timeout: int)

  /** The names of the response fields converted to Decimal. */
  const JSON_DECIMAL_KEYS: set<string> :=
    {"amount", "ask", "available", "bid", "executed_amount", "high", "last_price", "low", "mid",
     "original_amount", "price", "remaining_amount", "timestamp", "volume", "rate", "amount_lent"}

  /** `bfx_decimalize`: the conversion applied to every response. */
  function BfxDecimalize(obj: Json): (r: Result<Json>)
    ensures !obj.Arr? && !obj.Obj? ==> r == Ok(obj)
    ensures obj.Arr? ==> (r.Ok? <==> forall i | 0 <= i < |obj.items| :: BfxDecimalize(obj.items[i]).Ok?)
    ensures obj.Arr? && r.Ok? ==>
              && r.value.Arr? && |r.value.items| == |obj.items|
              && forall i | 0 <= i < |obj.items| :: BfxDecimalize(obj.items[i]) == Ok(r.value.items[i])
    ensures obj.Obj? ==> (r.Ok? <==> forall k | k in obj.fields :: ConvertEntry(k, obj.fields[k], JSON_DECIMAL_KEYS).Ok?)
    ensures obj.Obj? && r.Ok? ==>
              && r.value.Obj? && r.value.fields.Keys == obj.fields.Keys
              && forall k | k in obj.fields :: ConvertEntry(k, obj.fields[k], JSON_DECIMAL_KEYS) == Ok(r.value.fields[k])
  {
    Decimalize(obj, JSON_DECIMAL_KEYS)
  }

  /** A ticker-like response of numerals converts to Decimals and back unchanged. */
  lemma BfxRoundTrip(response: map<string, Json>)
    requires FlatWithNumerals(response, JSON_DECIMAL_KEYS)
    ensures BfxDecimalize(Obj(response)).Ok?
    ensures Undecimalize(BfxDecimalize(Obj(response)).value) == Obj(response)
  {
    FlatRoundTrip(response, JSON_DECIMAL_KEYS);
  }

  class Bitfinex {
    const secret: Option<string>
    const key: Option<string>

    /** The credentials are stored as given; the pair-list check the
        constructor makes over the network is not part of the model. */
    constructor(secret: Option<string> := None, key: Option<string> := None)
      ensures this.secret == secret && this.key == key
    {
      this.secret := secret;
      this.key := key;
    }

    /** `_sign(should_sign, d)`: the payload header alone, or the key, the
        signature and the payload; signing without a secret raises. */
    function Sign(shouldSign: bool, d: map<string, Json>): (r: Result<Headers>)
      ensures r.Err? <==> shouldSign && secret.None?
      ensures r.Err? ==> r.error == MissingSecret
      ensures r.Ok? && !shouldSign ==> r.value.Keys == {PAYLOAD_HEADER}
      ensures r.Ok? && shouldSign ==> r.value.Keys == {API_KEY_HEADER, SIGNATURE_HEADER, PAYLOAD_HEADER}
      ensures r.Ok? ==> r.value[PAYLOAD_HEADER] == Computed(EncodedPayload(d))
      ensures r.Ok? && shouldSign ==> r.value[API_KEY_HEADER] == KeyValue(key)
      ensures r.Ok? && shouldSign ==> r.value[SIGNATURE_HEADER] == Computed(Signature(secret.value, EncodedPayload(d)))
    {
      var data := EncodedPayload(d);
      if shouldSign then
        if secret.None? then Err(MissingSecret)
        else Ok(map[API_KEY_HEADER := KeyValue(key),
                    SIGNATURE_HEADER := Computed(Signature(secret.value, data)),
                    PAYLOAD_HEADER := Computed(data)])
      else
        Ok(map[PAYLOAD_HEADER := Computed(data)])
    }

    /** `_send_request(command, symbol, payload)` up to the GET: the request
        it issues, or the error raised by validation or by signing. */
    function SendRequest(command: Arg, symbol: Arg := NoneArg, payload: Arg := NoneArg): (r: Result<HttpGet>)
      ensures RouteRequest(command, symbol, payload).Err? ==> r == Err(RouteRequest(command, symbol, payload).error)
      ensures RouteRequest(command, symbol, payload).Ok? ==>
                var route := RouteRequest(command, symbol, payload).value;
                && (r.Err? <==> route.headers.Signed? && secret.None?)
                && (r.Err? ==> r.error == MissingSecret)
                && (r.Ok? ==> r.value.url == route.url && r.value.verify && r.value.timeout == 1)
                && (r.Ok? ==> (r.value.headers.None? <==> route.headers.NoHeaders?))
                && (r.Ok? && !route.headers.NoHeaders? ==>
                      PAYLOAD_HEADER in r.value.headers.value && r.value.headers.value[PAYLOAD_HEADER] == Computed(EncodedPayload(route.headers.payload)))
                && (r.Ok? && route.headers.Signed? ==>
                      SIGNATURE_HEADER in r.value.headers.value && r.value.headers.value[SIGNATURE_HEADER] == Computed(Signature(secret.value, EncodedPayload(route.headers.payload))))
    {
      var route := RouteRequest(command, symbol, payload);
      if route.Err? then Err(route.error)
      else if route.value.headers.NoHeaders? then Ok(HttpGet(route.value.url, None, true, 1))
      else
        var headers := Sign(route.value.headers.Signed?, route.value.headers.payload);
        if headers.Err? then Err(headers.error)
        else Ok(HttpGet(route.value.url, Some(headers.value), true, 1))
    }

    /** For a routed request with a dict payload, an empty one included,
        the request is signed exactly when the command is a signed one: it
        then carries the key, the signature and the payload, and otherwise
        the payload alone. Only a signed request can fail, for want of a secret. */
    lemma SignedExactlyForAuthed(c: string, symbol: Arg, d: map<string, Json>)
      requires RouteRequest(StrArg(c), symbol, DictArg(d)).Ok?
      ensures SendRequest(StrArg(c), symbol, DictArg(d)).Err? <==> c in AUTHED_CMDS && secret.None?
      ensures var r := SendRequest(StrArg(c), symbol, DictArg(d));
              r.Ok? ==> && r.value.headers.Some?
                        && (c in AUTHED_CMDS ==> r.value.headers.value.Keys == {API_KEY_HEADER, SIGNATURE_HEADER, PAYLOAD_HEADER})
                        && (c !in AUTHED_CMDS ==> r.value.headers.value.Keys == {PAYLOAD_HEADER})
    {
      HeaderSelection(c, symbol, DictArg(d));
    }

    /** The signed and the unsigned header sets carry the same payload: the
        dict with its Decimals turned back into strings. */
    lemma SamePayloadEncoding(d: map<string, Json>)
      requires secret.Some?
      ensures CarriedPayload(Sign(true, d).value) == CarriedPayload(Sign(false, d).value)
      ensures CarriedPayload(Sign(false, d).value) == Some(Undecimalize(Obj(d)))
    {
    }

    /** `ticker(pair)` passes the client itself as the command, so it always raises. */
    method Ticker(pair: string := "btcusd") returns (r: Result<HttpGet>)
      ensures r == Err(BadCommandType)
    {
      r := SendRequest(OtherArg, StrArg("ticker"), StrArg(pair));
    }

    /** `today(pair)`: an unsigned GET without headers, for a known pair only. */
    method Today(pair: string := "btcusd") returns (r: Result<HttpGet>)
      ensures r.Ok? <==> pair in PAIRS
      ensures r.Err? ==> r.error == InvalidCombination("today", Some(pair))
      ensures r.Ok? ==> r.value == HttpGet(API_URL + "today/" + pair, None, true, 1)
    {
      r := SendRequest(StrArg("today"), StrArg(pair));
    }

    /** `orderbook(pair, limit_bids, limit_asks)`. */
    method Orderbook(pair: string := "btcusd", limitBids: int := 50, limitAsks: int := 50) returns (r: Result<HttpGet>)
      ensures r.Ok? <==> pair in PAIRS
      ensures r.Err? ==> r.error == InvalidCombination("book", Some(pair))
      ensures r.Ok? ==> r.value.url == API_URL + "book/" + pair
      ensures r.Ok? ==> (r.value.headers ==
                Some(map[PAYLOAD_HEADER := Computed(EncodedPayload(ElideDefaults(BookArgs(limitBids, limitAsks), BookDefaults())))]))
    {
      var payload := BookPayload(limitBids, limitAsks);
      r := SendRequest(StrArg("book"), StrArg(pair), DictArg(payload));
    }

    /** `trades(pair, limit_trades, timestamp)`. */
    method Trades(pair: string := "btcusd", limitTrades: int := 50, timestamp: Json := Null) returns (r: Result<HttpGet>)
      ensures r.Ok? <==> pair in PAIRS
      ensures r.Err? ==> r.error == InvalidCombination("trades", Some(pair))
      ensures r.Ok? ==> r.value.url == API_URL + "trades/" + pair
      ensures r.Ok? ==> (r.value.headers ==
                Some(map[PAYLOAD_HEADER := Computed(EncodedPayload(
                  ElideDefaults(HistoryArgs("limit_trades", limitTrades, timestamp), HistoryDefaults("limit_trades"))))]))
    {
      var payload := HistoryPayload("limit_trades", limitTrades, timestamp);
      r := SendRequest(StrArg("trades"), StrArg(pair), DictArg(payload));
    }

    /** `lendbook(currency, limit_bids, limit_asks)`. */
    method Lendbook(currency: string := "usd", limitBids: int := 50, limitAsks: int := 50) returns (r: Result<HttpGet>)
      ensures r.Ok? <==> currency in CURRENCIES
      ensures r.Err? ==> r.error == InvalidCombination("lendbook", Some(currency))
      ensures r.Ok? ==> r.value.url == API_URL + "lendbook/" + currency
      ensures r.Ok? ==> (r.value.headers ==
                Some(map[PAYLOAD_HEADER := Computed(EncodedPayload(ElideDefaults(BookArgs(limitBids, limitAsks), BookDefaults())))]))
    {
      var payload := BookPayload(limitBids, limitAsks);
      r := SendRequest(StrArg("lendbook"), StrArg(currency), DictArg(payload));
    }

    /** `lends(currency, limit_lends, timestamp)`. */
    method Lends(currency: string := "usd", limitLends: int := 50, timestamp: Json := Null) returns (r: Result<HttpGet>)
      ensures r.Ok? <==> currency in CURRENCIES
      ensures r.Err? ==> r.error == InvalidCombination("lends", Some(currency))
      ensures r.Ok? ==> r.value.url == API_URL + "lends/" + currency
      ensures r.Ok? ==> (r.value.headers ==
                Some(map[PAYLOAD_HEADER := Computed(EncodedPayload(
                  ElideDefaults(HistoryArgs("limit_lends", limitLends, timestamp), HistoryDefaults("limit_lends"))))]))
    {
      var payload := HistoryPayload("limit_lends", limitLends, timestamp);
      r := SendRequest(StrArg("lends"), StrArg(currency), DictArg(payload));
    }

    /** `pairs()`: the unscoped "symbols" command, without headers. */
    method Pairs() returns (r: Result<HttpGet>)
      ensures r == Ok(HttpGet(API_URL + "symbols/", None, true, 1))
    {
      r := SendRequest(StrArg("symbols"));
      assert API_URL + "symbols" + "/" == API_URL + "symbols/";
    }

    /** `order_new(...)` dispatches the pair-scoped "order/new" without a
        symbol, so validation refuses it before anything is signed or sent. */
    method OrderNew(amount: Json, price: Json, side: string, tradeType: string, pair: string := "btcusd",
                    exchange: string := "all", hidden: bool := false, nonce: string)
      returns (r: Result<HttpGet>)
      ensures r == Err(InvalidCombination("order/new", None))
    {
      var payload := OrderNewPayload(amount, price, side, tradeType, pair, exchange, hidden, nonce);
      OrderNewRejected(payload);
      r := SendRequest(StrArg("order/new"), payload := DictArg(payload));
    }

    /** `ticker(pair)` as evidently intended, with "ticker" as the command and
        the pair as the symbol: an unsigned GET without headers. */
    method TickerIntended(pair: string := "btcusd") returns (r: Result<HttpGet>)
      ensures r.Ok? <==> pair in PAIRS
      ensures r.Err? ==> r.error == InvalidCombination("ticker", Some(pair))
      ensures r.Ok? ==> r.value == HttpGet(API_URL + "ticker/" + pair, None, true, 1)
    {
      r := SendRequest(StrArg("ticker"), StrArg(pair));
    }

    /** `order_new(...)` corrected along one reading, the pair passed as the
        symbol of the pair-scoped "order/new" (the other reading moves the
        command to the unscoped table and keeps the pair in the payload only):
        a signed GET on the pair's URL, refused only for an unknown pair or a
        missing secret. */
    method OrderNewIntended(amount: Json, price: Json, side: string, tradeType: string, pair: string := "btcusd",
                            exchange: string := "all", hidden: bool := false, nonce: string)
      returns (r: Result<HttpGet>)
      ensures r.Ok? <==> pair in PAIRS && secret.Some?
      ensures pair !in PAIRS ==> r == Err(InvalidCombination("order/new", Some(pair)))
      ensures pair in PAIRS && secret.None? ==> r == Err(MissingSecret)
      ensures r.Ok? ==> r.value == HttpGet(API_URL + "order/new/" + pair,
                                           Some(SignedHeaders(Authenticated("order/new", nonce,
                                             OrderFields(amount, price, side, tradeType, pair, exchange, hidden)))), true, 1)
    {
      var payload := OrderNewPayload(amount, price, side, tradeType, pair, exchange, hidden, nonce);
      if pair in PAIRS {
        OrderNewRoute(pair, payload);
        SignedSent("order/new", StrArg(pair), API_URL + "order/new/" + pair, payload);
      } else {
        Rejections(StrArg("order/new"), StrArg(pair), DictArg(payload));
      }
      r := SendRequest(StrArg("order/new"), StrArg(pair), DictArg(payload));
    }

    lemma OrderNewRoute(pair: string, d: map<string, Json>)
      requires pair in PAIRS
      ensures RouteRequest(StrArg("order/new"), StrArg(pair), DictArg(d)) == Ok(Route(API_URL + "order/new/" + pair, Signed(d)))
    {
      ScopedUrl("order/new", pair, DictArg(d));
      assert API_URL + "order/new" + "/" + pair == API_URL + "order/new/" + pair;
      HeaderSelection("order/new", StrArg(pair), DictArg(d));
    }

    lemma SignedSent(c: string, symbol: Arg, url: string, d: map<string, Json>)
      requires RouteRequest(StrArg(c), symbol, DictArg(d)) == Ok(Route(url, Signed(d)))
      ensures SendRequest(StrArg(c), symbol, DictArg(d)) ==
              if secret.Some? then Ok(HttpGet(url, Some(SignedHeaders(d)), true, 1)) else Err(MissingSecret)
    {
      if secret.Some? {
        assert Sign(true, d) == Ok(SignedHeaders(d));
      }
    }

    /** The headers of a signed request with payload `p`. */
    function SignedHeaders(p: map<string, Json>): Headers
      requires secret.Some?
    {
      map[API_KEY_HEADER := KeyValue(key),
          SIGNATURE_HEADER := Computed(Signature(secret.value, EncodedPayload(p))),
          PAYLOAD_HEADER := Computed(EncodedPayload(p))]
    }

    /** `order_cancel(order_id)`. */
    method OrderCancel(orderId: Json, nonce: string) returns (r: Result<HttpGet>)
      ensures r.Ok? <==> secret.Some?
      ensures r.Err? ==> r.error == MissingSecret
      ensures r.Ok? ==> r.value == HttpGet(API_URL + "order/cancel/",
                                           Some(SignedHeaders(Authenticated("order/cancel", nonce, map["order_id" := orderId]))), true, 1)
    {
      var payload := OrderIdPayload("order/cancel", orderId, nonce);
      r := SendRequest(StrArg("order/cancel"), payload := DictArg(payload));
    }

    /** `order_status(order_id)`. */
    method OrderStatus(orderId: Json, nonce: string) returns (r: Result<HttpGet>)
      ensures r.Ok? <==> secret.Some?
      ensures r.Err? ==> r.error == MissingSecret
      ensures r.Ok? ==> r.value == HttpGet(API_URL + "order/status/",
                                           Some(SignedHeaders(Authenticated("order/status", nonce, map["order_id" := orderId]))), true, 1)
    {
      var payload := OrderIdPayload("order/status", orderId, nonce);
      r := SendRequest(StrArg("order/status"), payload := DictArg(payload));
    }

    /** `orders()`. */
    method Orders(nonce: string) returns (r: Result<HttpGet>)
      ensures r.Ok? <==> secret.Some?
      ensures r.Err? ==> r.error == MissingSecret
      ensures r.Ok? ==> r.value == HttpGet(API_URL + "orders/", Some(SignedHeaders(Authenticated("orders", nonce, map[]))), true, 1)
    {
      var payload := RequestPayload("orders", nonce);
      r := SendRequest(StrArg("orders"), payload := DictArg(payload));
    }

    /** `balances()`. */
    method Balances(nonce: string) returns (r: Result<HttpGet>)
      ensures r.Ok? <==> secret.Some?
      ensures r.Err? ==> r.error == MissingSecret
      ensures r.Ok? ==> r.value == HttpGet(API_URL + "balances/", Some(SignedHeaders(Authenticated("balances", nonce, map[]))), true, 1)
    {
      var payload := RequestPayload("balances", nonce);
      r := SendRequest(StrArg("balances"), payload := DictArg(payload));
    }
  }
}
