/** The payloads the public operations of the client build before dispatching:
    the market-data calls add a key only when its argument differs from the
    default; the signed calls always carry the request path and a nonce. */
module Payloads {
  import opened Codec
  import Routing

  /** The default of every limit argument. */
  const DEFAULT_LIMIT := 50

  /** The reference rule for optional arguments: keep an argument exactly when
      there is no default for it or it differs from its default. */
  function ElideDefaults(args: map<string, Json>, defaults: map<string, Json>): map<string, Json> {
    map k | k in args && (k !in defaults || args[k] != defaults[k]) :: args[k]
  }

  lemma ElisionRule(args: map<string, Json>, defaults: map<string, Json>, k: string)
    ensures k in ElideDefaults(args, defaults) <==> k in args && (k !in defaults || args[k] != defaults[k])
    ensures k in ElideDefaults(args, defaults) ==> ElideDefaults(args, defaults)[k] == args[k]
  {
  }

  /** With every argument at its default nothing is sent. */
  lemma AllDefaultsElided(defaults: map<string, Json>)
    ensures ElideDefaults(defaults, defaults) == map[]
  {
  }

  function BookArgs(limitBids: int, limitAsks: int): map<string, Json> {
    map["limit_bids" := Num(limitBids), "limit_asks" := Num(limitAsks)]
  }

  function HistoryArgs(limitKey: string, limit: int, timestamp: Json): map<string, Json> {
    map[limitKey := Num(limit), "timestamp" := timestamp]
  }

  /** The defaults of `orderbook` and `lendbook`: both limits 50. */
  function BookDefaults(): map<string, Json> {
    BookArgs(DEFAULT_LIMIT, DEFAULT_LIMIT)
  }

  /** The defaults of `trades` and `lends`: limit 50, no timestamp. */
  function HistoryDefaults(limitKey: string): map<string, Json> {
    HistoryArgs(limitKey, DEFAULT_LIMIT, Null)
  }

  /** The payload of `orderbook` and of `lendbook`. */
  method BookPayload(limitBids: int := 50, limitAsks: int := 50) returns (payload: map<string, Json>)
    ensures payload == ElideDefaults(BookArgs(limitBids, limitAsks), BookDefaults())
    ensures "limit_bids" in payload <==> limitBids != DEFAULT_LIMIT
    ensures "limit_asks" in payload <==> limitAsks != DEFAULT_LIMIT
    ensures payload.Keys <= {"limit_bids", "limit_asks"}
    ensures "limit_bids" in payload ==> payload["limit_bids"] == Num(limitBids)
    ensures "limit_asks" in payload ==> payload["limit_asks"] == Num(limitAsks)
  {
    payload := map[];
    if limitBids != DEFAULT_LIMIT {
      payload := payload["limit_bids" := Num(limitBids)];
    }
    if limitAsks != DEFAULT_LIMIT {
      payload := payload["limit_asks" := Num(limitAsks)];
    }
  }

  /** The payload of `trades` (limit key "limit_trades") and of `lends`
      (limit key "limit_lends"); a timestamp of None is left out. */
  method HistoryPayload(limitKey: string, limit: int := 50, timestamp: Json := Null) returns (payload: map<string, Json>)
    requires limitKey == "limit_trades" || limitKey == "limit_lends"
    ensures payload == ElideDefaults(HistoryArgs(limitKey, limit, timestamp), HistoryDefaults(limitKey))
    ensures limitKey in payload <==> limit != DEFAULT_LIMIT
    ensures "timestamp" in payload <==> !timestamp.Null?
    ensures payload.Keys <= {limitKey, "timestamp"}
    ensures limitKey in payload ==> payload[limitKey] == Num(limit)
    ensures "timestamp" in payload ==> payload["timestamp"] == timestamp
  {
    payload := map[];
    if limit != DEFAULT_LIMIT {
      payload := payload[limitKey := Num(limit)];
    }
    if !timestamp.Null? {
      payload := payload["timestamp" := timestamp];
    }
  }

  /** The value of the "request" key of a signed call: "/v1/" then the command. */
  function RequestPath(command: string): string {
    "/" + Routing.API_VERSION + "/" + command
  }

  /** The reference shape of a signed call's payload: its own fields, the
      request path of its command, and the nonce. */
  function Authenticated(command: string, nonce: string, fields: map<string, Json>): map<string, Json> {
    fields + map["request" := Str(RequestPath(command)), "nonce" := Str(nonce)]
  }

  lemma AuthenticatedKeys(command: string, nonce: string, fields: map<string, Json>)
    ensures Authenticated(command, nonce, fields).Keys == fields.Keys + {"request", "nonce"}
    ensures Authenticated(command, nonce, fields)["request"] == Str("/v1/" + command)
    ensures Authenticated(command, nonce, fields)["nonce"] == Str(nonce)
  {
  }

  function OrderFields(amount: Json, price: Json, side: string, tradeType: string,
                       pair: string, exchange: string, hidden: bool): map<string, Json> {
    map["symbol" := Str(pair), "amount" := amount, "price" := price, "side" := Str(side),
        "type" := Str(tradeType), "is_hidden" := Bool(hidden), "exchange" := Str(exchange)]
  }

  /** The payload of `order_new`; the nonce is passed in. */
  method OrderNewPayload(amount: Json, price: Json, side: string, tradeType: string,
                         pair: string, exchange: string, hidden: bool, nonce: string)
    returns (payload: map<string, Json>)
    ensures payload == Authenticated("order/new", nonce, OrderFields(amount, price, side, tradeType, pair, exchange, hidden))
    ensures payload.Keys == {"request", "nonce", "symbol", "amount", "price", "side", "type", "is_hidden", "exchange"}
    ensures payload["request"] == Str("/v1/order/new") && payload["nonce"] == Str(nonce)
  {
    payload := map[];
    payload := payload["request" := Str("/" + Routing.API_VERSION + "/order/new")];
    payload := payload["nonce" := Str(nonce)];
    payload := payload["symbol" := Str(pair)];
    payload := payload["amount" := amount];
    payload := payload["price" := price];
    payload := payload["side" := Str(side)];
    payload := payload["type" := Str(tradeType)];
    payload := payload["is_hidden" := Bool(hidden)];
    payload := payload["exchange" := Str(exchange)];
    OrderNewFields(amount, price, side, tradeType, pair, exchange, hidden, nonce, payload);
  }

  lemma OrderNewFields(amount: Json, price: Json, side: string, tradeType: string,
                       pair: string, exchange: string, hidden: bool, nonce: string, payload: map<string, Json>)
    requires payload.Keys == {"request", "nonce", "symbol", "amount", "price", "side", "type", "is_hidden", "exchange"}
    requires payload["request"] == Str(RequestPath("order/new")) && payload["nonce"] == Str(nonce)
    requires payload["symbol"] == Str(pair) && payload["amount"] == amount && payload["price"] == price
    requires payload["side"] == Str(side) && payload["type"] == Str(tradeType)
    requires payload["is_hidden"] == Bool(hidden) && payload["exchange"] == Str(exchange)
    ensures payload == Authenticated("order/new", nonce, OrderFields(amount, price, side, tradeType, pair, exchange, hidden))
  {
    var expected := Authenticated("order/new", nonce, OrderFields(amount, price, side, tradeType, pair, exchange, hidden));
    assert expected.Keys == payload.Keys;
    forall k | k in payload ensures payload[k] == expected[k] {
    }
  }

  /** The payload of `order_cancel` and of `order_status`. */
  method OrderIdPayload(command: string, orderId: Json, nonce: string) returns (payload: map<string, Json>)
    requires command == "order/cancel" || command == "order/status"
    ensures payload == Authenticated(command, nonce, map["order_id" := orderId])
    ensures payload.Keys == {"order_id", "request", "nonce"}
    ensures payload["request"] == Str("/v1/" + command) && payload["nonce"] == Str(nonce)
    ensures payload["order_id"] == orderId
  {
    payload := map[];
    payload := payload["order_id" := orderId];
    payload := payload["request" := Str("/" + Routing.API_VERSION + "/" + command)];
    payload := payload["nonce" := Str(nonce)];
  }

  /** The payload of `orders` and of `balances`: the request path and the nonce only. */
  method RequestPayload(command: string, nonce: string) returns (payload: map<string, Json>)
    requires command == "orders" || command == "balances"
    ensures payload == Authenticated(command, nonce, map[])
    ensures payload.Keys == {"request", "nonce"}
    ensures payload["request"] == Str("/v1/" + command) && payload["nonce"] == Str(nonce)
  {
    payload := map[];
    payload := payload["request" := Str("/" + Routing.API_VERSION + "/" + command)];
    payload := payload["nonce" := Str(nonce)];
  }
}
