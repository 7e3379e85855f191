/** The static tables of the Bitfinex client and the validation part of
    `_send_request`: checking the argument kinds, checking the command and
    symbol against the tables, building the URL and choosing which headers
    the request carries. The HTTP GET that follows is not part of it. */
module Routing {
  import opened Wrappers
  import opened Codec

  const API_DOMAIN := "api.bitfinex.com"
  const API_PROTOCOL := "https"
  const API_VERSION := "v1"
  const API_URL := API_PROTOCOL + "://" + API_DOMAIN + "/" + API_VERSION + "/"

  /** The check made when the class is defined: only http or https, and only version v1. */
  function BuildApiUrl(protocol: string, domain: string, version: string): (r: Result<string>)
    ensures r.Ok? <==> (protocol == "http" || protocol == "https") && version == "v1"
    ensures r.Ok? ==> r.value == protocol + "://" + domain + "/" + version + "/"
    ensures r.Err? ==> r.error == InvalidUrlComponent(protocol, version)
  {
    if protocol !in {"http", "https"} || version !in {"v1"} then
      Err(InvalidUrlComponent(protocol, version))
    else
      Ok(protocol + "://" + domain + "/" + version + "/")
  }

  lemma ApiUrlAccepted()
    ensures BuildApiUrl(API_PROTOCOL, API_DOMAIN, API_VERSION) == Ok(API_URL)
    ensures API_URL == "https://api.bitfinex.com/v1/"
  {
  }

  const CURRENCIES: set<string> := {"btc", "ltc", "usd"}
  const PAIRS: set<string> := {"btcusd", "ltcusd", "ltcbtc"}

  /** Commands that need a pair. */
  const PAIR_CMDS: set<string> := {"ticker", "today", "book", "trades", "order/new"}
  /** Commands that need a currency. */
  const CURRENCY_CMDS: set<string> := {"lendbook", "lends"}
  /** Commands that take no symbol. */
  const OTHER_CMDS: set<string> := {"symbols", "order/cancel", "order/status", "orders", "balances"}
  /** Commands that must be signed. */
  const AUTHED_CMDS: set<string> := {"order/new", "order/cancel", "order/status", "orders", "balances"}
  const COMMANDS: set<string> := (CURRENCY_CMDS + PAIR_CMDS) + OTHER_CMDS

  /** The three scope tables partition the command set, and every signed command is a command. */
  lemma ScopeTables()
    ensures PAIR_CMDS !! CURRENCY_CMDS && PAIR_CMDS !! OTHER_CMDS && CURRENCY_CMDS !! OTHER_CMDS
    ensures COMMANDS == PAIR_CMDS + CURRENCY_CMDS + OTHER_CMDS
    ensures AUTHED_CMDS <= COMMANDS
  {
  }

  datatype Scope = PairScoped | CurrencyScoped | Unscoped

  /** The one scope table a command belongs to. */
  function ScopeOf(command: string): (s: Scope)
    requires command in COMMANDS
    ensures s == PairScoped <==> command in PAIR_CMDS
    ensures s == CurrencyScoped <==> command in CURRENCY_CMDS
    ensures s == Unscoped <==> command in OTHER_CMDS
  {
    ScopeTables();
    if command in PAIR_CMDS then PairScoped
    else if command in CURRENCY_CMDS then CurrencyScoped
    else Unscoped
  }

  /** An argument of `_send_request` as Python sees its type: None, a str, a
      dict, or any other object (the client itself, for one). */
  datatype Arg = NoneArg | StrArg(s: string) | DictArg(d: map<string, Json>) | OtherArg

  /** The symbol argument as the error message reports it. */
  function SymbolOf(symbol: Arg): Option<string> {
    if symbol.StrArg? then Some(symbol.s) else None
  }

  /** The symbol a command's scope asks for: a currency, a pair, or anything at all. */
  predicate SymbolFits(scope: Scope, symbol: Arg) {
    match scope
    case Unscoped => true
    case CurrencyScoped => symbol.StrArg? && symbol.s in CURRENCIES
    case PairScoped => symbol.StrArg? && symbol.s in PAIRS
  }

  /** The headers a request gets: none, the encoded payload alone, or the
      encoded payload with key and signature. */
  datatype HeaderKind = NoHeaders | PayloadOnly(payload: map<string, Json>) | Signed(payload: map<string, Json>)

  datatype Route = Route(url: string, headers: HeaderKind)

  /** `_send_request` up to the GET: the argument kind checks, the table
      checks, the URL, and the header kind. */
  function RouteRequest(command: Arg, symbol: Arg, payload: Arg): (r: Result<Route>)
    ensures r.Ok? ==> command.StrArg? && command.s in COMMANDS
    ensures r.Ok? ==> (r.value.headers.NoHeaders? <==> payload.NoneArg?)
  {
    if !command.StrArg? then Err(BadCommandType)
    else if !symbol.NoneArg? && !symbol.StrArg? then Err(BadSymbolType)
    else if !payload.NoneArg? && !payload.DictArg? then Err(BadPayloadType)
    else
      var c := command.s;
      if c !in COMMANDS then Err(UnsupportedCommand(c))
      else
        var url :=
          if c in OTHER_CMDS then Ok(API_URL + c + "/")
          else if c in CURRENCY_CMDS && symbol.StrArg? && symbol.s in CURRENCIES then Ok(API_URL + c + "/" + symbol.s)
          else if c in PAIR_CMDS && symbol.StrArg? && symbol.s in PAIRS then Ok(API_URL + c + "/" + symbol.s)
          else Err(InvalidCombination(c, SymbolOf(symbol)));
        if url.Err? then Err(url.error)
        else
          // `payload is not {}` compares identities and always holds: an empty dict still gets headers
          var headers :=
            if payload.DictArg? then
              if c in AUTHED_CMDS then Signed(payload.d) else PayloadOnly(payload.d)
            else NoHeaders;
          Ok(Route(url.value, headers))
  }

  /** The argument kinds `_send_request` admits. */
  predicate WellTyped(symbol: Arg, payload: Arg) {
    (symbol.NoneArg? || symbol.StrArg?) && (payload.NoneArg? || payload.DictArg?)
  }

  /** A request is routed exactly when the arguments have the admitted kinds,
      the command is in the table, and the symbol fits the command's scope;
      the URL then ends in the symbol for scoped commands only. */
  lemma RouteMatchesScopes(c: string, symbol: Arg, payload: Arg)
    ensures RouteRequest(StrArg(c), symbol, payload).Ok?
            <==> WellTyped(symbol, payload) && c in COMMANDS && SymbolFits(ScopeOf(c), symbol)
    ensures RouteRequest(StrArg(c), symbol, payload).Ok? ==>
            RouteRequest(StrArg(c), symbol, payload).value.url ==
              if ScopeOf(c) == Unscoped then API_URL + c + "/" else API_URL + c + "/" + symbol.s
  {
    ScopeTables();
  }

  /** An unscoped command ignores whatever symbol it is given. */
  lemma UnscopedUrl(c: string, symbol: Arg, payload: Arg)
    requires c in OTHER_CMDS && WellTyped(symbol, payload)
    ensures RouteRequest(StrArg(c), symbol, payload).Ok?
    ensures RouteRequest(StrArg(c), symbol, payload).value.url == API_URL + c + "/"
  {
  }

  /** A currency command with a currency, or a pair command with a pair, gets the symbol appended. */
  lemma ScopedUrl(c: string, symbol: string, payload: Arg)
    requires (c in CURRENCY_CMDS && symbol in CURRENCIES) || (c in PAIR_CMDS && symbol in PAIRS)
    requires payload.NoneArg? || payload.DictArg?
    ensures RouteRequest(StrArg(c), StrArg(symbol), payload).Ok?
    ensures RouteRequest(StrArg(c), StrArg(symbol), payload).value.url == API_URL + c + "/" + symbol
  {
    ScopeTables();
  }

  /** What is refused, and with which error: argument kinds first, then the
      command table, then the command and symbol combination. */
  lemma Rejections(command: Arg, symbol: Arg, payload: Arg)
    ensures !command.StrArg? ==> RouteRequest(command, symbol, payload) == Err(BadCommandType)
    ensures command.StrArg? && !(symbol.NoneArg? || symbol.StrArg?) ==>
            RouteRequest(command, symbol, payload) == Err(BadSymbolType)
    ensures command.StrArg? && (symbol.NoneArg? || symbol.StrArg?) && !(payload.NoneArg? || payload.DictArg?) ==>
            RouteRequest(command, symbol, payload) == Err(BadPayloadType)
    ensures command.StrArg? && WellTyped(symbol, payload) && command.s !in COMMANDS ==>
            RouteRequest(command, symbol, payload) == Err(UnsupportedCommand(command.s))
    ensures command.StrArg? && WellTyped(symbol, payload) && command.s in COMMANDS
            && !SymbolFits(ScopeOf(command.s), symbol) ==>
            RouteRequest(command, symbol, payload) == Err(InvalidCombination(command.s, SymbolOf(symbol)))
  {
    ScopeTables();
  }

  /** A routed request carries headers exactly when a payload is given, an
      empty one included; they are signed exactly for the signed commands. */
  lemma HeaderSelection(c: string, symbol: Arg, payload: Arg)
    requires RouteRequest(StrArg(c), symbol, payload).Ok?
    ensures var h := RouteRequest(StrArg(c), symbol, payload).value.headers;
            && (payload.NoneArg? ==> h == NoHeaders)
            && (payload.DictArg? && c in AUTHED_CMDS ==> h == Signed(payload.d))
            && (payload.DictArg? && c !in AUTHED_CMDS ==> h == PayloadOnly(payload.d))
  {
  }

  /** `order_new` sends the pair-scoped "order/new" without a symbol, so it is always refused. */
  lemma OrderNewRejected(payload: map<string, Json>)
    ensures RouteRequest(StrArg("order/new"), NoneArg, DictArg(payload)) == Err(InvalidCombination("order/new", None))
  {
  }

  /** `ticker` passes the client object as the command, so the kind check refuses it. */
  lemma TickerRejected(pair: string)
    ensures RouteRequest(OtherArg, StrArg("ticker"), StrArg(pair)) == Err(BadCommandType)
  {
  }
}
