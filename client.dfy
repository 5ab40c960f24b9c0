/** The futures client's request shaping: the checks run before an order is sent, the symbol-filter lookup,
    the parameters of each order type, and the order-id rule of cancel and query. Signing and HTTP are
    replaced by the abstract exchange of module Gateway. */
module Client {
  import opened Basics
  import opened Text
  import opened Validator
  import opened Gateway

  /** The configured position side used when a request names none (BINANCE_POSITION_SIDE, "BOTH" by default). */
  datatype Config = Config(defaultPositionSide: string)

  datatype ClientFailure = Transport(message: string) | SymbolNotFound(symbol: string) | OrderIdMissing

  /** The errors a client call can raise: a ValidationError, a BinanceClientError, or a reply without the
      shape the caller indexes (a KeyError or AttributeError in the original, caught by no handler). */
  datatype Error = Invalid(reason: ValidationError) | ClientError(failure: ClientFailure) | MalformedReply

  /** `_request`: send a request; a failed reply raises, any other reply is returned. */
  function Perform(ex: Exchange, log: Log, req: Request): (res: (Log, Result<Reply, Error>))
    ensures res.0 == log + [Call(req, ex(log, req))]
    ensures ex(log, req).Failure? ==> res.1 == Err(ClientError(Transport(ex(log, req).message)))
    ensures !ex(log, req).Failure? ==> res.1 == Ok(ex(log, req))
  {
    var (log', reply) := Send(ex, log, req);
    (log', if reply.Failure? then Err(ClientError(Transport(reply.message))) else Ok(reply))
  }

  /** Index of the first entry whose `symbol` is `symbol`, or |symbols| when there is none. */
  function FindSymbol(symbols: seq<SymbolEntry>, symbol: string): (i: nat)
    ensures i <= |symbols|
    ensures i < |symbols| ==> symbols[i].symbol == Some(symbol)
    ensures forall j | 0 <= j < i :: symbols[j].symbol != Some(symbol)
  {
    if symbols == [] then 0
    else if symbols[0].symbol == Some(symbol) then 0
    else 1 + FindSymbol(symbols[1..], symbol)
  }

  /** The exchangeInfo request `get_exchange_info` sends: the upper-cased symbol, unless it is empty. */
  function InfoRequest(symbol: string): Request {
    ExchangeInfo(if symbol == "" then None else Some(Upper(symbol)))
  }

  /** `get_symbol_filters`: one exchangeInfo request, then the first entry for the upper-cased symbol. A
      dictionary reply without `symbols` (an order-shaped reply) has none; a list-shaped reply has no `get`. */
  function GetSymbolFilters(ex: Exchange, log: Log, symbol: string): (res: (Log, Result<SymbolEntry, Error>))
    ensures res.0 == log + [Call(InfoRequest(symbol), ex(log, InfoRequest(symbol)))]
    ensures var reply := ex(log, InfoRequest(symbol));
            (reply.Failure? ==> res.1 == Err(ClientError(Transport(reply.message)))) &&
            (reply.OrderList? ==> res.1 == Err(MalformedReply)) &&
            (reply.Order? ==> res.1 == Err(ClientError(SymbolNotFound(Upper(symbol))))) &&
            (reply.Info? && (forall i | 0 <= i < |reply.symbols| :: reply.symbols[i].symbol != Some(Upper(symbol))) ==>
               res.1 == Err(ClientError(SymbolNotFound(Upper(symbol))))) &&
            (res.1.Ok? ==>
               reply.Info? &&
               (exists i | 0 <= i < |reply.symbols| ::
                  reply.symbols[i] == res.1.value && res.1.value.symbol == Some(Upper(symbol)) &&
                  forall j | 0 <= j < i :: reply.symbols[j].symbol != Some(Upper(symbol))))
  {
    var (log', r) := Perform(ex, log, InfoRequest(symbol));
    (log',
     match r
     case Err(e) => Err(e)
     case Ok(reply) =>
       if reply.OrderList? then Err(MalformedReply)
       else
         var symbols := if reply.Info? then reply.symbols else [];
         var i := FindSymbol(symbols, Upper(symbol));
         if i < |symbols| then Ok(symbols[i]) else Err(ClientError(SymbolNotFound(Upper(symbol)))))
  }

  /** The checks `_validate_and_enrich` runs before it looks anything up, in their order. */
  function BasicChecks(symbol: string, side: string, qty: real, price: Option<real>): (r: Outcome<ValidationError>)
    ensures r == Pass <==> ValidateSymbol(symbol) == Pass && ValidateSide(side) == Pass && qty > 0.0 &&
                           (price.Some? ==> price.value > 0.0)
    ensures ValidateSymbol(symbol) != Pass ==> r == ValidateSymbol(symbol)
    ensures ValidateSymbol(symbol) == Pass && ValidateSide(side) != Pass ==> r == ValidateSide(side)
    ensures ValidateSymbol(symbol) == Pass && ValidateSide(side) == Pass && qty <= 0.0 ==>
              r == Fail(NotPositive("quantity"))
    ensures ValidateSymbol(symbol) == Pass && ValidateSide(side) == Pass && qty > 0.0 && price.Some? && price.value <= 0.0 ==>
              r == Fail(NotPositive("price"))
  {
    if ValidateSymbol(symbol) != Pass then ValidateSymbol(symbol)
    else if ValidateSide(side) != Pass then ValidateSide(side)
    else if ValidatePositive("quantity", qty) != Pass then ValidatePositive("quantity", qty)
    else if price.Some? then ValidatePositive("price", price.value)
    else Pass
  }

  /** `_validate_and_enrich`: basic checks, then the filter lookup, then the filter checks. */
  function ValidateAndEnrich(ex: Exchange, log: Log, symbol: string, side: string, qty: real, price: Option<real>)
    : (res: (Log, Result<SymbolEntry, Error>))
    ensures BasicChecks(symbol, side, qty, price) != Pass ==>
              res == (log, Err(Invalid(BasicChecks(symbol, side, qty, price).error)))
    ensures BasicChecks(symbol, side, qty, price) == Pass ==> res.0 == GetSymbolFilters(ex, log, symbol).0
    ensures res.1.Ok? <==>
              BasicChecks(symbol, side, qty, price) == Pass && GetSymbolFilters(ex, log, symbol).1.Ok? &&
              ValidateWithFilters(symbol, qty, price, GetSymbolFilters(ex, log, symbol).1.value.filters) == Pass
    ensures res.1.Ok? ==> res.1 == GetSymbolFilters(ex, log, symbol).1
    ensures BasicChecks(symbol, side, qty, price) == Pass && GetSymbolFilters(ex, log, symbol).1.Err? ==>
              res.1 == GetSymbolFilters(ex, log, symbol).1
    ensures BasicChecks(symbol, side, qty, price) == Pass && GetSymbolFilters(ex, log, symbol).1.Ok? &&
            ValidateWithFilters(symbol, qty, price, GetSymbolFilters(ex, log, symbol).1.value.filters) != Pass ==>
              res.1 == Err(Invalid(ValidateWithFilters(symbol, qty, price, GetSymbolFilters(ex, log, symbol).1.value.filters).error))
  {
    var basic := BasicChecks(symbol, side, qty, price);
    if basic != Pass then (log, Err(Invalid(basic.error)))
    else
      var (log', found) := GetSymbolFilters(ex, log, symbol);
      match found
      case Err(e) => (log', Err(e))
      case Ok(entry) =>
        var checked := ValidateWithFilters(symbol, qty, price, entry.filters);
        if checked != Pass then (log', Err(Invalid(checked.error))) else (log', Ok(entry))
  }

  /** `position_side or DEFAULT_POSITION_SIDE`: a missing or empty position side falls back to the default. */
  function PositionSide(given: Option<string>, default: string): string {
    if given.Some? && given.value != "" then given.value else default
  }

  function ReduceOnlyFlag(reduceOnly: bool): string {
    if reduceOnly then "true" else "false"
  }

  function MarketParams(cfg: Config, symbol: string, side: string, qty: real, positionSide: Option<string>, reduceOnly: bool): OrderParams {
    OrderParams(Upper(symbol), Upper(side), Market, qty, None, None, None, ReduceOnlyFlag(reduceOnly),
                PositionSide(positionSide, cfg.defaultPositionSide))
  }

  function LimitParams(cfg: Config, symbol: string, side: string, qty: real, price: real, timeInForce: string,
                       positionSide: Option<string>, reduceOnly: bool): OrderParams {
    OrderParams(Upper(symbol), Upper(side), Limit, qty, Some(price), None, Some(timeInForce), ReduceOnlyFlag(reduceOnly),
                PositionSide(positionSide, cfg.defaultPositionSide))
  }

  function StopLimitParams(cfg: Config, symbol: string, side: string, qty: real, stopPrice: real, limitPrice: real,
                           timeInForce: string, positionSide: Option<string>, reduceOnly: bool): OrderParams {
    OrderParams(Upper(symbol), Upper(side), Stop, qty, Some(limitPrice), Some(stopPrice), Some(timeInForce),
                ReduceOnlyFlag(reduceOnly), PositionSide(positionSide, cfg.defaultPositionSide))
  }

  /** What every order builder sends: upper-cased symbol and side, the string flag for reduce-only, the
      configured position side when none is given, and its own order type and prices. */
  lemma OrderParamsShape(cfg: Config, symbol: string, side: string, qty: real, stopPrice: real, price: real,
                         timeInForce: string, positionSide: Option<string>, reduceOnly: bool)
    ensures var ps := [MarketParams(cfg, symbol, side, qty, positionSide, reduceOnly),
                       LimitParams(cfg, symbol, side, qty, price, timeInForce, positionSide, reduceOnly),
                       StopLimitParams(cfg, symbol, side, qty, stopPrice, price, timeInForce, positionSide, reduceOnly)];
            forall p <- ps ::
              p.symbol == Upper(symbol) && p.side == Upper(side) && p.quantity == qty &&
              (p.reduceOnly == "true" <==> reduceOnly) && (p.reduceOnly == "true" || p.reduceOnly == "false") &&
              (positionSide.None? || positionSide == Some("") ==> p.positionSide == cfg.defaultPositionSide) &&
              (positionSide.Some? && positionSide.value != "" ==> p.positionSide == positionSide.value)
    ensures var m := MarketParams(cfg, symbol, side, qty, positionSide, reduceOnly);
            TypeName(m.orderType) == "MARKET" && m.price.None? && m.stopPrice.None? && m.timeInForce.None?
    ensures var l := LimitParams(cfg, symbol, side, qty, price, timeInForce, positionSide, reduceOnly);
            TypeName(l.orderType) == "LIMIT" && l.price == Some(price) && l.stopPrice.None? && l.timeInForce == Some(timeInForce)
    ensures var s := StopLimitParams(cfg, symbol, side, qty, stopPrice, price, timeInForce, positionSide, reduceOnly);
            TypeName(s.orderType) == "STOP" && s.price == Some(price) && s.stopPrice == Some(stopPrice) && s.timeInForce == Some(timeInForce)
  {}

  /** What one order attempt leaves in the log: at most one new-order request, for `params`, and nothing
      else but the filter lookup; on success the last event is that request with its reply. */
  ghost predicate OrderAttempt(log: Log, log': Log, res: Result<Reply, Error>, params: OrderParams) {
    log <= log' &&
    var ev := Since(log, log');
    Pauses(ev) == [] && Cancels(ev) == [] && Queries(ev) == [] &&
    |Submitted(ev)| == |SubmitReplies(ev)| <= 1 &&
    (Submitted(ev) != [] ==> Submitted(ev) == [params]) &&
    (res.Ok? ==>
       Submitted(ev) == [params] && SubmitReplies(ev) == [res.value] && !res.value.Failure? &&
       |log'| > |log| && log'[|log'| - 1] == Call(NewOrder(params), res.value))
  }

  /** Validate, and only then send the new-order request. */
  function SubmitValidated(ex: Exchange, log: Log, symbol: string, side: string, qty: real, price: Option<real>, params: OrderParams)
    : (res: (Log, Result<Reply, Error>))
    ensures OrderAttempt(log, res.0, res.1, params)
    ensures var e := ValidateAndEnrich(ex, log, symbol, side, qty, price);
            (e.1.Err? ==> res == (e.0, Err(e.1.error))) &&
            (e.1.Ok? ==> res == Perform(ex, e.0, NewOrder(params)))
    ensures Submitted(Since(log, res.0)) != [] ==> ValidateAndEnrich(ex, log, symbol, side, qty, price).1.Ok?
  {
    var (log', checked) := ValidateAndEnrich(ex, log, symbol, side, qty, price);
    var ev0 := Since(log, log');
    ProjectionsNoOrder(ev0);
    match checked
    case Err(e) => (log', Err(e))
    case Ok(_) =>
      var res := Perform(ex, log', NewOrder(params));
      var post := Call(NewOrder(params), ex(log', NewOrder(params)));
      assert Since(log, res.0) == ev0 + [post];
      ProjectionsAppend(ev0, [post]);
      ProjectionsOne(post);
      res
  }

  /** The events of a validation step are at most one filter lookup. */
  lemma ProjectionsNoOrder(ev: Log)
    requires ev == [] || (|ev| == 1 && ev[0].Call? && ev[0].request.ExchangeInfo?)
    ensures Submitted(ev) == [] && SubmitReplies(ev) == [] && Pauses(ev) == [] && Cancels(ev) == [] && Queries(ev) == []
  {
    if ev != [] {
      assert ev == [ev[0]];
      ProjectionsOne(ev[0]);
    }
  }

  /** `place_market_order`: validated without a price, so only the LOT_SIZE filter applies. */
  function PlaceMarketOrder(ex: Exchange, log: Log, cfg: Config, symbol: string, side: string, qty: real,
                            positionSide: Option<string>, reduceOnly: bool): (res: (Log, Result<Reply, Error>))
    ensures OrderAttempt(log, res.0, res.1, MarketParams(cfg, symbol, side, qty, positionSide, reduceOnly))
    ensures BasicChecks(symbol, side, qty, None) != Pass ==> res == (log, Err(Invalid(BasicChecks(symbol, side, qty, None).error)))
    ensures Submitted(Since(log, res.0)) != [] ==> ValidateAndEnrich(ex, log, symbol, side, qty, None).1.Ok?
    ensures var e := ValidateAndEnrich(ex, log, symbol, side, qty, None);
            (e.1.Err? ==> res == (e.0, Err(e.1.error))) &&
            (e.1.Ok? ==> res == Perform(ex, e.0, NewOrder(MarketParams(cfg, symbol, side, qty, positionSide, reduceOnly))))
  {
    SubmitValidated(ex, log, symbol, side, qty, None, MarketParams(cfg, symbol, side, qty, positionSide, reduceOnly))
  }

  /** `place_limit_order`: validated with its price. */
  function PlaceLimitOrder(ex: Exchange, log: Log, cfg: Config, symbol: string, side: string, qty: real, price: real,
                           timeInForce: string, positionSide: Option<string>, reduceOnly: bool): (res: (Log, Result<Reply, Error>))
    ensures OrderAttempt(log, res.0, res.1, LimitParams(cfg, symbol, side, qty, price, timeInForce, positionSide, reduceOnly))
    ensures BasicChecks(symbol, side, qty, Some(price)) != Pass ==> res == (log, Err(Invalid(BasicChecks(symbol, side, qty, Some(price)).error)))
    ensures Submitted(Since(log, res.0)) != [] ==> ValidateAndEnrich(ex, log, symbol, side, qty, Some(price)).1.Ok?
    ensures var e := ValidateAndEnrich(ex, log, symbol, side, qty, Some(price));
            (e.1.Err? ==> res == (e.0, Err(e.1.error))) &&
            (e.1.Ok? ==> res == Perform(ex, e.0, NewOrder(LimitParams(cfg, symbol, side, qty, price, timeInForce, positionSide, reduceOnly))))
  {
    SubmitValidated(ex, log, symbol, side, qty, Some(price), LimitParams(cfg, symbol, side, qty, price, timeInForce, positionSide, reduceOnly))
  }

  /** `place_stop_limit_order`: validated with the limit price; the stop price is never checked. */
  function PlaceStopLimitOrder(ex: Exchange, log: Log, cfg: Config, symbol: string, side: string, qty: real,
                               stopPrice: real, limitPrice: real, timeInForce: string, positionSide: Option<string>,
                               reduceOnly: bool): (res: (Log, Result<Reply, Error>))
    ensures OrderAttempt(log, res.0, res.1, StopLimitParams(cfg, symbol, side, qty, stopPrice, limitPrice, timeInForce, positionSide, reduceOnly))
    ensures BasicChecks(symbol, side, qty, Some(limitPrice)) != Pass ==>
              res == (log, Err(Invalid(BasicChecks(symbol, side, qty, Some(limitPrice)).error)))
    ensures Submitted(Since(log, res.0)) != [] ==> ValidateAndEnrich(ex, log, symbol, side, qty, Some(limitPrice)).1.Ok?
    ensures var e := ValidateAndEnrich(ex, log, symbol, side, qty, Some(limitPrice));
            (e.1.Err? ==> res == (e.0, Err(e.1.error))) &&
            (e.1.Ok? ==>
               res == Perform(ex, e.0, NewOrder(StopLimitParams(cfg, symbol, side, qty, stopPrice, limitPrice, timeInForce, positionSide, reduceOnly))))
  {
    SubmitValidated(ex, log, symbol, side, qty, Some(limitPrice),
                    StopLimitParams(cfg, symbol, side, qty, stopPrice, limitPrice, timeInForce, positionSide, reduceOnly))
  }

  /** A market order passes the filter checks exactly when it passes the LOT_SIZE check: without a price the
      price and notional filters never apply. */
  lemma MarketOrderSkipsPriceChecks(symbol: string, qty: real, filters: seq<Filter>)
    ensures ValidateWithFilters(symbol, qty, None, filters) == Pass <==>
              (Lookup(filters, LotSizeKind).Some? ==> CheckLotSize(symbol, qty, Lookup(filters, LotSizeKind).value) == Pass)
  {}

  /** Whatever the stop price, even a negative one, a stop-limit order is validated and sent, or refused,
      the same way. */
  lemma StopPriceNeverValidated(ex: Exchange, log: Log, cfg: Config, symbol: string, side: string, qty: real,
                                stop1: real, stop2: real, limitPrice: real, timeInForce: string,
                                positionSide: Option<string>, reduceOnly: bool)
    ensures var r1 := PlaceStopLimitOrder(ex, log, cfg, symbol, side, qty, stop1, limitPrice, timeInForce, positionSide, reduceOnly);
            var r2 := PlaceStopLimitOrder(ex, log, cfg, symbol, side, qty, stop2, limitPrice, timeInForce, positionSide, reduceOnly);
            (Submitted(Since(log, r1.0)) == [] <==> Submitted(Since(log, r2.0)) == []) &&
            (Submitted(Since(log, r1.0)) == [] ==> r1 == r2)
  {
    var r1 := PlaceStopLimitOrder(ex, log, cfg, symbol, side, qty, stop1, limitPrice, timeInForce, positionSide, reduceOnly);
    var r2 := PlaceStopLimitOrder(ex, log, cfg, symbol, side, qty, stop2, limitPrice, timeInForce, positionSide, reduceOnly);
    var e := ValidateAndEnrich(ex, log, symbol, side, qty, Some(limitPrice));
    if e.1.Ok? {
      var p1 := StopLimitParams(cfg, symbol, side, qty, stop1, limitPrice, timeInForce, positionSide, reduceOnly);
      var p2 := StopLimitParams(cfg, symbol, side, qty, stop2, limitPrice, timeInForce, positionSide, reduceOnly);
      var c1 := Call(NewOrder(p1), ex(e.0, NewOrder(p1)));
      var c2 := Call(NewOrder(p2), ex(e.0, NewOrder(p2)));
      assert Since(log, r1.0) == Since(log, e.0) + [c1];
      assert Since(log, r2.0) == Since(log, e.0) + [c2];
      ProjectionsAppend(Since(log, e.0), [c1]);
      ProjectionsAppend(Since(log, e.0), [c2]);
      ProjectionsOne(c1);
      ProjectionsOne(c2);
    }
  }

  /** The order-id rule of `cancel_order` and `get_order`: `orderId` wins over `origClientOrderId`; with
      neither the call raises. */
  function SelectOrderRef(orderId: Option<int>, clientOrderId: Option<string>): (r: Result<OrderRef, Error>)
    ensures orderId.Some? ==> r == Ok(ById(orderId.value))
    ensures orderId.None? && clientOrderId.Some? ==> r == Ok(ByClientId(clientOrderId.value))
    ensures orderId.None? && clientOrderId.None? ==> r == Err(ClientError(OrderIdMissing))
  {
    if orderId.Some? then Ok(ById(orderId.value))
    else if clientOrderId.Some? then Ok(ByClientId(clientOrderId.value))
    else Err(ClientError(OrderIdMissing))
  }

  /** `cancel_order`: no request at all without an id; otherwise one cancel request for the upper-cased symbol. */
  function CancelOrder(ex: Exchange, log: Log, symbol: string, orderId: Option<int>, clientOrderId: Option<string>)
    : (res: (Log, Result<Reply, Error>))
    ensures SelectOrderRef(orderId, clientOrderId).Err? ==> res == (log, Err(ClientError(OrderIdMissing)))
    ensures SelectOrderRef(orderId, clientOrderId).Ok? ==>
              res == Perform(ex, log, DeleteOrder(Upper(symbol), SelectOrderRef(orderId, clientOrderId).value))
  {
    match SelectOrderRef(orderId, clientOrderId)
    case Err(e) => (log, Err(e))
    case Ok(ref) => Perform(ex, log, DeleteOrder(Upper(symbol), ref))
  }

  /** `get_order`: the same id rule, with a status query. */
  function GetOrder(ex: Exchange, log: Log, symbol: string, orderId: Option<int>, clientOrderId: Option<string>)
    : (res: (Log, Result<Reply, Error>))
    ensures SelectOrderRef(orderId, clientOrderId).Err? ==> res == (log, Err(ClientError(OrderIdMissing)))
    ensures SelectOrderRef(orderId, clientOrderId).Ok? ==>
              res == Perform(ex, log, QueryOrder(Upper(symbol), SelectOrderRef(orderId, clientOrderId).value))
  {
    match SelectOrderRef(orderId, clientOrderId)
    case Err(e) => (log, Err(e))
    case Ok(ref) => Perform(ex, log, QueryOrder(Upper(symbol), ref))
  }

  /** How a command-line entry point ends: normally, with a caught and printed error, with a caught
      keyboard interrupt, or with an error no handler catches. */
  datatype CliOutcome<+T> = Completed(value: T) | ErrorReported(error: Error) | InterruptReported | Raised(error: Error)

  /** The `except (ValidationError, BinanceClientError)` clause of the entry points. */
  function Report<T>(e: Error): (out: CliOutcome<T>)
    ensures e.Invalid? || e.ClientError? ==> out == ErrorReported(e)
    ensures e.MalformedReply? ==> out == Raised(e)
  {
    if e.MalformedReply? then Raised(e) else ErrorReported(e)
  }
}
