/** The exchange as the strategies see it: requests go out, replies come back, and every exchange of the two
    is recorded in a log together with the pauses the strategies take. The exchange itself is an arbitrary
    function of the history so far and the request, so no behaviour of the real service is assumed. */
module Gateway {
  import opened Basics
  import Validator

  datatype OrderType = Market | Limit | Stop | StopMarket

  /** The `type` parameter as sent to the exchange. */
  function TypeName(t: OrderType): string {
    match t
    case Market => "MARKET"
    case Limit => "LIMIT"
    case Stop => "STOP"
    case StopMarket => "STOP_MARKET"
  }

  /** The parameters of a new-order request; optional keys are absent (`None`) when not sent. */
  datatype OrderParams = OrderParams(
    symbol: string,
    side: string,
    orderType: OrderType,
    quantity: real,
    price: Option<real>,
    stopPrice: Option<real>,
    timeInForce: Option<string>,
    reduceOnly: string,
    positionSide: string)

  /** How an existing order is named: `orderId` or `origClientOrderId`. */
  datatype OrderRef = ById(orderId: int) | ByClientId(clientOrderId: string)

  /** The fields of an order reply that the strategies read; each may be missing. */
  datatype OrderRecord = OrderRecord(orderId: Option<int>, side: Option<string>, status: Option<string>)

  /** One element of exchangeInfo's `symbols` list: its `symbol` key and its `filters` list (missing = empty). */
  datatype SymbolEntry = SymbolEntry(symbol: Option<string>, filters: seq<Validator.Filter>)

  datatype Request =
    | ExchangeInfo(infoSymbol: Option<string>)
    | NewOrder(params: OrderParams)
    | DeleteOrder(cancelSymbol: string, cancelRef: OrderRef)
    | QueryOrder(querySymbol: string, queryRef: OrderRef)
    | OpenOrders(openSymbol: string)

  /** A reply: a transport or API failure (network error or HTTP status 400 and above), or a decoded body. */
  datatype Reply =
    | Failure(message: string)
    | Info(symbols: seq<SymbolEntry>)
    | Order(record: OrderRecord)
    | OrderList(records: seq<OrderRecord>)

  datatype Event = Call(request: Request, reply: Reply) | Pause(seconds: real)

  type Log = seq<Event>

  /** The remote service: its reply to a request, given everything that happened before. */
  type Exchange = (Log, Request) -> Reply

  /** Everything recorded after a prefix `log` of `log'`. */
  function Since(log: Log, log': Log): (ev: Log)
    requires log <= log'
    ensures log' == log + ev
  {
    log'[|log|..]
  }

  /** The items an event contributes to a projection of the log. */
  function Collect<T>(ev: Log, pick: Event -> seq<T>): seq<T>
    decreases |ev|
  {
    if ev == [] then [] else Collect(ev[..|ev| - 1], pick) + pick(ev[|ev| - 1])
  }

  lemma {:induction false} CollectAppend<T>(a: Log, b: Log, pick: Event -> seq<T>)
    ensures Collect(a + b, pick) == Collect(a, pick) + Collect(b, pick)
    decreases |b|
  {
    if b == [] {
      assert a + b == a;
    } else {
      var b' := b[..|b| - 1];
      assert (a + b)[..|a + b| - 1] == a + b';
      assert (a + b)[|a + b| - 1] == b[|b| - 1];
      CollectAppend(a, b', pick);
      assert Collect(a + b, pick) == Collect(a + b', pick) + pick(b[|b| - 1]);
      assert Collect(b, pick) == Collect(b', pick) + pick(b[|b| - 1]);
    }
  }

  function PickSubmitted(e: Event): seq<OrderParams> {
    if e.Call? && e.request.NewOrder? then [e.request.params] else []
  }

  function PickSubmitReply(e: Event): seq<Reply> {
    if e.Call? && e.request.NewOrder? then [e.reply] else []
  }

  function PickPause(e: Event): seq<real> {
    if e.Pause? then [e.seconds] else []
  }

  function PickCancel(e: Event): seq<OrderRef> {
    if e.Call? && e.request.DeleteOrder? then [e.request.cancelRef] else []
  }

  function PickQuery(e: Event): seq<OrderRef> {
    if e.Call? && e.request.QueryOrder? then [e.request.queryRef] else []
  }

  function PickLookup(e: Event): seq<Option<string>> {
    if e.Call? && e.request.ExchangeInfo? then [e.request.infoSymbol] else []
  }

  /** The new-order requests sent, in order. */
  function Submitted(ev: Log): seq<OrderParams> { Collect(ev, PickSubmitted) }
  /** The exchange's replies to the new-order requests, in the same order. */
  function SubmitReplies(ev: Log): seq<Reply> { Collect(ev, PickSubmitReply) }
  /** The pauses taken, in seconds. */
  function Pauses(ev: Log): seq<real> { Collect(ev, PickPause) }
  /** The orders a cancel request was sent for. */
  function Cancels(ev: Log): seq<OrderRef> { Collect(ev, PickCancel) }
  /** The orders a status query was sent for. */
  function Queries(ev: Log): seq<OrderRef> { Collect(ev, PickQuery) }
  /** The exchangeInfo (filter lookup) requests sent. */
  function Lookups(ev: Log): seq<Option<string>> { Collect(ev, PickLookup) }

  /** Every projection of a log is the concatenation of the projections of its parts. */
  lemma ProjectionsAppend(a: Log, b: Log)
    ensures Submitted(a + b) == Submitted(a) + Submitted(b)
    ensures SubmitReplies(a + b) == SubmitReplies(a) + SubmitReplies(b)
    ensures Pauses(a + b) == Pauses(a) + Pauses(b)
    ensures Cancels(a + b) == Cancels(a) + Cancels(b)
    ensures Queries(a + b) == Queries(a) + Queries(b)
    ensures Lookups(a + b) == Lookups(a) + Lookups(b)
  {
    CollectAppend(a, b, PickSubmitted);
    CollectAppend(a, b, PickSubmitReply);
    CollectAppend(a, b, PickPause);
    CollectAppend(a, b, PickCancel);
    CollectAppend(a, b, PickQuery);
    CollectAppend(a, b, PickLookup);
  }

  /** The projections of a single event. */
  lemma ProjectionsOne(e: Event)
    ensures Submitted([e]) == PickSubmitted(e) && SubmitReplies([e]) == PickSubmitReply(e)
    ensures Pauses([e]) == PickPause(e) && Cancels([e]) == PickCancel(e)
    ensures Queries([e]) == PickQuery(e) && Lookups([e]) == PickLookup(e)
  {
    assert [e][..0] == [];
    CollectOne(e, PickSubmitted);
    CollectOne(e, PickSubmitReply);
    CollectOne(e, PickPause);
    CollectOne(e, PickCancel);
    CollectOne(e, PickQuery);
    CollectOne(e, PickLookup);
  }

  lemma CollectOne<T>(e: Event, pick: Event -> seq<T>)
    ensures Collect([e], pick) == pick(e)
  {
    assert [e][..0] == [];
    assert Collect([e], pick) == Collect([], pick) + pick(e);
  }

  /** Concatenation of logs is associative; stated once so that loops extending a log need not re-derive it. */
  lemma AppendAssoc(a: Log, b: Log, c: Log)
    ensures (a + b) + c == a + (b + c)
  {
  }

  /** Sending a request: the exchange answers, and the request and its reply are appended to the log. */
  function Send(ex: Exchange, log: Log, req: Request): (res: (Log, Reply))
    ensures res.1 == ex(log, req) && res.0 == log + [Call(req, res.1)]
  {
    var reply := ex(log, req);
    (log + [Call(req, reply)], reply)
  }
}
