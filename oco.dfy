/** The one-cancels-the-other bracket: a take-profit limit order and a stop leg placed one after the other,
    then, in the entry point, a poll loop that waits for either leg to finish and cancels the other. */
module Oco {
  import opened Basics
  import opened Text
  import opened Gateway
  import opened Client

  /** Seconds slept before every poll round. */
  const PollInterval: real := 2.0

  /** `_is_terminal`: the statuses after which an order can no longer fill. A missing status is not terminal. */
  predicate IsTerminal(status: Option<string>) {
    status.Some? && status.value in ["FILLED", "CANCELED", "EXPIRED", "REJECTED"]
  }

  /** Exactly four statuses are terminal; open and partially filled orders and a missing status are not. */
  lemma TerminalStatuses(s: string)
    ensures IsTerminal(Some(s)) <==> s == "FILLED" || s == "CANCELED" || s == "EXPIRED" || s == "REJECTED"
    ensures !IsTerminal(None) && !IsTerminal(Some("NEW")) && !IsTerminal(Some("PARTIALLY_FILLED"))
  {}

  /** Python truthiness of the optional stop-limit price: present and non-zero. */
  predicate Truthy(stopLimit: Option<real>) {
    stopLimit.Some? && stopLimit.value != 0.0
  }

  /** The stop leg's `sl_params`: STOP_MARKET at the stop-loss price, turned into a STOP order with a limit
      price when a stop-limit price is given. It carries no time in force and is not validated. */
  function StopLegParams(symbol: string, side: string, qty: real, stopLossPrice: real, stopLimit: Option<real>,
                         positionSide: Option<string>, reduceOnly: bool): (o: OrderParams)
    ensures o.symbol == Upper(symbol) && o.side == Upper(side) && o.quantity == qty
    ensures o.stopPrice == Some(stopLossPrice) && o.timeInForce.None?
    ensures Truthy(stopLimit) ==> o.orderType == Stop && o.price == stopLimit
    ensures !Truthy(stopLimit) ==> o.orderType == StopMarket && o.price.None?
    ensures o.positionSide == (if positionSide.Some? && positionSide.value != "" then positionSide.value else "BOTH")
    ensures o.reduceOnly == (if reduceOnly then "true" else "false")
  {
    var base := OrderParams(Upper(symbol), Upper(side), StopMarket, qty, None, Some(stopLossPrice), None,
                            ReduceOnlyFlag(reduceOnly), PositionSide(positionSide, "BOTH"));
    if Truthy(stopLimit) then base.(orderType := Stop, price := stopLimit) else base
  }

  /** `res["orderId"]` on an order reply; any other reply shape raises. */
  function OrderIdOf(reply: Reply): (r: Result<int, Error>)
    ensures r.Ok? <==> reply.Order? && reply.record.orderId.Some?
    ensures r.Ok? ==> r.value == reply.record.orderId.value
    ensures reply.Failure? ==> r == Err(ClientError(Transport(reply.message)))
  {
    match reply
    case Failure(m) => Err(ClientError(Transport(m)))
    case Order(OrderRecord(Some(id), _, _)) => Ok(id)
    case _ => Err(MalformedReply)
  }

  /** The stop leg, posted directly with `_request`: one new-order request, whose reply must carry the order id. */
  function PostStopLeg(ex: Exchange, log: Log, sl: OrderParams): (res: (Log, Result<int, Error>))
    ensures res.0 == log + [Call(NewOrder(sl), ex(log, NewOrder(sl)))]
    ensures res.1 == OrderIdOf(ex(log, NewOrder(sl)))
  {
    var (log', reply) := Perform(ex, log, NewOrder(sl));
    match reply
    case Err(e) => (log', Err(e))
    case Ok(r) => (log', OrderIdOf(r))
  }

  /** The events of a placed take-profit leg followed by the stop leg's request. */
  lemma TwoLegEvents(ev1: Log, tp: OrderParams, tpReply: Reply, sl: OrderParams, slReply: Reply)
    requires Submitted(ev1) == [tp] && SubmitReplies(ev1) == [tpReply]
    requires Pauses(ev1) == [] && Cancels(ev1) == [] && Queries(ev1) == []
    ensures var ev := ev1 + [Call(NewOrder(sl), slReply)];
            Submitted(ev) == [tp, sl] && SubmitReplies(ev) == [tpReply, slReply] &&
            Pauses(ev) == [] && Cancels(ev) == [] && Queries(ev) == []
  {
    ProjectionsAppend(ev1, [Call(NewOrder(sl), slReply)]);
    ProjectionsOne(Call(NewOrder(sl), slReply));
  }

  /** The order ids of the two placed legs. */
  datatype Bracket = Bracket(tpId: int, slId: int)

  /** The two legs, take profit first: the take-profit leg through `place_limit_order` (GTC), then, only once its
      order id is known, the stop leg posted directly. A failure at any point stops there and is passed on; a
      take-profit order already placed is not withdrawn. */
  function PlaceBracket(ex: Exchange, log: Log, cfg: Config, symbol: string, side: string, qty: real,
                        takeProfitPrice: real, stopLossPrice: real, stopLimit: Option<real>,
                        positionSide: Option<string>, reduceOnly: bool): (res: (Log, Result<Bracket, Error>))
    ensures log <= res.0
  {
    var (log1, first) := PlaceLimitOrder(ex, log, cfg, symbol, side, qty, takeProfitPrice, "GTC", positionSide, reduceOnly);
    if first.Err? then (log1, Err(first.error))
    else
      match OrderIdOf(first.value)
      case Err(e) => (log1, Err(e))
      case Ok(tpId) =>
        var sl := StopLegParams(symbol, side, qty, stopLossPrice, stopLimit, positionSide, reduceOnly);
        var (log2, slId) := PostStopLeg(ex, log1, sl);
        (log2, if slId.Err? then Err(slId.error) else Ok(Bracket(tpId, slId.value)))
  }

  /** What placing a bracket sends: a prefix of the two legs, take profit first, and nothing else. The stop leg
      is sent exactly when the take-profit order was placed and its id read; the two replies are
      then the take-profit leg's and the exchange's answer to the stop leg. */
  lemma BracketLegs(ex: Exchange, log: Log, cfg: Config, symbol: string, side: string, qty: real,
                    takeProfitPrice: real, stopLossPrice: real, stopLimit: Option<real>,
                    positionSide: Option<string>, reduceOnly: bool)
    ensures var res := PlaceBracket(ex, log, cfg, symbol, side, qty, takeProfitPrice, stopLossPrice, stopLimit, positionSide, reduceOnly);
            var ev := Since(log, res.0);
            var tp := LimitParams(cfg, symbol, side, qty, takeProfitPrice, "GTC", positionSide, reduceOnly);
            var sl := StopLegParams(symbol, side, qty, stopLossPrice, stopLimit, positionSide, reduceOnly);
            var first := PlaceLimitOrder(ex, log, cfg, symbol, side, qty, takeProfitPrice, "GTC", positionSide, reduceOnly);
            if first.1.Ok? && OrderIdOf(first.1.value).Ok? then
              res.0 == first.0 + [Call(NewOrder(sl), ex(first.0, NewOrder(sl)))] &&
              Pauses(ev) == [] && Cancels(ev) == [] && Queries(ev) == [] &&
              Submitted(ev) == [tp, sl] && SubmitReplies(ev) == [first.1.value, ex(first.0, NewOrder(sl))]
            else
              res.0 == first.0 && Pauses(ev) == [] && Cancels(ev) == [] && Queries(ev) == [] &&
              Submitted(ev) <= [tp] && |SubmitReplies(ev)| == |Submitted(ev)|
  {
    var tp := LimitParams(cfg, symbol, side, qty, takeProfitPrice, "GTC", positionSide, reduceOnly);
    var first := PlaceLimitOrder(ex, log, cfg, symbol, side, qty, takeProfitPrice, "GTC", positionSide, reduceOnly);
    if first.1.Ok? && OrderIdOf(first.1.value).Ok? {
      var sl := StopLegParams(symbol, side, qty, stopLossPrice, stopLimit, positionSide, reduceOnly);
      var slReply := ex(first.0, NewOrder(sl));
      TwoLegEvents(Since(log, first.0), tp, first.1.value, sl, slReply);
      assert Since(log, first.0 + [Call(NewOrder(sl), slReply)]) == Since(log, first.0) + [Call(NewOrder(sl), slReply)];
    }
  }

  /** The result of placing a bracket: the first failure, or both order ids read from the replies. */
  lemma BracketResult(ex: Exchange, log: Log, cfg: Config, symbol: string, side: string, qty: real,
                      takeProfitPrice: real, stopLossPrice: real, stopLimit: Option<real>,
                      positionSide: Option<string>, reduceOnly: bool)
    ensures var res := PlaceBracket(ex, log, cfg, symbol, side, qty, takeProfitPrice, stopLossPrice, stopLimit, positionSide, reduceOnly);
            var ev := Since(log, res.0);
            var first := PlaceLimitOrder(ex, log, cfg, symbol, side, qty, takeProfitPrice, "GTC", positionSide, reduceOnly);
            (first.1.Err? ==> res == (first.0, Err(first.1.error))) &&
            (first.1.Ok? && OrderIdOf(first.1.value).Err? ==> res == (first.0, Err(OrderIdOf(first.1.value).error))) &&
            (|SubmitReplies(ev)| == 2 && OrderIdOf(SubmitReplies(ev)[1]).Err? ==>
               res.1 == Err(OrderIdOf(SubmitReplies(ev)[1]).error)) &&
            (res.1.Ok? <==>
               |SubmitReplies(ev)| == 2 && OrderIdOf(SubmitReplies(ev)[0]).Ok? && OrderIdOf(SubmitReplies(ev)[1]).Ok?) &&
            (res.1.Ok? ==>
               res.1.value == Bracket(OrderIdOf(SubmitReplies(ev)[0]).value, OrderIdOf(SubmitReplies(ev)[1]).value))
  {
    BracketLegs(ex, log, cfg, symbol, side, qty, takeProfitPrice, stopLossPrice, stopLimit, positionSide, reduceOnly);
  }

  /** The composite id of a bracket, `oco_{tp}_{sl}`. */
  function OrderListId(tpId: int, slId: int): string {
    "oco_" + IntToString(tpId) + "_" + IntToString(slId)
  }

  /** Splitting `p + a + "_" + b` at the first underscore after the prefix `p`, when neither `a` nor `c` has one. */
  lemma SplitAtUnderscore(p: string, a: string, b: string, c: string, d: string)
    requires '_' !in a && '_' !in c
    requires p + a + "_" + b == p + c + "_" + d
    ensures a == c && b == d
  {
    var s := p + a + "_" + b;
    assert forall k | 0 <= k < |a| :: s[|p| + k] == a[k];
    assert forall k | 0 <= k < |c| :: s[|p| + k] == c[k];
    assert s[|p| + |a|] == '_' && s[|p| + |c|] == '_';
    assert |a| == |c|;
    assert forall k | 0 <= k < |b| :: s[|p| + |a| + 1 + k] == b[k];
    assert forall k | 0 <= k < |d| :: s[|p| + |c| + 1 + k] == d[k];
  }

  /** A decimal numeral has no underscore. */
  lemma NoUnderscore(i: int)
    ensures '_' !in IntToString(i)
  {
    var s := IntToString(i);
    assert forall k | 0 <= k < |s| :: s[k] != '_';
  }

  /** The composite id names both legs: distinct pairs of order ids never share an id. */
  lemma OrderListIdInjective(tp1: int, sl1: int, tp2: int, sl2: int)
    requires OrderListId(tp1, sl1) == OrderListId(tp2, sl2)
    ensures tp1 == tp2 && sl1 == sl2
  {
    NoUnderscore(tp1);
    NoUnderscore(tp2);
    SplitAtUnderscore("oco_", IntToString(tp1), IntToString(sl1), IntToString(tp2), IntToString(sl2));
    IntToStringInjective(tp1, tp2);
    IntToStringInjective(sl1, sl2);
  }

  /** One leg as `place_order` reports it. */
  datatype Leg = Leg(orderId: int, orderType: OrderType, price: Option<real>, stopPrice: Option<real>)

  /** The dictionary `place_order` returns. */
  datatype OcoOrder = OcoOrder(orderListId: string, symbol: string, side: string, quantity: real, orders: seq<Leg>)

  /** `OCOOrder.place_order`: the bracket with the default position side and reduce-only off, reported as the
      composite id and the two legs, take profit first. Validation and client errors are passed on unchanged. */
  function PlaceOcoOrder(ex: Exchange, log: Log, cfg: Config, symbol: string, side: string, qty: real,
                         takeProfitPrice: real, stopLossPrice: real, stopLimit: Option<real>)
    : (res: (Log, Result<OcoOrder, Error>))
    ensures var b := PlaceBracket(ex, log, cfg, symbol, side, qty, takeProfitPrice, stopLossPrice, stopLimit, None, false);
            res.0 == b.0 && (res.1.Err? <==> b.1.Err?) && (b.1.Err? ==> res.1.error == b.1.error) &&
            (res.1.Ok? ==>
               var o := res.1.value;
               o.orderListId == OrderListId(b.1.value.tpId, b.1.value.slId) &&
               o.symbol == Upper(symbol) && o.side == Upper(side) && o.quantity == qty && |o.orders| == 2 &&
               o.orders[0] == Leg(b.1.value.tpId, Limit, Some(takeProfitPrice), None) &&
               o.orders[1].orderId == b.1.value.slId && o.orders[1].stopPrice == Some(stopLossPrice) &&
               o.orders[1].price.None? &&
               o.orders[1].orderType == (if Truthy(stopLimit) then Stop else StopMarket))
  {
    var (log', placed) := PlaceBracket(ex, log, cfg, symbol, side, qty, takeProfitPrice, stopLossPrice, stopLimit, None, false);
    match placed
    case Err(e) => (log', Err(e))
    case Ok(Bracket(tpId, slId)) =>
      var sl := StopLegParams(symbol, side, qty, stopLossPrice, stopLimit, None, false);
      (log', Ok(OcoOrder(OrderListId(tpId, slId), Upper(symbol), Upper(side), qty,
                         [Leg(tpId, Limit, Some(takeProfitPrice), None), Leg(slId, sl.orderType, None, Some(stopLossPrice))])))
  }

  /** The statuses read in one poll round. */
  datatype Observation = Observation(tp: Option<string>, sl: Option<string>)

  predicate EitherTerminal(o: Observation) {
    IsTerminal(o.tp) || IsTerminal(o.sl)
  }

  /** The cancels issued once a round shows a terminal leg: the take-profit leg if it is still live, then the
      stop leg if it is still live. */
  function CancelsFor(tpId: int, slId: int, o: Observation): (c: seq<OrderRef>)
    ensures EitherTerminal(o) ==> |c| <= 1
    ensures IsTerminal(o.tp) && IsTerminal(o.sl) ==> c == []
    ensures o == Observation(Some("FILLED"), Some("NEW")) ==> c == [ById(slId)]
    ensures forall r <- c :: (r == ById(tpId) && !IsTerminal(o.tp)) || (r == ById(slId) && !IsTerminal(o.sl))
    ensures !IsTerminal(o.tp) ==> ById(tpId) in c
    ensures !IsTerminal(o.sl) ==> ById(slId) in c
    ensures |c| <= 2 && (|c| == 2 ==> c == [ById(tpId), ById(slId)])
  {
    (if !IsTerminal(o.tp) then [ById(tpId)] else []) + (if !IsTerminal(o.sl) then [ById(slId)] else [])
  }

  /** `.get("status")` on a reply: the record's status, absent for a dictionary without one; a list reply has no
      `get` and raises. */
  function StatusOf(reply: Reply): (r: Result<Option<string>, Error>)
    ensures r.Ok? <==> reply.Order? || reply.Info?
    ensures r.Ok? ==> r.value == ReplyStatus(reply)
    ensures reply.OrderList? ==> r == Err(MalformedReply)
    ensures reply.Failure? ==> r == Err(ClientError(Transport(reply.message)))
  {
    match reply
    case Order(record) => Ok(record.status)
    case Info(_) => Ok(None)
    case OrderList(_) => Err(MalformedReply)
    case Failure(m) => Err(ClientError(Transport(m)))
  }

  /** The status a reply carries, if any. */
  function ReplyStatus(reply: Reply): Option<string> {
    if reply.Order? then reply.record.status else None
  }

  function PickStatus(e: Event): seq<Option<string>> {
    if e.Call? && e.request.QueryOrder? then [ReplyStatus(e.reply)] else []
  }

  /** The statuses carried by the replies to the status queries, in order. */
  function Statuses(ev: Log): seq<Option<string>> { Collect(ev, PickStatus) }

  /** Every status query contributes exactly one status. */
  lemma {:induction false} StatusesFollowQueries(ev: Log)
    ensures |Statuses(ev)| == |Queries(ev)|
    decreases |ev|
  {
    if ev != [] {
      StatusesFollowQueries(ev[..|ev| - 1]);
    }
  }

  lemma StatusesAppend(a: Log, b: Log)
    ensures Statuses(a + b) == Statuses(a) + Statuses(b)
  {
    CollectAppend(a, b, PickStatus);
  }

  /** The statuses of a sequence of rounds, take profit before stop loss in each. */
  function Flat(obs: seq<Observation>): (s: seq<Option<string>>)
    ensures |s| == 2 * |obs|
  {
    if obs == [] then [] else Flat(obs[..|obs| - 1]) + [obs[|obs| - 1].tp, obs[|obs| - 1].sl]
  }

  lemma FlatSnoc(obs: seq<Observation>, o: Observation)
    ensures Flat(obs + [o]) == Flat(obs) + [o.tp, o.sl]
  {
    assert (obs + [o])[..|obs|] == obs;
  }

  /** The queries of `n` rounds: the take-profit leg, then the stop leg, each round. */
  function QueryRounds(tpId: int, slId: int, n: nat): (q: seq<OrderRef>)
    ensures |q| == 2 * n
  {
    if n == 0 then [] else QueryRounds(tpId, slId, n - 1) + [ById(tpId), ById(slId)]
  }

  /** The log entries of one event sent through `Perform` or a pause, by projection. */
  lemma QueryEvent(s: string, ref: OrderRef, reply: Reply)
    ensures var e := Call(QueryOrder(s, ref), reply);
            Submitted([e]) == [] && Pauses([e]) == [] && Cancels([e]) == [] && Queries([e]) == [ref] &&
            Statuses([e]) == [ReplyStatus(reply)]
  {
    var e := Call(QueryOrder(s, ref), reply);
    ProjectionsOne(e);
    CollectOne(e, PickStatus);
  }

  lemma CancelEvent(s: string, ref: OrderRef, reply: Reply)
    ensures var e := Call(DeleteOrder(s, ref), reply);
            Submitted([e]) == [] && Pauses([e]) == [] && Cancels([e]) == [ref] && Queries([e]) == [] && Statuses([e]) == []
  {
    var e := Call(DeleteOrder(s, ref), reply);
    ProjectionsOne(e);
    CollectOne(e, PickStatus);
  }

  lemma PauseEvent(d: real)
    ensures Submitted([Pause(d)]) == [] && Pauses([Pause(d)]) == [d] && Cancels([Pause(d)]) == [] &&
            Queries([Pause(d)]) == [] && Statuses([Pause(d)]) == []
  {
    ProjectionsOne(Pause(d));
    CollectOne(Pause(d), PickStatus);
  }

  /** One status query for leg `id` through `get_order`; a failed reply raises, any other is returned unread. */
  method QueryLeg(ex: Exchange, log: Log, symbol: string, id: int)
    returns (log': Log, res: Result<Reply, Error>, ghost step: Log)
    ensures log' == log + step
    ensures Submitted(step) == [] && Pauses(step) == [] && Cancels(step) == []
    ensures Queries(step) == [ById(id)] && |Statuses(step)| == 1
    ensures res.Ok? ==> !res.value.Failure? && Statuses(step) == [ReplyStatus(res.value)]
    ensures res.Err? ==> res.error.ClientError?
    ensures (log', res) == GetOrder(ex, log, symbol, Some(id), None)
  {
    var req := QueryOrder(Upper(symbol), ById(id));
    var (log2, r) := GetOrder(ex, log, symbol, Some(id), None);
    step := [Call(req, ex(log, req))];
    QueryEvent(Upper(symbol), ById(id), ex(log, req));
    log', res := log2, r;
  }

  /** One round of the poll loop as a definition over the exchange: the pause, both queries, then both statuses
      read; the first failure ends the round. */
  function Round(ex: Exchange, log: Log, symbol: string, tpId: int, slId: int): (Log, Result<Observation, Error>) {
    var (log1, r1) := GetOrder(ex, log + [Pause(PollInterval)], symbol, Some(tpId), None);
    if r1.Err? then (log1, Err(r1.error))
    else
      var (log2, r2) := GetOrder(ex, log1, symbol, Some(slId), None);
      if r2.Err? then (log2, Err(r2.error))
      else if StatusOf(r1.value).Err? then (log2, Err(StatusOf(r1.value).error))
      else if StatusOf(r2.value).Err? then (log2, Err(StatusOf(r2.value).error))
      else (log2, Ok(Observation(StatusOf(r1.value).value, StatusOf(r2.value).value)))
  }

  /** One round of the poll loop: the pause, the take-profit leg's query, the stop leg's query, and only then
      the two statuses read, take profit first. A failed query raises at once; a list-shaped reply raises
      when its status is read, after both queries are sent. */
  method PollRound(ex: Exchange, log: Log, symbol: string, tpId: int, slId: int)
    returns (log': Log, res: Result<Observation, Error>, ghost step: Log)
    ensures log' == log + step
    ensures Submitted(step) == [] && Cancels(step) == [] && Pauses(step) == [PollInterval]
    ensures Queries(step) == [ById(tpId)] || Queries(step) == [ById(tpId), ById(slId)]
    ensures Queries(step) == [ById(tpId)] ==> res.Err? && res.error.ClientError?
    ensures res.Ok? ==> Queries(step) == [ById(tpId), ById(slId)] && Statuses(step) == [res.value.tp, res.value.sl]
    ensures res.Err? ==> res.error.ClientError? || res.error == MalformedReply
    ensures res.Err? && res.error == MalformedReply ==> Queries(step) == [ById(tpId), ById(slId)]
    ensures (log', res) == Round(ex, log, symbol, tpId, slId)
  {
    var pause := [Pause(PollInterval)];
    PauseEvent(PollInterval);
    var log1, r1, s1 := QueryLeg(ex, log + pause, symbol, tpId);
    ProjectionsAppend(pause, s1);
    StatusesAppend(pause, s1);
    AppendAssoc(log, pause, s1);
    log', step := log1, pause + s1;
    if r1.Err? {
      return log', Err(r1.error), step;
    }
    var log2, r2, s2 := QueryLeg(ex, log', symbol, slId);
    ProjectionsAppend(step, s2);
    StatusesAppend(step, s2);
    AppendAssoc(log, step, s2);
    log', step := log2, step + s2;
    if r2.Err? {
      return log', Err(r2.error), step;
    }
    var tp := StatusOf(r1.value);
    if tp.Err? {
      return log', Err(tp.error), step;
    }
    var sl := StatusOf(r2.value);
    if sl.Err? {
      return log', Err(sl.error), step;
    }
    res := Ok(Observation(tp.value, sl.value));
  }

  /** One cancel through `cancel_order`; its reply is not read beyond a failure. */
  method CancelLeg(ex: Exchange, log: Log, symbol: string, id: int)
    returns (log': Log, res: Result<(), Error>, ghost step: Log)
    ensures log' == log + step
    ensures Submitted(step) == [] && Pauses(step) == [] && Queries(step) == [] && Statuses(step) == []
    ensures Cancels(step) == [ById(id)]
    ensures res.Err? ==> res.error.ClientError?
    ensures var c := CancelOrder(ex, log, symbol, Some(id), None);
            log' == c.0 && (res.Err? <==> c.1.Err?) && (res.Err? ==> res.error == c.1.error)
  {
    var req := DeleteOrder(Upper(symbol), ById(id));
    var (log2, r) := CancelOrder(ex, log, symbol, Some(id), None);
    step := [Call(req, ex(log, req))];
    CancelEvent(Upper(symbol), ById(id), ex(log, req));
    log' := log2;
    res := if r.Err? then Err(r.error) else Ok(());
  }

  /** `cancel_order` on leg `id`, its reply read only for a failure. */
  function CancelAck(ex: Exchange, log: Log, symbol: string, id: int): (Log, Result<(), Error>) {
    var (log1, r) := CancelOrder(ex, log, symbol, Some(id), None);
    (log1, if r.Err? then Err(r.error) else Ok(()))
  }

  /** The exit of the poll loop as a definition over the exchange: the take-profit leg's cancel unless it was seen
      terminal, then, unless that failed, the stop leg's cancel unless it was seen terminal. */
  function Resolve(ex: Exchange, log: Log, symbol: string, tpId: int, slId: int, o: Observation): (Log, Result<(), Error>) {
    var (log1, r1) := if IsTerminal(o.tp) then (log, Ok(())) else CancelAck(ex, log, symbol, tpId);
    if r1.Err? || IsTerminal(o.sl) then (log1, r1) else CancelAck(ex, log1, symbol, slId)
  }

  /** The exit of the poll loop: cancel each leg the last round did not see terminal, take profit first. */
  method ResolveLegs(ex: Exchange, log: Log, symbol: string, tpId: int, slId: int, o: Observation)
    returns (log': Log, res: Result<(), Error>, ghost step: Log)
    ensures log' == log + step
    ensures Submitted(step) == [] && Pauses(step) == [] && Queries(step) == [] && Statuses(step) == []
    ensures res.Ok? ==> Cancels(step) == CancelsFor(tpId, slId, o)
    ensures res.Err? ==> Cancels(step) != [] && Cancels(step) <= CancelsFor(tpId, slId, o) && res.error.ClientError?
    ensures (log', res) == Resolve(ex, log, symbol, tpId, slId, o)
  {
    log', step := log, [];
    ProjectionsAppend([], []);
    StatusesAppend([], []);
    if !IsTerminal(o.tp) {
      var log1, r1, s1 := CancelLeg(ex, log, symbol, tpId);
      log', step := log1, s1;
      if r1.Err? {
        return log', Err(r1.error), step;
      }
    }
    if !IsTerminal(o.sl) {
      var log2, r2, s2 := CancelLeg(ex, log', symbol, slId);
      ProjectionsAppend(step, s2);
      StatusesAppend(step, s2);
      AppendAssoc(log, step, s2);
      log', step := log2, step + s2;
      if r2.Err? {
        return log', Err(r2.error), step;
      }
    }
    res := Ok(());
  }

  /** How the poll loop ends: a round saw a terminal leg (its statuses), or the rounds allowed ran out. */
  datatype PollEnd = Resolved(final: Observation) | StillOpen

  /** The loop state after the rounds `obs`: only pauses and queries, two queries and two statuses a round. */
  ghost predicate Polled(ev: Log, tpId: int, slId: int, obs: seq<Observation>) {
    Submitted(ev) == [] && Cancels(ev) == [] &&
    Pauses(ev) == Repeat(PollInterval, |obs|) && Queries(ev) == QueryRounds(tpId, slId, |obs|) && Statuses(ev) == Flat(obs)
  }

  /** The log `ev` and the observations `obs` of a poll loop of at most `maxPolls` rounds that ended with `r`:
      only queries, pauses and cancels; no terminal leg before the last round; a resolved loop saw a terminal leg
      last and cancelled exactly the legs still live then; a loop that stayed open polled every round and
      cancelled nothing; an error is a client error or a malformed reply, after at most part of those cancels. */
  ghost predicate PollsEnded(ev: Log, r: Result<PollEnd, Error>, obs: seq<Observation>, tpId: int, slId: int, maxPolls: nat) {
    Submitted(ev) == [] && |obs| <= maxPolls && |Pauses(ev)| <= maxPolls &&
    (forall k | 0 <= k < |obs| - 1 :: !EitherTerminal(obs[k])) &&
    (r.Ok? ==>
       Pauses(ev) == Repeat(PollInterval, |obs|) && Queries(ev) == QueryRounds(tpId, slId, |obs|) &&
       Statuses(ev) == Flat(obs)) &&
    (r.Ok? && r.value.Resolved? ==>
       |obs| > 0 && obs[|obs| - 1] == r.value.final && EitherTerminal(r.value.final) &&
       Cancels(ev) == CancelsFor(tpId, slId, r.value.final)) &&
    (r.Ok? && r.value.StillOpen? ==>
       |obs| == maxPolls && (forall k | 0 <= k < |obs| :: !EitherTerminal(obs[k])) && Cancels(ev) == []) &&
    (r.Err? ==>
       (r.error.ClientError? || r.error == MalformedReply) &&
       (Cancels(ev) == [] ||
        (|obs| > 0 && EitherTerminal(obs[|obs| - 1]) && Cancels(ev) <= CancelsFor(tpId, slId, obs[|obs| - 1]))))
  }

  /** Round `|obs| + 1` of the poll loop, appended to the rounds `ev` logged so far. */
  method NextRound(ex: Exchange, log: Log, symbol: string, tpId: int, slId: int,
                   ghost base: Log, ghost ev: Log, ghost obs: seq<Observation>, ghost maxPolls: nat)
    returns (log': Log, res: Result<Observation, Error>, ghost ev': Log)
    requires log == base + ev && Polled(ev, tpId, slId, obs) && |obs| < maxPolls
    requires forall k | 0 <= k < |obs| :: !EitherTerminal(obs[k])
    ensures log' == base + ev'
    ensures Submitted(ev') == [] && Cancels(ev') == [] && |Pauses(ev')| == |obs| + 1
    ensures res.Ok? ==> Polled(ev', tpId, slId, obs + [res.value])
    ensures res.Err? ==> PollsEnded(ev', Err(res.error), obs, tpId, slId, maxPolls)
    ensures res.Err? ==> res.error.ClientError? || res.error == MalformedReply
    ensures (log', res) == Round(ex, log, symbol, tpId, slId)
    ensures RoundThen(ex, log, symbol, tpId, slId, maxPolls - |obs|) ==
              if res.Err? then (log', Err(res.error))
              else if EitherTerminal(res.value) then
                (Resolve(ex, log', symbol, tpId, slId, res.value).0,
                 if Resolve(ex, log', symbol, tpId, slId, res.value).1.Err?
                 then Err(Resolve(ex, log', symbol, tpId, slId, res.value).1.error) else Ok(Resolved(res.value)))
              else MonitorRun(ex, log', symbol, tpId, slId, maxPolls - |obs| - 1)
  {
    ghost var step;
    log', res, step := PollRound(ex, log, symbol, tpId, slId);
    RoundStep(ex, log, symbol, tpId, slId, maxPolls - |obs|, log', res);
    ProjectionsAppend(ev, step);
    StatusesAppend(ev, step);
    AppendAssoc(base, ev, step);
    ev' := ev + step;
    if res.Ok? {
      FlatSnoc(obs, res.value);
    }
  }

  /** The exit of the poll loop after the rounds `ev`: the cancels of `ResolveLegs`, nothing else. */
  method FinishRounds(ex: Exchange, log: Log, symbol: string, tpId: int, slId: int, o: Observation,
                      ghost base: Log, ghost ev: Log, ghost obs: seq<Observation>, ghost maxPolls: nat)
    returns (log': Log, res: Result<(), Error>, ghost ev': Log)
    requires log == base + ev && Polled(ev, tpId, slId, obs)
    requires |obs| <= maxPolls && obs != [] && obs[|obs| - 1] == o && EitherTerminal(o)
    requires forall k | 0 <= k < |obs| - 1 :: !EitherTerminal(obs[k])
    ensures log' == base + ev'
    ensures Submitted(ev') == [] && Pauses(ev') == Pauses(ev) && Queries(ev') == Queries(ev) && Statuses(ev') == Statuses(ev)
    ensures res.Ok? ==> Cancels(ev') == CancelsFor(tpId, slId, o)
    ensures res.Err? ==> Cancels(ev') <= CancelsFor(tpId, slId, o) && res.error.ClientError?
    ensures PollsEnded(ev', if res.Err? then Err(res.error) else Ok(Resolved(o)), obs, tpId, slId, maxPolls)
    ensures (log', res) == Resolve(ex, log, symbol, tpId, slId, o)
  {
    ghost var step;
    log', res, step := ResolveLegs(ex, log, symbol, tpId, slId, o);
    ProjectionsAppend(ev, step);
    StatusesAppend(ev, step);
    AppendAssoc(base, ev, step);
    ev' := ev + step;
  }

  /** The poll loop with at most `left` rounds to go, as a definition over the exchange: no round left leaves both
      legs open; otherwise one round and what follows it. */
  function MonitorRun(ex: Exchange, log: Log, symbol: string, tpId: int, slId: int, left: nat): (Log, Result<PollEnd, Error>)
    decreases left, 1
  {
    if left == 0 then (log, Ok(StillOpen)) else RoundThen(ex, log, symbol, tpId, slId, left)
  }

  /** A round and what follows it: its failure ends the loop; a terminal leg ends it with the cancels; otherwise
      the next round. */
  function RoundThen(ex: Exchange, log: Log, symbol: string, tpId: int, slId: int, left: nat): (Log, Result<PollEnd, Error>)
    requires left > 0
    decreases left, 0
  {
    var (log1, r) := Round(ex, log, symbol, tpId, slId);
    if r.Err? then (log1, Err(r.error))
    else if EitherTerminal(r.value) then
      var (log2, d) := Resolve(ex, log1, symbol, tpId, slId, r.value);
      (log2, if d.Err? then Err(d.error) else Ok(Resolved(r.value)))
    else MonitorRun(ex, log1, symbol, tpId, slId, left - 1)
  }

  /** A round of the reference loop unfolded: the round's result decides whether the loop ends or goes on. */
  lemma RoundStep(ex: Exchange, log: Log, symbol: string, tpId: int, slId: int, left: nat,
                  log1: Log, res: Result<Observation, Error>)
    requires left > 0 && (log1, res) == Round(ex, log, symbol, tpId, slId)
    ensures RoundThen(ex, log, symbol, tpId, slId, left) ==
              if res.Err? then (log1, Err(res.error))
              else if EitherTerminal(res.value) then
                (Resolve(ex, log1, symbol, tpId, slId, res.value).0,
                 if Resolve(ex, log1, symbol, tpId, slId, res.value).1.Err?
                 then Err(Resolve(ex, log1, symbol, tpId, slId, res.value).1.error) else Ok(Resolved(res.value)))
              else MonitorRun(ex, log1, symbol, tpId, slId, left - 1)
  {
  }

  /** The poll loop of the entry point, with at most `maxPolls` rounds: it polls while both legs are live, stops
      at the first round that sees a terminal leg and then cancels exactly the legs that round saw live.
      `obs` are the statuses of the rounds, in order. */
  method Monitor(ex: Exchange, log: Log, symbol: string, tpId: int, slId: int, maxPolls: nat)
    returns (log': Log, r: Result<PollEnd, Error>, ghost ev: Log, ghost obs: seq<Observation>)
    ensures log' == log + ev && PollsEnded(ev, r, obs, tpId, slId, maxPolls)
    ensures (log', r) == MonitorRun(ex, log, symbol, tpId, slId, maxPolls)
  {
    var polls: nat := 0;
    obs := [];
    log', ev := log, [];
    ProjectionsAppend([], []);
    StatusesAppend([], []);
    while polls < maxPolls
      invariant polls == |obs| <= maxPolls && log' == log + ev
      invariant Polled(ev, tpId, slId, obs)
      invariant forall k | 0 <= k < |obs| :: !EitherTerminal(obs[k])
      invariant MonitorRun(ex, log, symbol, tpId, slId, maxPolls) == MonitorRun(ex, log', symbol, tpId, slId, maxPolls - polls)
    {
      var res;
      log', res, ev := NextRound(ex, log', symbol, tpId, slId, log, ev, obs, maxPolls);
      if res.Err? {
        r := Err(res.error);
        return;
      }
      var o := res.value;
      obs, polls := obs + [o], polls + 1;
      if EitherTerminal(o) {
        var done;
        log', done, ev := FinishRounds(ex, log', symbol, tpId, slId, o, log, ev, obs, maxPolls);
        r := if done.Err? then Err(done.error) else Ok(Resolved(o));
        return;
      }
    }
    r := Ok(StillOpen);
  }

  /** The placement step of the entry point: the bracket without a stop-limit price, and what it sent. */
  method PlaceLegs(ex: Exchange, log: Log, cfg: Config, symbol: string, side: string, qty: real, takeProfitPrice: real,
                   stopLossPrice: real, positionSide: Option<string>, reduceOnly: bool)
    returns (log': Log, placed: Result<Bracket, Error>, ghost ev: Log)
    ensures (log', placed) == PlaceBracket(ex, log, cfg, symbol, side, qty, takeProfitPrice, stopLossPrice, None, positionSide, reduceOnly)
    ensures log' == log + ev && Pauses(ev) == [] && Cancels(ev) == [] && Queries(ev) == []
    ensures var tp := LimitParams(cfg, symbol, side, qty, takeProfitPrice, "GTC", positionSide, reduceOnly);
            var sl := StopLegParams(symbol, side, qty, stopLossPrice, None, positionSide, reduceOnly);
            Submitted(ev) <= [tp, sl] && (placed.Ok? ==> Submitted(ev) == [tp, sl])
  {
    var res := PlaceBracket(ex, log, cfg, symbol, side, qty, takeProfitPrice, stopLossPrice, None, positionSide, reduceOnly);
    log', placed := res.0, res.1;
    BracketLegs(ex, log, cfg, symbol, side, qty, takeProfitPrice, stopLossPrice, None, positionSide, reduceOnly);
    BracketResult(ex, log, cfg, symbol, side, qty, takeProfitPrice, stopLossPrice, None, positionSide, reduceOnly);
    ev := Since(log, log');
  }

  /** Monitoring after placement: the placement sent only orders, so every other projection is the monitor's. */
  lemma AfterPlacement(placing: Log, monitoring: Log)
    requires Pauses(placing) == [] && Cancels(placing) == [] && Queries(placing) == [] && Submitted(monitoring) == []
    ensures var ev := placing + monitoring;
            Submitted(ev) == Submitted(placing) && Pauses(ev) == Pauses(monitoring) && Cancels(ev) == Cancels(monitoring) &&
            Queries(ev) == Queries(monitoring) && Statuses(ev) == Statuses(monitoring)
  {
    ProjectionsAppend(placing, monitoring);
    StatusesAppend(placing, monitoring);
    StatusesFollowQueries(placing);
  }

  /** The entry point after a placement that sent only the orders `placing`: the poll loop on the two legs, its
      outcome reported. */
  method Supervise(ex: Exchange, log: Log, log1: Log, symbol: string, legs: Bracket, maxPolls: nat, ghost placing: Log)
    returns (log': Log, out: CliOutcome<PollEnd>, ghost ev: Log, ghost obs: seq<Observation>)
    requires log1 == log + placing && Pauses(placing) == [] && Cancels(placing) == [] && Queries(placing) == []
    ensures log' == log + ev && Submitted(ev) == Submitted(placing) && |obs| <= maxPolls && |Cancels(ev)| <= 1
    ensures forall k | 0 <= k < |obs| - 1 :: !EitherTerminal(obs[k])
    ensures out.Completed? ==>
              Pauses(ev) == Repeat(PollInterval, |obs|) && Statuses(ev) == Flat(obs) &&
              Queries(ev) == QueryRounds(legs.tpId, legs.slId, |obs|)
    ensures out.Completed? && out.value.Resolved? ==>
              |obs| > 0 && obs[|obs| - 1] == out.value.final && EitherTerminal(out.value.final) &&
              Cancels(ev) == CancelsFor(legs.tpId, legs.slId, out.value.final)
    ensures out.Completed? && out.value.StillOpen? ==> |obs| == maxPolls && Cancels(ev) == []
    ensures !out.InterruptReported? && (out.ErrorReported? ==> out.error.ClientError?)
    ensures var run := MonitorRun(ex, log1, symbol, legs.tpId, legs.slId, maxPolls);
            log' == run.0 && (run.1.Ok? ==> out == Completed(run.1.value)) && (run.1.Err? ==> out == Report(run.1.error))
  {
    var log2, r, ev2, obs2 := Monitor(ex, log1, symbol, legs.tpId, legs.slId, maxPolls);
    AfterPlacement(placing, ev2);
    AppendAssoc(log, placing, ev2);
    log', ev, obs := log2, placing + ev2, obs2;
    out := if r.Ok? then Completed(r.value) else Report(r.error);
  }

  /** The OCO entry point: the bracket with the given position side and reduce-only flag and no stop-limit price,
      then the poll loop; validation and client errors are caught and reported, a reply without the expected
      fields is not. */
  method OcoMain(ex: Exchange, log: Log, cfg: Config, symbol: string, side: string, qty: real, takeProfitPrice: real,
                 stopLossPrice: real, positionSide: Option<string>, reduceOnly: bool, maxPolls: nat)
    returns (log': Log, out: CliOutcome<PollEnd>, ghost ev: Log, ghost obs: seq<Observation>)
    ensures log' == log + ev
    ensures var b := PlaceBracket(ex, log, cfg, symbol, side, qty, takeProfitPrice, stopLossPrice, None, positionSide, reduceOnly);
            var tp := LimitParams(cfg, symbol, side, qty, takeProfitPrice, "GTC", positionSide, reduceOnly);
            var sl := StopLegParams(symbol, side, qty, stopLossPrice, None, positionSide, reduceOnly);
            Submitted(ev) <= [tp, sl] && |Cancels(ev)| <= 1 &&
            (b.1.Err? ==> log' == b.0 && out == Report(b.1.error) && obs == [] && Queries(ev) == [] && Cancels(ev) == []) &&
            (b.1.Ok? ==>
               Submitted(ev) == [tp, sl] && |obs| <= maxPolls &&
               (forall k | 0 <= k < |obs| - 1 :: !EitherTerminal(obs[k])) &&
               (out.Completed? ==>
                  Pauses(ev) == Repeat(PollInterval, |obs|) && Statuses(ev) == Flat(obs) &&
                  Queries(ev) == QueryRounds(b.1.value.tpId, b.1.value.slId, |obs|)) &&
               (out.Completed? && out.value.Resolved? ==>
                  |obs| > 0 && obs[|obs| - 1] == out.value.final && EitherTerminal(out.value.final) &&
                  Cancels(ev) == CancelsFor(b.1.value.tpId, b.1.value.slId, out.value.final)) &&
               (out.Completed? && out.value.StillOpen? ==> |obs| == maxPolls && Cancels(ev) == []))
    ensures var b := PlaceBracket(ex, log, cfg, symbol, side, qty, takeProfitPrice, stopLossPrice, None, positionSide, reduceOnly);
            b.1.Ok? ==>
              var run := MonitorRun(ex, b.0, symbol, b.1.value.tpId, b.1.value.slId, maxPolls);
              log' == run.0 && (run.1.Ok? ==> out == Completed(run.1.value)) && (run.1.Err? ==> out == Report(run.1.error))
    ensures !out.InterruptReported?
    ensures out.ErrorReported? ==> out.error.Invalid? || out.error.ClientError?
  {
    var log1, placed, ev1 := PlaceLegs(ex, log, cfg, symbol, side, qty, takeProfitPrice, stopLossPrice, positionSide, reduceOnly);
    if placed.Err? {
      return log1, Report(placed.error), ev1, [];
    }
    log', out, ev, obs := Supervise(ex, log, log1, symbol, placed.value, maxPolls, ev1);
  }
}
