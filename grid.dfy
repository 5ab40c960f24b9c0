/** The grid strategy: evenly spaced price levels between two bounds, one limit order per level, buying
    below the midpoint and selling above it unless a side is forced. */
module Grid {
  import opened Basics
  import opened Text
  import opened Validator
  import opened Gateway
  import opened Client

  datatype Side = Buy | Sell

  function SideName(s: Side): (name: string)
    ensures name == "BUY" || name == "SELL"
  {
    match s
    case Buy => "BUY"
    case Sell => "SELL"
  }

  /** How sides are assigned: around the midpoint, or one side on every level. */
  datatype GridMode = Both | Forced(side: Side)

  /** `create_grid`'s `side` argument, compared case-sensitively: "BUY" or "SELL" force that side, anything else
      (the default "BOTH" included) splits around the midpoint. */
  function CreateGridMode(side: string): (m: GridMode)
    ensures m == Forced(Buy) <==> side == "BUY"
    ensures m == Forced(Sell) <==> side == "SELL"
    ensures m == Both <==> side != "BUY" && side != "SELL"
  {
    if side == "BUY" then Forced(Buy) else if side == "SELL" then Forced(Sell) else Both
  }

  /** The entry point's `--mode`: "long_only" buys on every level, anything else ("neutral") splits. */
  function MainGridMode(mode: string): (m: GridMode)
    ensures m == Forced(Buy) <==> mode == "long_only"
    ensures m == Both <==> mode != "long_only"
  {
    if mode == "long_only" then Forced(Buy) else Both
  }

  predicate StrictlyIncreasing(ps: seq<real>) {
    forall i, j | 0 <= i < j < |ps| :: ps[i] < ps[j]
  }

  /** `n` prices starting at `lower`, `step` apart. */
  function EvenlySpaced(lower: real, step: real, n: nat): (ps: seq<real>)
    ensures |ps| == n
  {
    seq(n, i => lower + i as real * step)
  }

  lemma ScaleSucc(i: real, step: real)
    ensures (i + 1.0) * step == i * step + step
  {}

  lemma ScaleQuotient(x: real, d: real)
    requires d != 0.0
    ensures d * (x / d) == x
  {}

  /** Consecutive prices are one step apart, and with a positive step the prices strictly increase. */
  lemma EvenlySpacedShape(lower: real, step: real, n: nat)
    ensures var ps := EvenlySpaced(lower, step, n);
            (n > 0 ==> ps[0] == lower) && forall i | 0 <= i < n - 1 :: ps[i + 1] - ps[i] == step
    ensures step > 0.0 ==> StrictlyIncreasing(EvenlySpaced(lower, step, n))
  {
    var ps := EvenlySpaced(lower, step, n);
    forall i | 0 <= i < n - 1 ensures ps[i + 1] - ps[i] == step {
      ScaleSucc(i as real, step);
    }
    if step > 0.0 {
      forall i, j | 0 <= i < j < n ensures ps[i] < ps[j] {
        MulMonoStrict(i as real, j as real, step);
      }
    }
  }

  /** `_build_grid_prices`: `levels` prices from `lower` to `upper` inclusive, one equal step apart. */
  function BuildGridPrices(lower: real, upper: real, levels: int): (r: Result<seq<real>, ValidationError>)
    ensures upper <= lower ==> r == Err(UpperNotAboveLower)
    ensures upper > lower && levels < 2 ==> r == Err(TooFewLevels)
    ensures upper > lower && levels >= 2 ==>
              r.Ok? && |r.value| == levels && r.value[0] == lower && r.value[levels - 1] == upper &&
              (forall i | 0 <= i < levels - 1 :: r.value[i + 1] - r.value[i] == (upper - lower) / (levels - 1) as real) &&
              StrictlyIncreasing(r.value)
  {
    if upper <= lower then Err(UpperNotAboveLower)
    else if levels < 2 then Err(TooFewLevels)
    else
      var step := (upper - lower) / (levels - 1) as real;
      ScaleQuotient(upper - lower, (levels - 1) as real);
      EvenlySpacedShape(lower, step, levels);
      Ok(EvenlySpaced(lower, step, levels))
  }

  /** One planned grid order. */
  datatype Level = Level(side: Side, price: real)

  /** The side of level `i` (None: the midpoint, which gets no order). */
  function LevelSide(mode: GridMode, i: nat, mid: nat): (s: Option<Side>)
    ensures mode.Forced? ==> s == Some(mode.side)
    ensures mode.Both? ==> (s == Some(Buy) <==> i < mid) && (s == Some(Sell) <==> i > mid) && (s.None? <==> i == mid)
  {
    match mode
    case Forced(side) => Some(side)
    case Both => if i < mid then Some(Buy) else if i > mid then Some(Sell) else None
  }

  /** The orders planned for the first `k` price levels, in level order. */
  function Plan(prices: seq<real>, mode: GridMode, k: nat): seq<Level>
    requires k <= |prices|
  {
    if k == 0 then []
    else
      match LevelSide(mode, k - 1, |prices| / 2)
      case None => Plan(prices, mode, k - 1)
      case Some(s) => Plan(prices, mode, k - 1) + [Level(s, prices[k - 1])]
  }

  /** In split mode every level but the midpoint gets an order: levels below it buy, levels above it sell. */
  lemma {:induction false} PlanBoth(prices: seq<real>, k: nat)
    requires k <= |prices|
    ensures var mid := |prices| / 2;
            var plan := Plan(prices, Both, k);
            |plan| == (if k <= mid then k else k - 1) &&
            (forall j | 0 <= j < |plan| && j < mid :: plan[j] == Level(Buy, prices[j])) &&
            (forall j | mid <= j < |plan| :: plan[j] == Level(Sell, prices[j + 1]))
  {
    if k > 0 {
      PlanBoth(prices, k - 1);
    }
  }

  /** With a forced side every level gets an order on that side. */
  lemma {:induction false} PlanForced(prices: seq<real>, side: Side, k: nat)
    requires k <= |prices|
    ensures |Plan(prices, Forced(side), k)| == k
    ensures forall j | 0 <= j < k :: Plan(prices, Forced(side), k)[j] == Level(side, prices[j])
  {
    if k > 0 {
      PlanForced(prices, side, k - 1);
    }
  }

  /** Over ascending prices the planned orders ascend in price, whatever the mode. */
  lemma PlanAscending(prices: seq<real>, mode: GridMode)
    requires StrictlyIncreasing(prices)
    ensures var plan := Plan(prices, mode, |prices|);
            forall i, j | 0 <= i < j < |plan| :: plan[i].price < plan[j].price
  {
    var plan := Plan(prices, mode, |prices|);
    match mode
    case Both =>
      PlanBoth(prices, |prices|);
      forall i, j | 0 <= i < j < |plan| ensures plan[i].price < plan[j].price {
        var mid := |prices| / 2;
        var pi := if i < mid then i else i + 1;
        var pj := if j < mid then j else j + 1;
        assert plan[i].price == prices[pi] && plan[j].price == prices[pj];
      }
    case Forced(side) =>
      PlanForced(prices, side, |prices|);
  }

  /** What every order of one grid shares: the client settings, the symbol, the quantity per level, the
      position side and the reduce-only flag. */
  datatype GridOrder = GridOrder(cfg: Config, symbol: string, qty: real, positionSide: Option<string>, reduceOnly: bool)

  /** The limit order a planned level becomes: `place_limit_order` with the level's side and price and GTC. */
  function LevelParams(g: GridOrder, l: Level): (o: OrderParams)
    ensures o == LimitParams(g.cfg, g.symbol, SideName(l.side), g.qty, l.price, "GTC", g.positionSide, g.reduceOnly)
  {
    OrderParams(Upper(g.symbol), SideName(l.side), Limit, g.qty, Some(l.price), None, Some("GTC"),
                ReduceOnlyFlag(g.reduceOnly), PositionSide(g.positionSide, g.cfg.defaultPositionSide))
  }

  /** The limit orders for the first `k` price levels, in level order: what the placement loop has submitted
      after `k` passes. */
  function PlannedOrders(g: GridOrder, prices: seq<real>, mode: GridMode, k: nat): seq<OrderParams>
    requires k <= |prices|
  {
    if k == 0 then []
    else
      match LevelSide(mode, k - 1, |prices| / 2)
      case None => PlannedOrders(g, prices, mode, k - 1)
      case Some(s) => PlannedOrders(g, prices, mode, k - 1) + [LevelParams(g, Level(s, prices[k - 1]))]
  }

  /** The planned orders are the planned levels, each turned into its limit order. */
  lemma {:induction false} PlannedOrdersOfPlan(g: GridOrder, prices: seq<real>, mode: GridMode, k: nat)
    requires k <= |prices|
    ensures |PlannedOrders(g, prices, mode, k)| == |Plan(prices, mode, k)|
    ensures forall j | 0 <= j < |Plan(prices, mode, k)| ::
              PlannedOrders(g, prices, mode, k)[j] == LevelParams(g, Plan(prices, mode, k)[j])
  {
    if k > 0 {
      PlannedOrdersOfPlan(g, prices, mode, k - 1);
    }
  }

  /** Every grid order is a GTC limit order of the grid's quantity on one side, at its level's price, for the
      upper-cased symbol. */
  lemma GridOrderShape(g: GridOrder, l: Level)
    ensures var o := LevelParams(g, l);
            o.orderType == Limit && o.quantity == g.qty && o.price == Some(l.price) && o.timeInForce == Some("GTC") &&
            o.symbol == Upper(g.symbol) && o.side == SideName(l.side) && o.stopPrice.None?
  {
  }

  /** The limit order of level `i`, which is not the skipped midpoint, placed through `place_limit_order` at `log`. */
  function LevelAttempt(ex: Exchange, log: Log, g: GridOrder, prices: seq<real>, mode: GridMode, i: nat)
    : (a: (Log, Result<Reply, Error>))
    requires i < |prices| && LevelSide(mode, i, |prices| / 2).Some?
    ensures a.1.Ok? ==> !a.1.value.Failure?
  {
    PlaceLimitOrder(ex, log, g.cfg, g.symbol, SideName(LevelSide(mode, i, |prices| / 2).value), g.qty, prices[i], "GTC",
                    g.positionSide, g.reduceOnly)
  }

  /** One level's order: placed through `place_limit_order`. */
  method PlaceLevel(ex: Exchange, log: Log, g: GridOrder, l: Level)
    returns (log': Log, res: Result<Reply, Error>, ghost step: Log)
    ensures log' == log + step
    ensures Cancels(step) == [] && Queries(step) == [] && Pauses(step) == []
    ensures |Submitted(step)| == |SubmitReplies(step)| <= 1
    ensures Submitted(step) != [] ==> Submitted(step) == [LevelParams(g, l)]
    ensures res.Ok? ==> Submitted(step) == [LevelParams(g, l)] && SubmitReplies(step) == [res.value]
    ensures (log', res) == PlaceLimitOrder(ex, log, g.cfg, g.symbol, SideName(l.side), g.qty, l.price, "GTC", g.positionSide, g.reduceOnly)
  {
    var (log2, r) := PlaceLimitOrder(ex, log, g.cfg, g.symbol, SideName(l.side), g.qty, l.price, "GTC",
                                     g.positionSide, g.reduceOnly);
    log', res, step := log2, r, Since(log, log2);
  }

  /** One pass of the placement loop at level `i`: the midpoint in split mode is skipped (the `continue`),
      any other level gets its limit order. */
  method PlaceLevelAt(ex: Exchange, log: Log, g: GridOrder, prices: seq<real>, mode: GridMode, i: nat)
    returns (log': Log, res: Result<Option<Reply>, Error>, ghost step: Log)
    requires i < |prices|
    ensures log' == log + step
    ensures Cancels(step) == [] && Queries(step) == [] && Pauses(step) == [] && |Submitted(step)| == |SubmitReplies(step)|
    ensures LevelSide(mode, i, |prices| / 2).None? ==> step == [] && res == Ok(None)
    ensures res.Ok? ==>
              PlannedOrders(g, prices, mode, i + 1) == PlannedOrders(g, prices, mode, i) + Submitted(step) &&
              SubmitReplies(step) == (if res.value.Some? then [res.value.value] else [])
    ensures res.Err? ==>
              LevelSide(mode, i, |prices| / 2).Some? &&
              (Submitted(step) == [] ||
               PlannedOrders(g, prices, mode, i + 1) == PlannedOrders(g, prices, mode, i) + Submitted(step))
    ensures LevelSide(mode, i, |prices| / 2).Some? ==>
              var placed := LevelAttempt(ex, log, g, prices, mode, i);
              log' == placed.0 && (res.Err? <==> placed.1.Err?) &&
              (res.Err? ==> res.error == placed.1.error) && (res.Ok? ==> res.value == Some(placed.1.value))
    ensures res.Ok? && res.value.Some? ==> !res.value.value.Failure?
  {
    var side := LevelSide(mode, i, |prices| / 2);
    if side.None? {
      assert PlannedOrders(g, prices, mode, i + 1) == PlannedOrders(g, prices, mode, i);
      ProjectionsAppend([], []);
      return log, Ok(None), [];
    }
    var l := Level(side.value, prices[i]);
    assert PlannedOrders(g, prices, mode, i + 1) == PlannedOrders(g, prices, mode, i) + [LevelParams(g, l)];
    var r;
    log', r, step := PlaceLevel(ex, log, g, l);
    res := if r.Ok? then Ok(Some(r.value)) else Err(r.error);
  }

  /** The log `ev` of the placement loop before level `i`: only limit orders, those planned for the levels
      before `i`, each with its reply in `placed`. */
  ghost predicate LevelsLogged(ev: Log, placed: seq<Reply>, g: GridOrder, prices: seq<real>, mode: GridMode, i: nat) {
    i <= |prices| && Cancels(ev) == [] && Queries(ev) == [] && Pauses(ev) == [] &&
    Submitted(ev) == PlannedOrders(g, prices, mode, i) && placed == SubmitReplies(ev) && |placed| == |Submitted(ev)|
  }

  /** The log `ev` of a placement loop that ended with `r`: only limit orders, one reply each; all planned
      orders and their replies when it went through; when it failed, the orders planned before a level
      `reached` that places one, and possibly that level's own. */
  ghost predicate PlacedLevels(ev: Log, r: Result<seq<Reply>, Error>, reached: nat, g: GridOrder, prices: seq<real>,
                               mode: GridMode) {
    Cancels(ev) == [] && Queries(ev) == [] && Pauses(ev) == [] && |SubmitReplies(ev)| == |Submitted(ev)| &&
    (r.Ok? ==> Submitted(ev) == PlannedOrders(g, prices, mode, |prices|) && r.value == SubmitReplies(ev)) &&
    (r.Err? ==>
       reached < |prices| && LevelSide(mode, reached, |prices| / 2).Some? &&
       (Submitted(ev) == PlannedOrders(g, prices, mode, reached) ||
        Submitted(ev) == PlannedOrders(g, prices, mode, reached + 1)))
  }

  /** Level `i` appended to the levels `ev` placed so far, the loop from `base` being level `i` on from `log`. */
  method NextLevel(ex: Exchange, log: Log, g: GridOrder, prices: seq<real>, mode: GridMode, i: nat,
                   ghost base: Log, ghost ev: Log, ghost placed: seq<Reply>)
    returns (log': Log, res: Result<Option<Reply>, Error>, ghost ev': Log)
    requires i < |prices| && log == base + ev && LevelsLogged(ev, placed, g, prices, mode, i)
    requires GridFrom(ex, base, g, prices, mode, 0, []) == GridFrom(ex, log, g, prices, mode, i, placed)
    ensures log' == base + ev'
    ensures res.Ok? ==> LevelsLogged(ev', placed + (if res.value.Some? then [res.value.value] else []), g, prices, mode, i + 1)
    ensures res.Err? ==> PlacedLevels(ev', Err(res.error), i, g, prices, mode)
    ensures GridFrom(ex, base, g, prices, mode, 0, []) ==
              if res.Err? then (log', Err(res.error))
              else GridFrom(ex, log', g, prices, mode, i + 1, placed + (if res.value.Some? then [res.value.value] else []))
  {
    ghost var step;
    log', res, step := PlaceLevelAt(ex, log, g, prices, mode, i);
    ProjectionsAppend(ev, step);
    AppendAssoc(base, ev, step);
    ev' := ev + step;
    LevelStep(ex, log, g, prices, mode, i, placed, log', res);
  }

  /** The placement loop from level `i` on, as a recursive definition over the exchange, `placed` being the
      replies to the orders before `i`: once every level is done, all those replies; otherwise level `i` and
      what follows. */
  function GridFrom(ex: Exchange, log: Log, g: GridOrder, prices: seq<real>, mode: GridMode, i: nat, placed: seq<Reply>)
    : (Log, Result<seq<Reply>, Error>)
    requires i <= |prices|
    decreases |prices| - i, 1
  {
    if i == |prices| then (log, Ok(placed)) else LevelThen(ex, log, g, prices, mode, i, placed)
  }

  /** Level `i` and what follows it: the skipped midpoint goes straight on; any other level's limit order
      ends the loop when it fails, and otherwise its reply joins the others. */
  function LevelThen(ex: Exchange, log: Log, g: GridOrder, prices: seq<real>, mode: GridMode, i: nat, placed: seq<Reply>)
    : (Log, Result<seq<Reply>, Error>)
    requires i < |prices|
    decreases |prices| - i, 0
  {
    if LevelSide(mode, i, |prices| / 2).None? then GridFrom(ex, log, g, prices, mode, i + 1, placed)
    else
      var a := LevelAttempt(ex, log, g, prices, mode, i);
      if a.1.Err? then (a.0, Err(a.1.error)) else GridFrom(ex, a.0, g, prices, mode, i + 1, placed + [a.1.value])
  }

  /** Level `i` of the reference loop is the level's order, when there is one, followed by the rest. */
  lemma LevelStep(ex: Exchange, log: Log, g: GridOrder, prices: seq<real>, mode: GridMode, i: nat, placed: seq<Reply>,
                  log': Log, res: Result<Option<Reply>, Error>)
    requires i < |prices|
    requires LevelSide(mode, i, |prices| / 2).None? ==> log' == log && res == Ok(None)
    requires LevelSide(mode, i, |prices| / 2).Some? ==>
               var a := LevelAttempt(ex, log, g, prices, mode, i);
               log' == a.0 && (res.Err? <==> a.1.Err?) &&
               (res.Err? ==> res.error == a.1.error) && (res.Ok? ==> res.value == Some(a.1.value))
    ensures LevelThen(ex, log, g, prices, mode, i, placed) ==
              if res.Err? then (log', Err(res.error))
              else GridFrom(ex, log', g, prices, mode, i + 1, placed + (if res.value.Some? then [res.value.value] else []))
  {
    if LevelSide(mode, i, |prices| / 2).None? {
      assert placed + [] == placed;
    }
  }

  /** Every reply of a placement loop that went through is one the exchange accepted. */
  lemma {:induction false} GridFromSound(ex: Exchange, log: Log, g: GridOrder, prices: seq<real>, mode: GridMode, i: nat,
                                         placed: seq<Reply>)
    requires i <= |prices|
    requires forall o <- placed :: !o.Failure?
    ensures var r := GridFrom(ex, log, g, prices, mode, i, placed).1;
            r.Ok? ==> forall o <- r.value :: !o.Failure?
    decreases |prices| - i, 1
  {
    if i < |prices| {
      LevelThenSound(ex, log, g, prices, mode, i, placed);
    }
  }

  /** The same from level `i` on, that level included. */
  lemma {:induction false} LevelThenSound(ex: Exchange, log: Log, g: GridOrder, prices: seq<real>, mode: GridMode, i: nat,
                                          placed: seq<Reply>)
    requires i < |prices|
    requires forall o <- placed :: !o.Failure?
    ensures var r := LevelThen(ex, log, g, prices, mode, i, placed).1;
            r.Ok? ==> forall o <- r.value :: !o.Failure?
    decreases |prices| - i, 0
  {
    if LevelSide(mode, i, |prices| / 2).None? {
      GridFromSound(ex, log, g, prices, mode, i + 1, placed);
    } else {
      var a := LevelAttempt(ex, log, g, prices, mode, i);
      if a.1.Ok? {
        GridFromSound(ex, a.0, g, prices, mode, i + 1, placed + [a.1.value]);
      }
    }
  }

  /** The placement loop of `create_grid` and of the entry point: one limit order per level in ascending order,
      the midpoint skipped in split mode; the first failure stops the loop and nothing placed is withdrawn. */
  method PlaceGrid(ex: Exchange, log: Log, g: GridOrder, prices: seq<real>, mode: GridMode)
    returns (log': Log, r: Result<seq<Reply>, Error>, ghost ev: Log, ghost reached: nat)
    ensures log' == log + ev && PlacedLevels(ev, r, reached, g, prices, mode)
    ensures r.Ok? ==> forall o <- r.value :: !o.Failure?
    ensures (log', r) == GridFrom(ex, log, g, prices, mode, 0, [])
  {
    GridFromSound(ex, log, g, prices, mode, 0, []);
    var orders: seq<Reply> := [];
    var i: nat := 0;
    log', ev := log, [];
    while i < |prices|
      invariant i <= |prices| && log' == log + ev && LevelsLogged(ev, orders, g, prices, mode, i)
      invariant GridFrom(ex, log, g, prices, mode, 0, []) == GridFrom(ex, log', g, prices, mode, i, orders)
    {
      var res;
      log', res, ev := NextLevel(ex, log', g, prices, mode, i, log, ev, orders);
      if res.Err? {
        r, reached := Err(res.error), i;
        return;
      }
      var next := orders + if res.value.Some? then [res.value.value] else [];
      assert LevelsLogged(ev, next, g, prices, mode, i + 1);
      orders, i := next, i + 1;
    }
    r, reached := Ok(orders), i;
  }

  /** `GridStrategy.create_grid`: four positivity checks and the price build before any order, then the loop
      with the case-sensitive side rule, no position side and reduce-only off. */
  method CreateGrid(ex: Exchange, log: Log, cfg: Config, symbol: string, lowerPrice: real, upperPrice: real,
                    numGrids: int, quantityPerGrid: real, side: string)
    returns (log': Log, r: Result<seq<Reply>, Error>, ghost ev: Log, ghost reached: nat)
    ensures log' == log + ev
    ensures quantityPerGrid <= 0.0 ==> ev == [] && r == Err(Invalid(NotPositive("quantity_per_grid")))
    ensures quantityPerGrid > 0.0 && lowerPrice <= 0.0 ==> ev == [] && r == Err(Invalid(NotPositive("lower_price")))
    ensures quantityPerGrid > 0.0 && lowerPrice > 0.0 && upperPrice <= 0.0 ==>
              ev == [] && r == Err(Invalid(NotPositive("upper_price")))
    ensures quantityPerGrid > 0.0 && lowerPrice > 0.0 && upperPrice > 0.0 && numGrids <= 0 ==>
              ev == [] && r == Err(Invalid(NotPositive("num_grids")))
    ensures quantityPerGrid > 0.0 && lowerPrice > 0.0 && upperPrice > 0.0 && numGrids > 0 &&
            BuildGridPrices(lowerPrice, upperPrice, numGrids).Err? ==>
              ev == [] && r == Err(Invalid(BuildGridPrices(lowerPrice, upperPrice, numGrids).error))
    ensures Cancels(ev) == [] && Queries(ev) == [] && Pauses(ev) == []
    ensures r.Ok? ==>
              var plan := Plan(BuildGridPrices(lowerPrice, upperPrice, numGrids).value, CreateGridMode(side), numGrids);
              r.value == SubmitReplies(ev) && |Submitted(ev)| == |plan| && |r.value| == |plan| &&
              (forall j | 0 <= j < |plan| ::
                 Submitted(ev)[j] == LevelParams(GridOrder(cfg, symbol, quantityPerGrid, None, false), plan[j])) &&
              |Submitted(ev)| == (if CreateGridMode(side).Both? then numGrids - 1 else numGrids) &&
              (forall i, j | 0 <= i < j < |plan| :: plan[i].price < plan[j].price) &&
              (CreateGridMode(side).Forced? ==> forall l <- plan :: l.side == CreateGridMode(side).side)
    ensures quantityPerGrid > 0.0 && lowerPrice > 0.0 && upperPrice > 0.0 && numGrids > 0 &&
            BuildGridPrices(lowerPrice, upperPrice, numGrids).Ok? && r.Err? ==>
              var prices := BuildGridPrices(lowerPrice, upperPrice, numGrids).value;
              var g := GridOrder(cfg, symbol, quantityPerGrid, None, false);
              var mode := CreateGridMode(side);
              reached < |prices| && LevelSide(mode, reached, |prices| / 2).Some? &&
              (Submitted(ev) == PlannedOrders(g, prices, mode, reached) || Submitted(ev) == PlannedOrders(g, prices, mode, reached + 1))
    ensures r.Ok? ==> forall o <- r.value :: !o.Failure?
    ensures quantityPerGrid > 0.0 && lowerPrice > 0.0 && upperPrice > 0.0 && numGrids > 0 &&
            BuildGridPrices(lowerPrice, upperPrice, numGrids).Ok? ==>
              (log', r) == GridFrom(ex, log, GridOrder(cfg, symbol, quantityPerGrid, None, false),
                                    BuildGridPrices(lowerPrice, upperPrice, numGrids).value, CreateGridMode(side), 0, [])
  {
    if ValidatePositive("quantity_per_grid", quantityPerGrid) != Pass {
      return log, Err(Invalid(NotPositive("quantity_per_grid"))), [], 0;
    }
    if ValidatePositive("lower_price", lowerPrice) != Pass {
      return log, Err(Invalid(NotPositive("lower_price"))), [], 0;
    }
    if ValidatePositive("upper_price", upperPrice) != Pass {
      return log, Err(Invalid(NotPositive("upper_price"))), [], 0;
    }
    if ValidatePositive("num_grids", numGrids as real) != Pass {
      return log, Err(Invalid(NotPositive("num_grids"))), [], 0;
    }
    var built := BuildGridPrices(lowerPrice, upperPrice, numGrids);
    if built.Err? {
      return log, Err(Invalid(built.error)), [], 0;
    }
    var prices := built.value;
    var mode := CreateGridMode(side);
    log', r, ev, reached := PlaceGrid(ex, log, GridOrder(cfg, symbol, quantityPerGrid, None, false), prices, mode);
    PlannedOrdersOfPlan(GridOrder(cfg, symbol, quantityPerGrid, None, false), prices, mode, |prices|);
    PlanSummary(prices, mode);
  }

  /** The count, order and sides of a whole plan over ascending prices. */
  lemma PlanSummary(prices: seq<real>, mode: GridMode)
    requires StrictlyIncreasing(prices) && |prices| > 0
    ensures var plan := Plan(prices, mode, |prices|);
            |plan| == (if mode.Both? then |prices| - 1 else |prices|) &&
            (forall i, j | 0 <= i < j < |plan| :: plan[i].price < plan[j].price) &&
            (mode.Forced? ==> forall l <- plan :: l.side == mode.side)
  {
    PlanAscending(prices, mode);
    match mode
    case Both => PlanBoth(prices, |prices|);
    case Forced(side) =>
      PlanForced(prices, side, |prices|);
      var plan := Plan(prices, mode, |prices|);
      forall l <- plan ensures l.side == side {
        var j :| 0 <= j < |plan| && plan[j] == l;
      }
  }

  /** What the entry point reports for the placement loop: the number of orders placed, or the caught error. */
  function PlacementOutcome(r: Result<seq<Reply>, Error>): (out: CliOutcome<nat>)
    ensures out.Completed? <==> r.Ok?
    ensures r.Ok? ==> out.value == |r.value|
    ensures r.Err? ==> out == Report(r.error)
  {
    match r
    case Ok(orders) => Completed(|orders|)
    case Err(e) => Report(e)
  }

  /** The grid entry point: the same checks under its own argument names, the `--mode` side rule, the given
      position side and reduce-only flag; validation and client errors are caught and reported. */
  method GridMain(ex: Exchange, log: Log, cfg: Config, symbol: string, baseQty: real, lowerPrice: real, upperPrice: real,
                  gridLevels: int, mode: string, positionSide: Option<string>, reduceOnly: bool)
    returns (log': Log, out: CliOutcome<nat>, ghost ev: Log, ghost reached: nat)
    ensures log' == log + ev
    ensures baseQty <= 0.0 ==> ev == [] && out == ErrorReported(Invalid(NotPositive("base_qty")))
    ensures baseQty > 0.0 && lowerPrice <= 0.0 ==> ev == [] && out == ErrorReported(Invalid(NotPositive("lower_price")))
    ensures baseQty > 0.0 && lowerPrice > 0.0 && upperPrice <= 0.0 ==>
              ev == [] && out == ErrorReported(Invalid(NotPositive("upper_price")))
    ensures baseQty > 0.0 && lowerPrice > 0.0 && upperPrice > 0.0 && gridLevels <= 0 ==>
              ev == [] && out == ErrorReported(Invalid(NotPositive("grid_levels")))
    ensures baseQty > 0.0 && lowerPrice > 0.0 && upperPrice > 0.0 && gridLevels > 0 &&
            BuildGridPrices(lowerPrice, upperPrice, gridLevels).Err? ==>
              ev == [] && out == ErrorReported(Invalid(BuildGridPrices(lowerPrice, upperPrice, gridLevels).error))
    ensures Cancels(ev) == [] && Queries(ev) == [] && Pauses(ev) == []
    ensures out.Completed? ==>
              gridLevels > 0 && BuildGridPrices(lowerPrice, upperPrice, gridLevels).Ok? &&
              var plan := Plan(BuildGridPrices(lowerPrice, upperPrice, gridLevels).value, MainGridMode(mode), gridLevels);
              |Submitted(ev)| == |plan| &&
              (forall j | 0 <= j < |plan| :: Submitted(ev)[j] == LevelParams(GridOrder(cfg, symbol, baseQty, positionSide, reduceOnly), plan[j])) &&
              out.value == |Submitted(ev)| == (if mode == "long_only" then gridLevels else gridLevels - 1) &&
              (mode == "long_only" ==> forall l <- plan :: l.side == Buy)
    ensures out.ErrorReported? ==> out.error.Invalid? || out.error.ClientError?
    ensures !out.InterruptReported?
    ensures baseQty > 0.0 && lowerPrice > 0.0 && upperPrice > 0.0 && gridLevels > 0 &&
            BuildGridPrices(lowerPrice, upperPrice, gridLevels).Ok? && (out.ErrorReported? || out.Raised?) ==>
              var prices := BuildGridPrices(lowerPrice, upperPrice, gridLevels).value;
              var g := GridOrder(cfg, symbol, baseQty, positionSide, reduceOnly);
              reached < |prices| && LevelSide(MainGridMode(mode), reached, |prices| / 2).Some? &&
              (Submitted(ev) == PlannedOrders(g, prices, MainGridMode(mode), reached) ||
               Submitted(ev) == PlannedOrders(g, prices, MainGridMode(mode), reached + 1))
    ensures baseQty > 0.0 && lowerPrice > 0.0 && upperPrice > 0.0 && gridLevels > 0 &&
            BuildGridPrices(lowerPrice, upperPrice, gridLevels).Ok? ==>
              var run := GridFrom(ex, log, GridOrder(cfg, symbol, baseQty, positionSide, reduceOnly),
                                  BuildGridPrices(lowerPrice, upperPrice, gridLevels).value, MainGridMode(mode), 0, []);
              log' == run.0 && out == PlacementOutcome(run.1)
  {
    if ValidatePositive("base_qty", baseQty) != Pass {
      return log, ErrorReported(Invalid(NotPositive("base_qty"))), [], 0;
    }
    if ValidatePositive("lower_price", lowerPrice) != Pass {
      return log, ErrorReported(Invalid(NotPositive("lower_price"))), [], 0;
    }
    if ValidatePositive("upper_price", upperPrice) != Pass {
      return log, ErrorReported(Invalid(NotPositive("upper_price"))), [], 0;
    }
    if ValidatePositive("grid_levels", gridLevels as real) != Pass {
      return log, ErrorReported(Invalid(NotPositive("grid_levels"))), [], 0;
    }
    var built := BuildGridPrices(lowerPrice, upperPrice, gridLevels);
    if built.Err? {
      return log, ErrorReported(Invalid(built.error)), [], 0;
    }
    var prices := built.value;
    var gridMode := MainGridMode(mode);
    var r;
    log', r, ev, reached := PlaceGrid(ex, log, GridOrder(cfg, symbol, baseQty, positionSide, reduceOnly), prices, gridMode);
    PlannedOrdersOfPlan(GridOrder(cfg, symbol, baseQty, positionSide, reduceOnly), prices, gridMode, |prices|);
    PlanSummary(prices, gridMode);
    out := PlacementOutcome(r);
  }

  /** `get_grid_status`'s snapshot. */
  datatype GridStatus = GridStatus(symbol: string, totalOpenOrders: nat, buyOrders: nat, sellOrders: nat)

  /** The number of records whose `side` is `side`. */
  function CountSide(rs: seq<OrderRecord>, side: string): (c: nat)
    ensures c <= |rs|
  {
    if rs == [] then 0 else CountSide(rs[..|rs| - 1], side) + (if rs[|rs| - 1].side == Some(side) then 1 else 0)
  }

  /** No record is counted both as a buy and as a sell. */
  lemma {:induction false} BuysAndSellsWithinTotal(rs: seq<OrderRecord>)
    ensures CountSide(rs, "BUY") + CountSide(rs, "SELL") <= |rs|
  {
    if rs != [] {
      BuysAndSellsWithinTotal(rs[..|rs| - 1]);
    }
  }

  /** `GridStrategy.get_grid_status`: one open-orders request for the upper-cased symbol, then counts. */
  function GetGridStatus(ex: Exchange, log: Log, symbol: string): (res: (Log, Result<GridStatus, Error>))
    ensures res.0 == log + [Call(OpenOrders(Upper(symbol)), ex(log, OpenOrders(Upper(symbol))))]
    ensures var reply := ex(log, OpenOrders(Upper(symbol)));
            (reply.Failure? ==> res.1 == Err(ClientError(Transport(reply.message)))) &&
            (reply.Info? || reply.Order? ==> res.1 == Err(MalformedReply)) &&
            (reply.OrderList? ==>
               res.1.Ok? && res.1.value.symbol == Upper(symbol) && res.1.value.totalOpenOrders == |reply.records| &&
               res.1.value.buyOrders == CountSide(reply.records, "BUY") &&
               res.1.value.sellOrders == CountSide(reply.records, "SELL") &&
               res.1.value.buyOrders + res.1.value.sellOrders <= res.1.value.totalOpenOrders)
  {
    var (log', reply) := Perform(ex, log, OpenOrders(Upper(symbol)));
    match reply
    case Err(e) => (log', Err(e))
    case Ok(OrderList(records)) =>
      BuysAndSellsWithinTotal(records);
      (log', Ok(GridStatus(Upper(symbol), |records|, CountSide(records, "BUY"), CountSide(records, "SELL"))))
    case Ok(_) => (log', Err(MalformedReply))
  }
}
