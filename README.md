# Binance futures trading bot: order validation and execution strategies

This project models the decision logic of a command-line trading bot for USDⓈ-M futures on Binance, and proves
properties of that logic in Dafny:

- **Validator** (`validator.dfy`) checks the symbol, the side and positive amounts. It then checks an order
  against the exchange's instrument filters. The LOT_SIZE check comes first (minimum quantity, then step size).
  The PRICE_FILTER check comes next (inclusive bounds, then tick size). The MIN_NOTIONAL / NOTIONAL check comes
  last. Only the first filter of each type counts, and the first failure is the one reported.
- **Client** (`client.dfy`) holds the order-shaping part of the futures client:
  - the checks run before an order is sent;
  - the first-match symbol lookup in exchangeInfo;
  - the parameters of market, limit and stop-limit orders;
  - the id rule of cancel and query.
- **Gateway** (`gateway.dfy`) stands in for HTTP. The exchange is an arbitrary function from the history so far
  and a request to a reply. Every request, its reply and every pause are recorded in a log. Properties are
  stated on projections of the log: orders submitted and their replies, pauses, cancels, queries and filter
  lookups.
- **Grid** (`grid.dfy`) places evenly spaced limit orders between two prices. Levels below the midpoint buy and
  levels above it sell, and the midpoint itself is skipped, unless a side is forced. It also covers the
  open-order status count.
- **Twap** (`twap.dfy`) splits a total quantity into equal market-order slices with a pause between
  consecutive slices. It covers both the strategy object and the entry point, whose interval formula differs.
- **Oco** (`oco.dfy`) places a take-profit limit order and then a stop leg, and builds the composite id
  `oco_{tp}_{sl}`. It also covers the entry point's poll loop, which waits until either leg is terminal and then
  cancels the legs that are still live.
- **Text** (`text.dfy`) provides ASCII `upper()`, `isalnum()`, and decimal printing of integers with its
  inverse.
- **Basics** (`basics.dfy`) provides the Option, Outcome and Result datatypes and `Repeat`.

The loops of the source are `while` loops in Dafny methods:
- the TWAP slice loop;
- the grid placement loop;
- the OCO poll loop.

Each of these methods is proved against specification functions of the log, such as `PlannedOrders`, `Beats`,
`QueryRounds` and `CancelsFor`. Lemmas prove the properties the source promises about those functions. Each loop
is also tied to a recursive reference definition over the exchange (`SlicesFrom`, `GridFrom`, `MonitorRun`). That
definition fixes the loop's whole log and result for every exchange, and lemmas by induction prove what the loop
returns about it, such as replies that are never failures.

## Model

| member | source | states |
|---|---|---|
| Validator.ValidateSymbol | src/validator.py:12-14 | a symbol passes iff it is non-empty and every character is alphanumeric; otherwise the error names the symbol |
| Validator.ValidateSide | src/validator.py:17-19 | the only failure is the side error |
| Validator.SideAcceptedInAnyCase | src/validator.py:17-19 | a side passes iff it spells BUY or SELL in some mix of letter cases |
| Validator.ValidatePositive | src/validator.py:22-25 | a value passes iff it is strictly greater than zero; the error carries the field name |
| Validator.ApplyStepZero | src/validator.py:28-30 | a zero step leaves the value unchanged |
| Validator.ApplyStepFixesMultiples | src/validator.py:28-31 | for a non-zero step, a value survives step rounding iff it is a whole number of steps |
| Validator.ApplyStepRoundsDown | src/validator.py:28-31 | for a value of at least zero and a positive step, rounding lowers the value by less than one step and never raises it |
| Validator.FirstOfKind | src/validator.py:38-40 | the index found is that of the first filter of the kind, and no earlier filter has the kind |
| Validator.Lookup | src/validator.py:38-40 | the filter found is in the list, of the kind, and the first filter of that kind; none is found iff the list has no filter of the kind |
| Validator.CheckLotSize | src/validator.py:42-48 | below minQty fails whatever the alignment; otherwise a zero step passes, and a non-zero step passes iff the quantity is a multiple of it |
| Validator.CheckPrice | src/validator.py:50-57 | passes iff the price is within inclusive bounds and (zero tick or tick multiple); the bounds error comes before the tick error |
| Validator.NotionalMinimum | src/validator.py:60 | the `notional` key takes precedence over `minNotional`; with neither key, the minimum is 0 |
| Validator.CheckNotional | src/validator.py:59-64 | passes iff there is no price, or the minimum is at most 0, or quantity × price is at least the minimum (the boundary passes) |
| Validator.ValidateWithFilters | src/validator.py:34-64 | the lot check runs first, then the price check (only when a price is given), then the notional check; the first failure is the result, including the notional error once the earlier checks pass, and the order passes iff all the checks that apply pass |
| Validator.EmptyFiltersAccept | src/validator.py:38-40 | an empty filter list accepts every order |
| Validator.LaterFilterIgnored | src/validator.py:38-40 | a filter whose kind already occurs earlier, or an unknown filter type, changes no verdict |
| Validator.StepSizeExamples | src/validator.py:42-48 | quantity 1.0005 with step 0.001 is rejected, 1.001 passes, and a quantity below minQty reports minQty even when it is aligned |
| Validator.NotionalExamples | src/validator.py:59-64 | quantity × price == minNotional passes, just below it fails, `notional` overrides `minNotional`, and there is no notional check without a price |
| Text.Upper | src/binance_client.py:107 | upper-casing keeps the length and maps each character by ASCII upper case |
| Text.UpperMatchesIgnoringCase | src/validator.py:18 | upper-casing yields an upper-case word iff the string spells that word in some mix of letter cases |
| Text.IntRoundTrip | src/advanced/oco.py:48 | reading a printed integer back gives the integer |
| Text.IntToStringInjective | src/advanced/oco.py:48 | distinct integers print differently |
| Client.Perform | src/binance_client.py:47-74 | one request is recorded with its reply; a failed reply becomes a client error, and any other reply is returned |
| Client.FindSymbol | src/binance_client.py:85-87 | the index found is the first entry with the symbol; no earlier entry has it |
| Client.GetSymbolFilters | src/binance_client.py:82-88 | one exchangeInfo request; the first entry for the upper-cased symbol is returned; a missing symbol, and an order-shaped reply without `symbols`, give "not found" for the upper-cased symbol; a list-shaped reply is malformed; a transport failure propagates |
| Client.BasicChecks | src/binance_client.py:91-95 | passes iff the symbol and side are valid, the quantity is positive, and any given price is positive; the errors come in that order: symbol, side, then "quantity", then "price" |
| Client.ValidateAndEnrich | src/binance_client.py:90-101 | a failed basic check returns with the log unchanged, so no filter lookup is sent; otherwise the result is Ok iff the lookup succeeds and the filters accept the order, a lookup error is passed on unchanged, and a filter rejection becomes the validation error |
| Client.OrderParamsShape | src/binance_client.py:106-148 | every order builder upper-cases symbol and side, makes reduceOnly "true" or "false", falls back to the configured position side when none or "" is given, and sends type MARKET, LIMIT or STOP with its own prices |
| Client.SubmitValidated | src/binance_client.py:104-116 | the new-order request is sent iff validation succeeds, and only that request besides the lookup |
| Client.PlaceMarketOrder | src/binance_client.py:103-116 | at most one MARKET order, only after validation without a price; a basic-check failure sends nothing; a validation or lookup error is returned after the lookup; once validation passes, the log and result are those of sending the MARKET order to the exchange |
| Client.PlaceLimitOrder | src/binance_client.py:118-133 | at most one LIMIT order, only after validation with its price; a basic-check failure sends nothing; a validation or lookup error is returned after the lookup; once validation passes, the log and result are those of sending the LIMIT order to the exchange |
| Client.PlaceStopLimitOrder | src/binance_client.py:135-151 | at most one STOP order, only after validation with the limit price; a basic-check failure sends nothing; a validation or lookup error is returned after the lookup; once validation passes, the log and result are those of sending the STOP order to the exchange |
| Client.MarketOrderSkipsPriceChecks | src/binance_client.py:104 | without a price, the filters accept iff the LOT_SIZE check accepts |
| Client.StopPriceNeverValidated | src/binance_client.py:136 | changing the stop price changes neither whether the order is sent nor, when it is refused, how |
| Client.SelectOrderRef | src/binance_client.py:154-160 | orderId wins over origClientOrderId; with neither, the result is the client error |
| Client.CancelOrder | src/binance_client.py:153-163 | with no id, the call fails and sends nothing; otherwise it sends one cancel for the upper-cased symbol with the chosen id |
| Client.GetOrder | src/binance_client.py:165-175 | with no id, the call fails and sends nothing; otherwise it sends one query for the upper-cased symbol with the chosen id |
| Client.Report | src/advanced/twap.py:76-78 | validation and client errors are reported; a malformed reply is not caught |
| Grid.CreateGridMode | src/advanced/grid_strategy.py:33-43 | "BUY" and "SELL" (case-sensitive) force that side; any other value splits around the midpoint |
| Grid.MainGridMode | src/advanced/grid_strategy.py:94-102 | "long_only" buys on every level; any other mode splits |
| Grid.EvenlySpacedShape | src/advanced/grid_strategy.py:14-15 | consecutive prices are one step apart, and a positive step makes them strictly increase |
| Grid.BuildGridPrices | src/advanced/grid_strategy.py:9-15 | rejects upper ≤ lower, then levels < 2; otherwise returns `levels` prices from lower to upper inclusive, with a uniform gap (upper − lower)/(levels − 1), strictly increasing |
| Grid.LevelSide | src/advanced/grid_strategy.py:33-43 | a forced side applies to every level; in split mode, below the midpoint buys, above it sells, and the midpoint gets nothing |
| Grid.PlanBoth | src/advanced/grid_strategy.py:37-43 | in split mode the plan has one order per level but the midpoint: buys at the lower levels and sells at the upper ones |
| Grid.PlanForced | src/advanced/grid_strategy.py:33-36 | with a forced side, every level gets an order on that side at its price |
| Grid.PlanAscending | src/advanced/grid_strategy.py:32-53 | over ascending prices, the planned orders ascend in price in every mode |
| Grid.PlanSummary | src/advanced/grid_strategy.py:30-53 | a whole plan has levels − 1 orders in split mode and `levels` orders when a side is forced, in ascending price, all on the forced side |
| Grid.LevelParams | src/advanced/grid_strategy.py:45-52 | a level's order is the limit order `place_limit_order` builds with that side, that price and GTC |
| Grid.LevelAttempt | src/advanced/grid_strategy.py:45-52 | a level's order is the one `place_limit_order` sends for that level's side and price with GTC; a reply it accepts is never a failure |
| Grid.PlannedOrdersOfPlan | src/advanced/grid_strategy.py:45-53 | the orders submitted are the plan's levels, each turned into its limit order, in order |
| Grid.GridOrderShape | src/advanced/grid_strategy.py:45-52 | every grid order is a GTC limit order of the grid quantity at its level's price for the upper-cased symbol |
| Grid.PlaceLevelAt | src/advanced/grid_strategy.py:32-53 | one pass of the loop: the midpoint is skipped with nothing sent; any other level sends its planned order, and its log and result are those of that level's `place_limit_order` on the exchange; an accepted reply is never a failure |
| Grid.PlaceGrid | src/advanced/grid_strategy.py:32-55 | the log and result are those of the reference loop `GridFrom` over the exchange; on success, exactly the planned orders are submitted in level order, and the replies are returned in the same order, none a failure; the first failure stops the loop, with the failing level's error, after the earlier planned orders; nothing is cancelled or queried |
| Grid.GridFromSound | src/advanced/grid_strategy.py:32-55 | every reply of a placement loop that went through is an accepted order, never a failure |
| Grid.LevelThenSound | src/advanced/grid_strategy.py:32-55 | the same for the loop from a level on, that level included |
| Grid.CreateGrid | src/advanced/grid_strategy.py:22-55 | the four positivity checks, then the price build, run in order before any request; after a successful build, the log and result are those of the reference loop over the exchange; on success, one reply per planned order, none a failure, and the submitted orders follow the plan in ascending price, numbering levels − 1 in split mode and `levels` when a side is forced; an error after the build is that of the first failing level's limit order, sent after the planned orders before it |
| Grid.PlacementOutcome | src/advanced/grid_strategy.py:113-121 | a placement that went through completes with the number of orders placed; a failed one is reported with its error, except a malformed reply, which is raised |
| Grid.GridMain | src/advanced/grid_strategy.py:83-121 | the same checks under the entry point's names; a failed price build is reported before any request; after a successful build, the log is the reference loop's and the outcome is that loop's result reported; "long_only" places an order on every level as a buy, otherwise levels − 1 orders; a placement error is that of the failing level's limit order; errors are reported, never an interrupt |
| Grid.CountSide | src/advanced/grid_strategy.py:59-60 | a count never exceeds the number of records |
| Grid.BuysAndSellsWithinTotal | src/advanced/grid_strategy.py:59-63 | buy count + sell count ≤ number of open orders |
| Grid.GetGridStatus | src/advanced/grid_strategy.py:57-66 | one open-orders request for the upper-cased symbol; the total is the list length, the buy and sell counts come from the records, and a failure propagates |
| Twap.RepeatTotal | src/advanced/twap.py:19 | n orders of quantity q total n·q |
| Twap.SlicesAddUp | src/advanced/twap.py:19-31 | n slices of total/n add up to the total |
| Twap.BeatsAlternate | src/advanced/twap.py:23-33 | the schedule alternates order and pause, starts and ends with an order, and has 2n − 1 beats |
| Twap.Slice | src/advanced/twap.py:25-33 | one slice submits one market order, then pauses only when a pause is due and the order went through; its result is the market order's, and a failure leaves the log as the order left it |
| Twap.RunSlices | src/advanced/twap.py:23-33 | the log and result are those of the reference loop `SlicesFrom` over the exchange; all n slices are submitted as identical market orders, with n − 1 pauses in between and none after the last, and no returned reply is a failure; a failure on a slice stops the loop, with no later slice sent, and its error is that of the market order sent after the earlier slices and pauses; an interrupt comes only in a pause, and a loop with an interrupt due before its last slice never completes |
| Twap.SlicesFromSound | src/advanced/twap.py:23-33 | every reply of a slice loop that sent every slice is an accepted order; a loop with an interrupt due before its last slice never sends every slice |
| Twap.RunSummary | src/advanced/twap.py:61-80 | a slice loop's log holds only slices of the one market order and pauses of the one interval: all n slices and n − 1 pauses when it went through, those before the interrupt when it came, and no more slices than the interrupt allows when one is due |
| Twap.ExecuteTwap | src/advanced/twap.py:14-36 | the three positivity checks run before anything is sent; for valid inputs, the log is that of the reference loop over the exchange, and the result is Ok iff that loop sent every slice, with its replies, otherwise that loop's failing slice's error; on success there are exactly num_slices market orders of total/num_slices, which add up to the total, and num_slices − 1 pauses of duration·60/num_slices, alternating, and no reply is a failure |
| Twap.RunOutcome | src/advanced/twap.py:74-80 | a run is reported complete iff every slice was sent, and interrupted iff the interrupt came in a pause; a failed slice's validation or client error is reported, and a malformed reply is raised |
| Twap.TwapMain | src/advanced/twap.py:51-80 | the interval is duration_sec/slices, with no factor 60; for valid inputs the log is the reference loop's and the outcome is that run's, reported; an interrupt during a pause is reported after exactly that many slices; an interrupt due before the last slice means the run never completes and sends at most that many slices; a reported or raised error is that of the failing slice's market order |
| Oco.TerminalStatuses | src/advanced/oco.py:11-12 | exactly FILLED, CANCELED, EXPIRED and REJECTED are terminal; a missing status is not |
| Oco.StopLegParams | src/advanced/oco.py:31-42 | the stop leg is STOP_MARKET at the stop price without a limit price; a truthy stop-limit price makes it STOP with that price; it has no time in force and defaults to position side BOTH |
| Oco.OrderIdOf | src/advanced/oco.py:29 | the id is read iff the reply is an order with an orderId |
| Oco.PostStopLeg | src/advanced/oco.py:44-45 | the stop leg is posted directly, with no validation, and its id is read from the reply |
| Oco.BracketLegs | src/advanced/oco.py:21-45 | the take-profit order goes first; the stop leg is sent iff the take-profit order was placed and its id read; nothing else is sent |
| Oco.BracketResult | src/advanced/oco.py:21-59 | the first failure is passed on unchanged; the result holds both ids iff both replies carry one |
| Oco.OrderListIdInjective | src/advanced/oco.py:48 | the composite id `oco_{tp}_{sl}` determines both leg ids |
| Oco.PlaceOcoOrder | src/advanced/oco.py:19-59 | the result has the composite id, the upper-cased symbol and side, and two legs: take profit first with its price, then the stop leg with its type and no price; errors pass through unchanged |
| Oco.CancelsFor | src/advanced/oco.py:107-111 | the legs cancelled are exactly the non-terminal ones, take profit first: at most one once a leg is terminal, none when both are, and the stop leg for (FILLED, NEW) |
| Oco.StatusOf | src/advanced/oco.py:104-105 | a status read succeeds iff the reply is a dictionary, and gives its status; a list-shaped reply is malformed, and a failed reply is the client's transport error |
| Oco.QueryLeg | src/advanced/oco.py:102-104 | one status query by order id, and nothing else; the log and the reply are those of `get_order` by that id on the exchange, and the reply is returned without its status being read |
| Oco.PollRound | src/advanced/oco.py:101-105 | one round sleeps POLL_INTERVAL, then queries take profit and then the stop leg, and only then reads the two statuses in that order; a failed first query sends no second query, and a malformed reply comes after both queries; the log and the observation are those of the reference round over the exchange |
| Oco.CancelLeg | src/advanced/oco.py:109 | one cancel by order id, and nothing else; the log and any error are those of `cancel_order` by that id on the exchange |
| Oco.ResolveLegs | src/advanced/oco.py:107-111 | the cancels issued are those of CancelsFor, in order; a cancel failure stops after a prefix of them; the log and result are those of the reference loop exit over the exchange |
| Oco.Monitor | src/advanced/oco.py:100-113 | the log and result are those of the reference loop `MonitorRun` over the exchange; rounds continue while both legs are live and stop at the first round with a terminal leg; each round is one pause and two queries, whose statuses are the observations in order; exactly the live legs are then cancelled; nothing is submitted; an error is a client error or a malformed reply |
| Oco.PlaceLegs | src/advanced/oco.py:75-96 | the entry point places the bracket with its position side and reduce-only flag and no stop-limit price |
| Oco.Supervise | src/advanced/oco.py:100-117 | the monitoring that follows placement submits nothing and issues at most one cancel; its log is the reference loop's, and its outcome is that loop's result, with errors reported |
| Oco.OcoMain | src/advanced/oco.py:62-117 | a placement failure is reported with no poll; otherwise both legs are submitted, then polled until a leg is terminal, and the remaining live leg is cancelled, the log and outcome after placement being those of the reference poll loop on the exchange; errors are reported |

## Left out

- Transport, HMAC signing, request timestamps, `recvWindow`, API keys and HTTP status handling are not modelled: the
  exchange is an arbitrary function of the history, and a failed reply stands for both a network error and an
  HTTP status of 400 or more (src/binance_client.py:25-74).
- Replies are typed (a failure, exchangeInfo, one order, or a list of orders). Where the source reads a reply of
  the wrong shape it raises an exception no entry point catches: `res["orderId"]` on a list raises TypeError,
  on a dictionary without the key KeyError, and `.get(...)` on a list AttributeError. The model returns
  MalformedReply for each of these and does not tell the exception types apart. A plain-text body the source
  returns on a JSON decoding failure is not a separate case.
- `time.sleep` is a recorded pause of the given length; no clock is modelled. A keyboard interrupt is modelled
  only during the TWAP entry point's pauses (the `interruptAfter` parameter).
- Oco.Monitor: the `while True` poll loop is bounded by a `maxPolls` fuel parameter; running out of fuel is the
  StillOpen outcome, which the source never reaches.
- Decimal and float arithmetic are exact `real` arithmetic: no 28-digit Decimal context, no `Decimal(str(float))`
  rounding, no float error in the grid prices or the TWAP slice quantity. Step rounding truncates toward zero
  like `Decimal //`, and its rounding-down property is stated for non-negative values only.
- Text.Upper: `str.upper()` and `str.isalnum()` are modelled on ASCII only.
- Printing and logging are left out, and so are the `res.get('orderId')` and `o.get(...)` reads done only to
  print (src/advanced/twap.py:69, src/advanced/grid_strategy.py:116-117). The OCO entry point's messages are
  left out too.
- argparse is left out: the `choices` restriction on `--mode` and the int/float conversion of the arguments.
  Every string is accepted as a mode.
- Twap.ExecuteTwap: the default `num_slices=10` of `execute_twap` (src/advanced/twap.py:14) is not modelled;
  the number of slices is always passed.
- Client.GetSymbolFilters: the `for` loop over `symbols` is modelled as a recursive first-match function, since
  it updates nothing. `info.get("symbols", [])` on a dictionary reply without the key, such as an order, is an
  empty list, so the symbol is not found.
- Gateway and client configuration (`src/config.py`), `src/main.py` and the thin wrapper scripts
  (`src/market_orders.py`, `src/limit_orders.py`, `src/advanced/stop_limit.py`) are not part of this model.
- Where the system's documentation and its code differ, the model follows the code:
  - `Decimal("1.0005") // Decimal("0.001")` is 1000, so quantity 1.0005 with step 0.001 is rejected.
  - A failed poll query or cancel in the OCO loop is not retried. It ends the loop with the error reported.
  - When the stop leg fails, the take-profit order already placed is neither cancelled nor reported.
