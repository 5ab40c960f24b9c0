/** The TWAP scheduler: a total quantity split into equal market-order slices, with a pause between
    consecutive slices. Pauses are recorded events of the log, not elapsed time. */
module Twap {
  import opened Basics
  import opened Validator
  import opened Gateway
  import opened Client

  datatype SliceRun = AllSubmitted(orders: seq<Reply>) | SliceFailed(error: Error) | StoppedByInterrupt(completed: nat)

  /** The summed quantity of a sequence of orders. */
  function TotalQuantity(os: seq<OrderParams>): real {
    if os == [] then 0.0 else TotalQuantity(os[..|os| - 1]) + os[|os| - 1].quantity
  }

  /** `n` orders of quantity `q` each add up to `n * q`. */
  lemma {:induction false} RepeatTotal(o: OrderParams, n: nat)
    ensures TotalQuantity(Repeat(o, n)) == n as real * o.quantity
  {
    if n > 0 {
      assert Repeat(o, n)[..n - 1] == Repeat(o, n - 1);
      RepeatTotal(o, n - 1);
    }
  }

  /** What a log shows of the schedule: each order sent and each pause taken, in order. */
  datatype Beat = Sent | Waited

  function PickBeat(e: Event): seq<Beat> {
    if e.Call? && e.request.NewOrder? then [Sent] else if e.Pause? then [Waited] else []
  }

  function Timeline(ev: Log): seq<Beat> { Collect(ev, PickBeat) }

  /** The beats of the first `k` of `n` slices: each slice is sent, and followed by a pause unless it is the last. */
  function Beats(k: nat, n: nat): seq<Beat> {
    if k == 0 then [] else Beats(k - 1, n) + (if k < n then [Sent, Waited] else [Sent])
  }

  /** The whole schedule alternates: order, pause, order, ..., order; it starts and ends with an order. */
  lemma {:induction false} BeatsAlternate(k: nat, n: nat)
    requires k <= n && 0 < n
    ensures |Beats(k, n)| == (if k < n then 2 * k else 2 * k - 1)
    ensures forall j | 0 <= j < |Beats(k, n)| :: Beats(k, n)[j] == (if j % 2 == 0 then Sent else Waited)
  {
    if k > 0 {
      BeatsAlternate(k - 1, n);
    }
  }

  /** Without pauses, the timeline is one `Sent` per order. */
  lemma {:induction false} TimelineWithoutPauses(ev: Log)
    requires Pauses(ev) == []
    ensures Timeline(ev) == Repeat(Sent, |Submitted(ev)|)
    decreases |ev|
  {
    if ev != [] {
      var pre := ev[..|ev| - 1];
      TimelineWithoutPauses(pre);
    }
  }

  /** A log part with one order and no pause shows a single `Sent`. */
  lemma SentOnce(step: Log)
    requires Pauses(step) == [] && |Submitted(step)| == 1
    ensures Timeline(step) == [Sent]
  {
    TimelineWithoutPauses(step);
    assert Repeat(Sent, 1) == [Sent];
  }

  /** Appending a pause adds it to the pauses and a `Waited` to the timeline, and leaves the other projections. */
  lemma PauseAppended(step: Log, d: real)
    ensures Submitted(step + [Pause(d)]) == Submitted(step) && SubmitReplies(step + [Pause(d)]) == SubmitReplies(step)
    ensures Cancels(step + [Pause(d)]) == Cancels(step) && Queries(step + [Pause(d)]) == Queries(step)
    ensures Pauses(step + [Pause(d)]) == Pauses(step) + [d] && Timeline(step + [Pause(d)]) == Timeline(step) + [Waited]
  {
    ProjectionsAppend(step, [Pause(d)]);
    ProjectionsOne(Pause(d));
    CollectAppend(step, [Pause(d)], PickBeat);
    CollectOne(Pause(d), PickBeat);
  }

  /** `n` equal slices of `total / n` add up to `total`. */
  lemma SlicesAddUp(o: OrderParams, n: nat, total: real)
    requires n > 0 && o.quantity == total / n as real
    ensures TotalQuantity(Repeat(o, n)) == total
  {
    RepeatTotal(o, n);
  }

  /** However the slice loop ends, every order it sent is the same slice and every pause the same interval. */
  lemma RepeatsOfRun(p: OrderParams, interval: real, n: nat, done: nat)
    requires 0 < n && done <= n
    ensures forall k: nat | k <= done + 1 :: forall o <- Repeat(p, k) :: o == p
    ensures forall k: nat | k <= n :: forall d <- Repeat(interval, k) :: d == interval
  {
    forall k: nat | k <= done + 1 ensures forall o <- Repeat(p, k) :: o == p {
      RepeatElements(p, k);
    }
    forall k: nat | k <= n ensures forall d <- Repeat(interval, k) :: d == interval {
      RepeatElements(interval, k);
    }
  }

  /** What a slice loop sends and when: each slice's market order, the number of slices, the pause between
      consecutive slices, and the slice after whose pause a keyboard interrupt arrives, if any. */
  datatype Schedule = Schedule(cfg: Config, symbol: string, side: string, qty: real, positionSide: Option<string>,
                               reduceOnly: bool, n: nat, interval: real, interruptAfter: Option<nat>)

  /** The slice loop from slice `i` on, as a recursive definition over the exchange, `sent` being the replies
      to the slices before `i`: once all slices are sent, all their replies; otherwise slice `i` and what follows. */
  function SlicesFrom(ex: Exchange, log: Log, s: Schedule, i: nat, sent: seq<Reply>): (Log, SliceRun)
    requires i <= s.n
    decreases s.n - i, 1
  {
    if i == s.n then (log, AllSubmitted(sent)) else SliceThen(ex, log, s, i, sent)
  }

  /** Slice `i` and what follows it: its market order, whose failure ends the run; then the interrupt if it
      arrives after this slice; otherwise the pause, unless this is the last slice, and the later slices. */
  function SliceThen(ex: Exchange, log: Log, s: Schedule, i: nat, sent: seq<Reply>): (Log, SliceRun)
    requires i < s.n
    decreases s.n - i, 0
  {
    var placed := PlaceMarketOrder(ex, log, s.cfg, s.symbol, s.side, s.qty, s.positionSide, s.reduceOnly);
    if placed.1.Err? then (placed.0, SliceFailed(placed.1.error))
    else if i < s.n - 1 && s.interruptAfter == Some(i + 1) then (placed.0, StoppedByInterrupt(i + 1))
    else if i < s.n - 1 then SlicesFrom(ex, placed.0 + [Pause(s.interval)], s, i + 1, sent + [placed.1.value])
    else SlicesFrom(ex, placed.0, s, i + 1, sent + [placed.1.value])
  }

  /** One slice: the market order, then, when `pauseAfter` holds and the order went through, the pause. */
  method Slice(ex: Exchange, log: Log, cfg: Config, symbol: string, side: string, qty: real,
               positionSide: Option<string>, reduceOnly: bool, interval: real, pauseAfter: bool)
    returns (log': Log, res: Result<Reply, Error>, ghost step: Log)
    ensures log' == log + step
    ensures Cancels(step) == [] && Queries(step) == []
    ensures |Submitted(step)| == |SubmitReplies(step)| <= 1
    ensures Submitted(step) != [] ==> Submitted(step) == [MarketParams(cfg, symbol, side, qty, positionSide, reduceOnly)]
    ensures res.Err? ==> Pauses(step) == []
    ensures res.Ok? ==>
              Submitted(step) == [MarketParams(cfg, symbol, side, qty, positionSide, reduceOnly)] &&
              SubmitReplies(step) == [res.value] && Pauses(step) == (if pauseAfter then [interval] else [])
    ensures res.Ok? ==> Timeline(step) == (if pauseAfter then [Sent, Waited] else [Sent])
    ensures var placed := PlaceMarketOrder(ex, log, cfg, symbol, side, qty, positionSide, reduceOnly);
            res == placed.1 && (res.Err? ==> log' == placed.0) &&
            (res.Ok? ==> !res.value.Failure? && log' == if pauseAfter then placed.0 + [Pause(interval)] else placed.0)
  {
    var p := MarketParams(cfg, symbol, side, qty, positionSide, reduceOnly);
    var (log2, r) := PlaceMarketOrder(ex, log, cfg, symbol, side, qty, positionSide, reduceOnly);
    log', res, step := log2, r, Since(log, log2);
    if res.Ok? {
      SentOnce(step);
      if pauseAfter {
        PauseAppended(step, interval);
        AppendAssoc(log, step, [Pause(interval)]);
        log', step := log' + [Pause(interval)], step + [Pause(interval)];
      }
    }
  }

  /** The log `ev` of the first `i` of `n` slices, answered with `sent`: each slice's order `p`, followed by the
      pause `interval` unless it is the last. */
  ghost predicate SlicesLogged(ev: Log, sent: seq<Reply>, p: OrderParams, interval: real, i: nat, n: nat) {
    i <= n && 0 < n && Cancels(ev) == [] && Queries(ev) == [] && SubmitReplies(ev) == sent && |sent| == i &&
    Submitted(ev) == Repeat(p, i) && Pauses(ev) == Repeat(interval, if i < n then i else n - 1) &&
    Timeline(ev) == Beats(i, n)
  }

  /** The log `ev` of a slice loop over `n` slices of order `p` that ended as `r` after `done` slices: all sent;
      or the order of slice `done` failed, possibly after reaching the exchange, before the interrupt was due;
      or the interrupt arrived in the pause after slice `done`. */
  ghost predicate RanSlices(ev: Log, r: SliceRun, done: nat, p: OrderParams, interval: real, n: nat,
                            interruptAfter: Option<nat>) {
    0 < n && done <= n && Cancels(ev) == [] && Queries(ev) == [] && |SubmitReplies(ev)| == |Submitted(ev)| &&
    match r
    case AllSubmitted(orders) =>
      done == n && Submitted(ev) == Repeat(p, n) && orders == SubmitReplies(ev) &&
      Pauses(ev) == Repeat(interval, n - 1) && Timeline(ev) == Beats(n, n)
    case SliceFailed(_) =>
      done < n && Pauses(ev) == Repeat(interval, done) &&
      (Submitted(ev) == Repeat(p, done) || Submitted(ev) == Repeat(p, done + 1)) &&
      (interruptAfter.Some? && 0 < interruptAfter.value < n ==> done < interruptAfter.value)
    case StoppedByInterrupt(completed) =>
      interruptAfter == Some(done) && 0 < done < n && completed == done &&
      Submitted(ev) == Repeat(p, done) && Pauses(ev) == Repeat(interval, done - 1) &&
      Timeline(ev) == Beats(done - 1, n) + [Sent]
  }

  /** The log of a slice loop as the entry point reports it: only slices of `p` and pauses of `interval`, all of
      them when the loop went through, those before the interrupt when it came, and no more slices than the
      interrupt allowed when it was due. */
  lemma RunSummary(ev: Log, r: SliceRun, done: nat, p: OrderParams, interval: real, n: nat, interruptAfter: Option<nat>)
    requires RanSlices(ev, r, done, p, interval, n, interruptAfter)
    requires interruptAfter.Some? && 0 < interruptAfter.value < n ==> !r.AllSubmitted?
    ensures Cancels(ev) == [] && Queries(ev) == []
    ensures (forall o <- Submitted(ev) :: o == p) && (forall d <- Pauses(ev) :: d == interval)
    ensures r.AllSubmitted? ==> Submitted(ev) == Repeat(p, n) && Pauses(ev) == Repeat(interval, n - 1)
    ensures r.StoppedByInterrupt? ==>
              interruptAfter.Some? && 0 < interruptAfter.value < n &&
              Submitted(ev) == Repeat(p, interruptAfter.value) && Pauses(ev) == Repeat(interval, interruptAfter.value - 1)
    ensures interruptAfter.None? ==> !r.StoppedByInterrupt?
    ensures interruptAfter.Some? && 0 < interruptAfter.value < n ==> |Submitted(ev)| <= interruptAfter.value
  {
    RepeatsOfRun(p, interval, n, done);
  }

  /** Slice `i` of `n` appended to the `i` slices logged so far in `ev`: the pause follows unless this is the last
      slice or the interrupt arrives in it. */
  method NextSlice(ex: Exchange, log: Log, cfg: Config, symbol: string, side: string, qty: real, n: nat, interval: real,
                   positionSide: Option<string>, reduceOnly: bool, interruptAfter: Option<nat>, i: nat,
                   ghost base: Log, ghost ev: Log, ghost sent: seq<Reply>)
    returns (log': Log, res: Result<Reply, Error>, interrupted: bool, ghost ev': Log)
    requires i < n && log == base + ev
    requires SlicesLogged(ev, sent, MarketParams(cfg, symbol, side, qty, positionSide, reduceOnly), interval, i, n)
    requires interruptAfter.Some? && 0 < interruptAfter.value < n ==> i < interruptAfter.value
    ensures log' == base + ev' && interrupted == (i < n - 1 && interruptAfter == Some(i + 1))
    ensures var p := MarketParams(cfg, symbol, side, qty, positionSide, reduceOnly);
            (res.Err? ==> RanSlices(ev', SliceFailed(res.error), i, p, interval, n, interruptAfter)) &&
            (res.Ok? && interrupted ==> RanSlices(ev', StoppedByInterrupt(i + 1), i + 1, p, interval, n, interruptAfter)) &&
            (res.Ok? && !interrupted ==>
               SlicesLogged(ev', sent + [res.value], p, interval, i + 1, n) &&
               (interruptAfter.Some? && 0 < interruptAfter.value < n ==> i + 1 < interruptAfter.value))
    ensures res.Ok? ==> !res.value.Failure?
    ensures SliceThen(ex, log, Schedule(cfg, symbol, side, qty, positionSide, reduceOnly, n, interval, interruptAfter), i, sent) ==
              if res.Err? then (log', SliceFailed(res.error))
              else if interrupted then (log', StoppedByInterrupt(i + 1))
              else SlicesFrom(ex, log', Schedule(cfg, symbol, side, qty, positionSide, reduceOnly, n, interval, interruptAfter), i + 1, sent + [res.value])
  {
    interrupted := i < n - 1 && interruptAfter == Some(i + 1);
    ghost var step;
    log', res, step := Slice(ex, log, cfg, symbol, side, qty, positionSide, reduceOnly, interval, i < n - 1 && !interrupted);
    ghost var p := MarketParams(cfg, symbol, side, qty, positionSide, reduceOnly);
    ProjectionsAppend(ev, step);
    CollectAppend(ev, step, PickBeat);
    AppendAssoc(base, ev, step);
    ev' := ev + step;
    if res.Err? {
      SliceFailedLogged(ev, ev', sent, res.error, p, interval, i, n, interruptAfter);
    } else if interrupted {
      SliceStoppedLogged(ev, ev', sent, res.value, p, interval, i, n, interruptAfter);
    } else {
      SliceLoggedNext(ev, ev', sent, res.value, p, interval, i, n);
    }
    SliceStep(ex, log, Schedule(cfg, symbol, side, qty, positionSide, reduceOnly, n, interval, interruptAfter), i, sent, log', res);
  }

  /** A failed slice after `i` logged ones ends the loop: no pause was added, and at most its own order was sent. */
  lemma SliceFailedLogged(ev: Log, ev': Log, sent: seq<Reply>, e: Error, p: OrderParams, interval: real, i: nat, n: nat,
                          interruptAfter: Option<nat>)
    requires i < n && SlicesLogged(ev, sent, p, interval, i, n)
    requires interruptAfter.Some? && 0 < interruptAfter.value < n ==> i < interruptAfter.value
    requires Cancels(ev') == [] && Queries(ev') == [] && Pauses(ev') == Pauses(ev)
    requires Submitted(ev') == Submitted(ev) || Submitted(ev') == Submitted(ev) + [p]
    requires |SubmitReplies(ev')| == |Submitted(ev')|
    ensures RanSlices(ev', SliceFailed(e), i, p, interval, n, interruptAfter)
  {
    assert Repeat(p, i + 1) == Repeat(p, i) + [p];
  }

  /** A slice sent after `i` logged ones, with the interrupt in the pause after it, ends the loop. */
  lemma SliceStoppedLogged(ev: Log, ev': Log, sent: seq<Reply>, reply: Reply, p: OrderParams, interval: real, i: nat,
                           n: nat, interruptAfter: Option<nat>)
    requires i < n - 1 && interruptAfter == Some(i + 1) && SlicesLogged(ev, sent, p, interval, i, n)
    requires Cancels(ev') == [] && Queries(ev') == [] && Pauses(ev') == Pauses(ev) && Timeline(ev') == Timeline(ev) + [Sent]
    requires Submitted(ev') == Submitted(ev) + [p] && SubmitReplies(ev') == SubmitReplies(ev) + [reply]
    ensures RanSlices(ev', StoppedByInterrupt(i + 1), i + 1, p, interval, n, interruptAfter)
  {
    assert Repeat(p, i + 1) == Repeat(p, i) + [p];
  }

  /** A slice sent after `i` logged ones, with no interrupt after it, leaves `i + 1` slices logged. */
  lemma SliceLoggedNext(ev: Log, ev': Log, sent: seq<Reply>, reply: Reply, p: OrderParams, interval: real, i: nat, n: nat)
    requires i < n && SlicesLogged(ev, sent, p, interval, i, n)
    requires Cancels(ev') == [] && Queries(ev') == []
    requires Submitted(ev') == Submitted(ev) + [p] && SubmitReplies(ev') == SubmitReplies(ev) + [reply]
    requires Pauses(ev') == Pauses(ev) + (if i < n - 1 then [interval] else [])
    requires Timeline(ev') == Timeline(ev) + (if i < n - 1 then [Sent, Waited] else [Sent])
    ensures SlicesLogged(ev', sent + [reply], p, interval, i + 1, n)
  {
    assert Repeat(p, i + 1) == Repeat(p, i) + [p];
    if i < n - 1 {
      assert Repeat(interval, i + 1) == Repeat(interval, i) + [interval];
    } else {
      assert Pauses(ev) + [] == Pauses(ev);
    }
  }

  /** Slice `i` of the reference run is the market order followed, when it succeeds, by the rest of the run. */
  lemma SliceStep(ex: Exchange, log: Log, s: Schedule, i: nat, sent: seq<Reply>, log': Log, res: Result<Reply, Error>)
    requires i < s.n
    requires var placed := PlaceMarketOrder(ex, log, s.cfg, s.symbol, s.side, s.qty, s.positionSide, s.reduceOnly);
             res == placed.1 && (res.Err? ==> log' == placed.0) &&
             (res.Ok? ==> log' == if i < s.n - 1 && s.interruptAfter != Some(i + 1) then placed.0 + [Pause(s.interval)] else placed.0)
    ensures SliceThen(ex, log, s, i, sent) ==
              if res.Err? then (log', SliceFailed(res.error))
              else if i < s.n - 1 && s.interruptAfter == Some(i + 1) then (log', StoppedByInterrupt(i + 1))
              else SlicesFrom(ex, log', s, i + 1, sent + [res.value])
  {
  }

  /** The number of slices after which the interrupt of `interruptAfter` arrives, or `n` when it never does:
      there is no pause to interrupt after no slice or after the last one. */
  function InterruptDue(interruptAfter: Option<nat>, n: nat): (k: nat)
    ensures k <= n
    ensures k < n <==> interruptAfter.Some? && 0 < interruptAfter.value < n
    ensures k < n ==> k == interruptAfter.value
  {
    if interruptAfter.Some? && 0 < interruptAfter.value < n then interruptAfter.value else n
  }

  /** Every reply in a run that sent all its slices is one the exchange accepted, and a run with an interrupt
      still ahead of slice `i` does not send all its slices. */
  lemma {:induction false} SlicesFromSound(ex: Exchange, log: Log, s: Schedule, i: nat, sent: seq<Reply>)
    requires i <= s.n
    requires forall o <- sent :: !o.Failure?
    ensures var run := SlicesFrom(ex, log, s, i, sent).1;
            (run.AllSubmitted? ==> forall o <- run.orders :: !o.Failure?) &&
            (i < InterruptDue(s.interruptAfter, s.n) < s.n ==> !run.AllSubmitted?)
    decreases s.n - i
  {
    if i < s.n {
      var (log1, r) := PlaceMarketOrder(ex, log, s.cfg, s.symbol, s.side, s.qty, s.positionSide, s.reduceOnly);
      if r.Ok? && !(i < s.n - 1 && s.interruptAfter == Some(i + 1)) {
        SlicesFromSound(ex, if i < s.n - 1 then log1 + [Pause(s.interval)] else log1, s, i + 1, sent + [r.value]);
      }
    }
  }

  /** The slice loop: `n` market orders of `qty`, each but the last followed by a pause of `interval`.
      `interruptAfter`, when present, is a keyboard interrupt arriving during the pause after that many slices. */
  method RunSlices(ex: Exchange, log: Log, cfg: Config, symbol: string, side: string, qty: real, n: nat, interval: real,
                   positionSide: Option<string>, reduceOnly: bool, interruptAfter: Option<nat>)
    returns (log': Log, r: SliceRun, ghost ev: Log, ghost done: nat)
    requires n > 0
    ensures log' == log + ev
    ensures RanSlices(ev, r, done, MarketParams(cfg, symbol, side, qty, positionSide, reduceOnly), interval, n, interruptAfter)
    ensures r.AllSubmitted? ==> forall o <- r.orders :: !o.Failure?
    ensures interruptAfter.Some? && 0 < interruptAfter.value < n ==> !r.AllSubmitted?
    ensures (log', r) == SlicesFrom(ex, log, Schedule(cfg, symbol, side, qty, positionSide, reduceOnly, n, interval, interruptAfter), 0, [])
  {
    ghost var s := Schedule(cfg, symbol, side, qty, positionSide, reduceOnly, n, interval, interruptAfter);
    ghost var p := MarketParams(cfg, symbol, side, qty, positionSide, reduceOnly);
    SlicesFromSound(ex, log, s, 0, []);
    var orders: seq<Reply> := [];
    var i: nat := 0;
    log', ev := log, [];
    while i < n
      invariant i <= n && log' == log + ev
      invariant SlicesLogged(ev, orders, p, interval, i, n)
      invariant interruptAfter.Some? && 0 < interruptAfter.value < n ==> i < interruptAfter.value
      invariant SlicesFrom(ex, log, s, 0, []) == SlicesFrom(ex, log', s, i, orders)
    {
      var res, interrupted;
      log', res, interrupted, ev :=
        NextSlice(ex, log', cfg, symbol, side, qty, n, interval, positionSide, reduceOnly, interruptAfter, i, log, ev, orders);
      if res.Err? {
        r, done := SliceFailed(res.error), i;
        return;
      }
      orders := orders + [res.value];
      if interrupted {
        r, done := StoppedByInterrupt(i + 1), i + 1;
        return;
      }
      i := i + 1;
    }
    r, done := AllSubmitted(orders), n;
  }

  /** `TWAPOrder.execute_twap`: the three positivity checks before anything is sent, then `num_slices`
      slices of `total_quantity / num_slices`, `duration_minutes * 60 / num_slices` seconds apart. */
  method ExecuteTwap(ex: Exchange, log: Log, cfg: Config, symbol: string, side: string, totalQuantity: real,
                     durationMinutes: real, numSlices: int)
    returns (log': Log, r: Result<seq<Reply>, Error>, ghost ev: Log)
    ensures log' == log + ev
    ensures totalQuantity <= 0.0 ==> ev == [] && r == Err(Invalid(NotPositive("total_quantity")))
    ensures totalQuantity > 0.0 && durationMinutes <= 0.0 ==> ev == [] && r == Err(Invalid(NotPositive("duration_minutes")))
    ensures totalQuantity > 0.0 && durationMinutes > 0.0 && numSlices <= 0 ==>
              ev == [] && r == Err(Invalid(NotPositive("num_slices")))
    ensures Cancels(ev) == [] && Queries(ev) == [] && |SubmitReplies(ev)| == |Submitted(ev)|
    ensures numSlices > 0 ==>
              (forall o <- Submitted(ev) :: o == MarketParams(cfg, symbol, side, totalQuantity / numSlices as real, None, false)) &&
              (forall d <- Pauses(ev) :: d == durationMinutes * 60.0 / numSlices as real)
    ensures r.Ok? ==>
              numSlices > 0 && r.value == SubmitReplies(ev) && |r.value| == numSlices &&
              Submitted(ev) == Repeat(MarketParams(cfg, symbol, side, totalQuantity / numSlices as real, None, false), numSlices) &&
              Pauses(ev) == Repeat(durationMinutes * 60.0 / numSlices as real, numSlices - 1) &&
              Timeline(ev) == Beats(numSlices, numSlices) && TotalQuantity(Submitted(ev)) == totalQuantity
    ensures r.Err? && ev != [] ==>
              |Pauses(ev)| < numSlices && |Pauses(ev)| <= |Submitted(ev)| <= |Pauses(ev)| + 1
    ensures r.Ok? ==> forall o <- r.value :: !o.Failure?
    ensures totalQuantity > 0.0 && durationMinutes > 0.0 && numSlices > 0 ==>
              var run := SlicesFrom(ex, log, Schedule(cfg, symbol, side, totalQuantity / numSlices as real, None, false, numSlices,
                                                      durationMinutes * 60.0 / numSlices as real, None), 0, []);
              log' == run.0 && (r.Ok? <==> run.1.AllSubmitted?) && (r.Ok? ==> r.value == run.1.orders) &&
              (r.Err? ==> run.1 == SliceFailed(r.error))
  {
    if ValidatePositive("total_quantity", totalQuantity) != Pass {
      return log, Err(Invalid(NotPositive("total_quantity"))), [];
    }
    if ValidatePositive("duration_minutes", durationMinutes) != Pass {
      return log, Err(Invalid(NotPositive("duration_minutes"))), [];
    }
    if ValidatePositive("num_slices", numSlices as real) != Pass {
      return log, Err(Invalid(NotPositive("num_slices"))), [];
    }
    var qtyPerSlice := totalQuantity / numSlices as real;
    var interval := (durationMinutes * 60.0) / numSlices as real;
    var run;
    ghost var done;
    log', run, ev, done := RunSlices(ex, log, cfg, symbol, side, qtyPerSlice, numSlices, interval, None, false, None);
    RepeatsOfRun(MarketParams(cfg, symbol, side, qtyPerSlice, None, false), interval, numSlices, done);
    if run.AllSubmitted? {
      SlicesAddUp(MarketParams(cfg, symbol, side, qtyPerSlice, None, false), numSlices, totalQuantity);
      r := Ok(run.orders);
    } else {
      r := Err(run.error);
    }
  }

  /** What the entry point reports for a run of the slice loop: success, the caught error, or the interrupt. */
  function RunOutcome(run: SliceRun): (out: CliOutcome<()>)
    ensures out.Completed? <==> run.AllSubmitted?
    ensures out.InterruptReported? <==> run.StoppedByInterrupt?
    ensures run.SliceFailed? ==> out == Report(run.error)
  {
    match run
    case AllSubmitted(_) => Completed(())
    case SliceFailed(e) => Report(e)
    case StoppedByInterrupt(_) => InterruptReported
  }

  /** The TWAP entry point: the same loop, but `duration_sec / slices` seconds apart (no factor 60), with the
      given position side and reduce-only flag; errors and a keyboard interrupt are caught and reported. */
  method TwapMain(ex: Exchange, log: Log, cfg: Config, symbol: string, side: string, totalQty: real, durationSec: int,
                  slices: int, positionSide: Option<string>, reduceOnly: bool, interruptAfter: Option<nat>)
    returns (log': Log, out: CliOutcome<()>, ghost ev: Log)
    ensures log' == log + ev
    ensures totalQty <= 0.0 ==> ev == [] && out == ErrorReported(Invalid(NotPositive("total_qty")))
    ensures totalQty > 0.0 && durationSec <= 0 ==> ev == [] && out == ErrorReported(Invalid(NotPositive("duration_sec")))
    ensures totalQty > 0.0 && durationSec > 0 && slices <= 0 ==> ev == [] && out == ErrorReported(Invalid(NotPositive("slices")))
    ensures Cancels(ev) == [] && Queries(ev) == []
    ensures slices > 0 ==>
              (forall o <- Submitted(ev) :: o == MarketParams(cfg, symbol, side, totalQty / slices as real, positionSide, reduceOnly)) &&
              (forall d <- Pauses(ev) :: d == durationSec as real / slices as real)
    ensures out.Completed? ==>
              slices > 0 &&
              Submitted(ev) == Repeat(MarketParams(cfg, symbol, side, totalQty / slices as real, positionSide, reduceOnly), slices) &&
              Pauses(ev) == Repeat(durationSec as real / slices as real, slices - 1)
    ensures out.InterruptReported? ==>
              interruptAfter.Some? && 0 < interruptAfter.value < slices &&
              Submitted(ev) == Repeat(MarketParams(cfg, symbol, side, totalQty / slices as real, positionSide, reduceOnly),
                                      interruptAfter.value) &&
              Pauses(ev) == Repeat(durationSec as real / slices as real, interruptAfter.value - 1)
    ensures interruptAfter.None? ==> !out.InterruptReported?
    ensures out.ErrorReported? ==> out.error.Invalid? || out.error.ClientError?
    ensures interruptAfter.Some? && 0 < interruptAfter.value < slices ==>
              !out.Completed? && |Submitted(ev)| <= interruptAfter.value
    ensures totalQty > 0.0 && durationSec > 0 && slices > 0 ==>
              var run := SlicesFrom(ex, log, Schedule(cfg, symbol, side, totalQty / slices as real, positionSide, reduceOnly, slices,
                                                      durationSec as real / slices as real, interruptAfter), 0, []);
              log' == run.0 && out == RunOutcome(run.1)
  {
    if ValidatePositive("total_qty", totalQty) != Pass {
      return log, ErrorReported(Invalid(NotPositive("total_qty"))), [];
    }
    if ValidatePositive("duration_sec", durationSec as real) != Pass {
      return log, ErrorReported(Invalid(NotPositive("duration_sec"))), [];
    }
    if ValidatePositive("slices", slices as real) != Pass {
      return log, ErrorReported(Invalid(NotPositive("slices"))), [];
    }
    var qtyPerSlice := totalQty / slices as real;
    var interval := durationSec as real / slices as real;
    var run;
    ghost var done;
    log', run, ev, done := RunSlices(ex, log, cfg, symbol, side, qtyPerSlice, slices, interval, positionSide, reduceOnly, interruptAfter);
    RunSummary(ev, run, done, MarketParams(cfg, symbol, side, qtyPerSlice, positionSide, reduceOnly), interval, slices,
               interruptAfter);
    out := RunOutcome(run);
  }
}
