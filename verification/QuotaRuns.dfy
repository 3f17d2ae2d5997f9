/** What the guard guarantees over every run of calls that do not overlap. */
module QuotaRuns {
  import opened Money
  import opened Quota

  datatype Event =
    | Call(order: Order, clock: Clock, stopWins: bool)
    | Refill
    | Close

  /** A forwarded order: its cents and the stamp its market got. */
  datatype Forward = Forward(market: string, cents: int, at: int)

  datatype Run = Run(state: State, log: seq<Forward>, verdicts: seq<Verdict>)

  function Next(cfg: Config, r: Run, e: Event): Run {
    match e
    case Refill =>
      if cfg.enabled && r.state.tokens < cfg.maxPerSec && !r.state.stopped
      then r.(state := r.state.(tokens := r.state.tokens + 1)) else r
    case Close => r.(state := r.state.(stopped := true))
    case Call(o, clock, stopWins) =>
      var out := Emit(cfg, r.state, o, clock, stopWins);
      Run(out.state,
          if out.verdict.Forwarded? then r.log + [Forward(o.market, CentsOf(out.verdict.size), clock.marketStamp)] else r.log,
          r.verdicts + [out.verdict])
  }

  function Perform(cfg: Config, events: seq<Event>): Run {
    if events == [] then Run(Fresh(cfg), [], [])
    else Next(cfg, Perform(cfg, events[..|events| - 1]), events[|events| - 1])
  }

  /** Calls one after the other on a clock that does not run backwards. */
  predicate Sequential(events: seq<Event>) {
    && (forall i :: 0 <= i < |events| && events[i].Call? ==> events[i].clock.Monotone())
    && (forall i, j :: 0 <= i < j < |events| && events[i].Call? && events[j].Call? ==>
          events[i].clock.marketStamp <= events[j].clock.marketCheck)
  }

  lemma SequentialPrefix(events: seq<Event>)
    requires Sequential(events) && events != []
    ensures Sequential(events[..|events| - 1])
  {
  }

  // ---------------------------------------------------------------- budget

  function SumCents(log: seq<Forward>): int {
    if log == [] then 0 else SumCents(log[..|log| - 1]) + log[|log| - 1].cents
  }

  function Max(x: int, y: int): int { if x > y then x else y }

  lemma ScaledCents(n: int)
    requires n > 0
    ensures CentsOf(n as real / 100.0) == n
  {
    assert n as real / 100.0 * 100.0 == n as real;
  }

  predicate WithinBudget(cfg: Config, r: Run) {
    && 0 <= SumCents(r.log) <= r.state.spent <= Max(0, Allowance(cfg))
    && forall i :: 0 <= i < |r.log| ==> r.log[i].cents > 0
  }

  /** What the budget layer charges is what it forwards, and within the allowance. */
  lemma ChargeExact(cfg: Config, spent: int, size: real)
    requires 0 <= spent <= Max(0, Allowance(cfg))
    ensures var (after, verdict) := Charge(cfg, spent, size);
            && spent <= after <= Max(0, Allowance(cfg))
            && (verdict.Forwarded? ==> after - spent == CentsOf(verdict.size) > 0)
            && (!verdict.Forwarded? ==> after == spent)
  {
    if Allowance(cfg) > spent {
      ScaledCents(Allowance(cfg) - spent);
    }
  }

  /** What a call does to the budget: nothing, or what the budget layer says. */
  lemma EmitCharges(cfg: Config, st: State, o: Order, clock: Clock, stopWins: bool)
    requires cfg.enabled && cfg.budgetTotal > 0.0
    ensures var out, (after, verdict) := Emit(cfg, st, o, clock, stopWins), Charge(cfg, st.spent, o.size);
            && (out.verdict.Forwarded? ==> verdict == out.verdict && out.state.spent == after)
            && (out.state.spent == st.spent || out.state.spent == after)
  {
    hide Charge, Key, CooldownMs;
  }

  lemma SumCentsAppend(log: seq<Forward>, f: Forward)
    ensures SumCents(log + [f]) == SumCents(log) + f.cents
  {
    assert (log + [f])[..|log|] == log;
  }

  lemma BudgetStep(cfg: Config, r: Run, e: Event)
    requires cfg.enabled && cfg.budgetTotal > 0.0 && WithinBudget(cfg, r)
    ensures WithinBudget(cfg, Next(cfg, r, e))
  {
    hide CentsOf, Charge, Allowance, Emit, SumCents;
    if e.Call? {
      ChargeExact(cfg, r.state.spent, e.order.size);
      EmitCharges(cfg, r.state, e.order, e.clock, e.stopWins);
      var out := Emit(cfg, r.state, e.order, e.clock, e.stopWins);
      if out.verdict.Forwarded? {
        SumCentsAppend(r.log, Forward(e.order.market, CentsOf(out.verdict.size), e.clock.marketStamp));
      }
    }
  }

  /** Forwarded cents total at most what is booked as spent, and that never exceeds the
      budget above the floor. */
  lemma {:induction false} BudgetHolds(cfg: Config, events: seq<Event>)
    requires cfg.enabled && cfg.budgetTotal > 0.0
    ensures WithinBudget(cfg, Perform(cfg, events))
  {
    if events != [] {
      BudgetHolds(cfg, events[..|events| - 1]);
      BudgetStep(cfg, Perform(cfg, events[..|events| - 1]), events[|events| - 1]);
    }
  }

  // ---------------------------------------------------------------- cooldown

  /** The market's stamp is no earlier than any order forwarded on it, and no later than
      the last call. */
  predicate Stamped(r: Run) {
    forall i :: 0 <= i < |r.log| ==>
      r.log[i].market in r.state.lastOrderMarket && r.log[i].at <= r.state.lastOrderMarket[r.log[i].market]
  }

  predicate Spaced(cfg: Config, log: seq<Forward>) {
    forall i, j :: 0 <= i < j < |log| && log[i].market == log[j].market ==> log[j].at - log[i].at >= CooldownMs(cfg)
  }

  predicate NoFuture(events: seq<Event>, r: Run) {
    && (forall m <- r.state.lastOrderMarket :: Past(events, r.state.lastOrderMarket[m]))
  }

  predicate Past(events: seq<Event>, at: int) {
    exists i :: 0 <= i < |events| && events[i].Call? && at <= events[i].clock.marketStamp
  }

  lemma PastGrows(events: seq<Event>, e: Event, at: int)
    requires Past(events, at)
    ensures Past(events + [e], at)
  {
    var i :| 0 <= i < |events| && events[i].Call? && at <= events[i].clock.marketStamp;
    assert (events + [e])[i] == events[i];
  }

  /** Forwarded orders on one market are at least a cooldown apart. */
  lemma {:induction false} CooldownHolds(cfg: Config, events: seq<Event>)
    requires cfg.enabled && Sequential(events)
    ensures var r := Perform(cfg, events); Stamped(r) && Spaced(cfg, r.log) && NoFuture(events, r)
  {
    if events != [] {
      var init, e := events[..|events| - 1], events[|events| - 1];
      SequentialPrefix(events);
      CooldownHolds(cfg, init);
      assert events == init + [e];
      var before, r := Perform(cfg, init), Perform(cfg, events);
      CooldownStep(cfg, before, e, init);
      forall m | m in r.state.lastOrderMarket
        ensures Past(events, r.state.lastOrderMarket[m])
      {
        if m in before.state.lastOrderMarket && r.state.lastOrderMarket[m] == before.state.lastOrderMarket[m] {
          PastGrows(init, e, before.state.lastOrderMarket[m]);
        } else {
          assert events[|init|] == e;
        }
      }
    }
  }

  /** What a call does to the stamps: nothing, and then it forwards nothing; or it sets
      both, after both checks passed. */
  lemma EmitStamps(cfg: Config, st: State, o: Order, clock: Clock, stopWins: bool)
    requires cfg.enabled
    ensures var out := Emit(cfg, st, o, clock, stopWins);
            || (&& out.state.lastOrder == st.lastOrder && out.state.lastOrderMarket == st.lastOrderMarket
                && !out.verdict.Forwarded?
                && (out.verdict == StrategyCooldown ==>
                      && !CoolingDown(cfg, st.lastOrderMarket, o.market, clock.marketCheck)
                      && CoolingDown(cfg, st.lastOrder, Key(o), clock.strategyCheck)))
            || (&& out.state.lastOrder == st.lastOrder[Key(o) := clock.strategyStamp]
                && out.state.lastOrderMarket == st.lastOrderMarket[o.market := clock.marketStamp]
                && !CoolingDown(cfg, st.lastOrderMarket, o.market, clock.marketCheck)
                && out.verdict != StrategyCooldown)
  {
    hide Charge, Key, CooldownMs, CentsOf;
    assert Charge(cfg, st.spent, o.size).1 != StrategyCooldown by { ChargeVerdict(cfg, st.spent, o.size); }
  }

  lemma ChargeVerdict(cfg: Config, spent: int, size: real)
    ensures Charge(cfg, spent, size).1 != StrategyCooldown
  {
    hide CentsOf;
  }

  lemma CooldownStep(cfg: Config, before: Run, e: Event, init: seq<Event>)
    requires cfg.enabled && Stamped(before) && Spaced(cfg, before.log) && NoFuture(init, before)
    requires Sequential(init + [e])
    ensures var r := Next(cfg, before, e);
            && Stamped(r) && Spaced(cfg, r.log)
            && forall m <- r.state.lastOrderMarket ::
                 || (m in before.state.lastOrderMarket && r.state.lastOrderMarket[m] == before.state.lastOrderMarket[m])
                 || (e.Call? && r.state.lastOrderMarket[m] == e.clock.marketStamp)
  {
    if e.Call? {
      hide CentsOf, Key, Past, Emit;
      EmitStamps(cfg, before.state, e.order, e.clock, e.stopWins);
      assert e.clock.Monotone() by { CallMonotone(init, e); }
      forall m | m in before.state.lastOrderMarket
        ensures before.state.lastOrderMarket[m] <= e.clock.marketCheck
      {
        LastIsPast(init, e, before.state.lastOrderMarket[m]);
      }
    }
  }

  lemma LastIsPast(init: seq<Event>, e: Event, at: int)
    requires Sequential(init + [e]) && e.Call? && Past(init, at)
    ensures at <= e.clock.marketCheck
  {
    var i :| 0 <= i < |init| && init[i].Call? && at <= init[i].clock.marketStamp;
    assert (init + [e])[i] == init[i] && (init + [e])[|init|] == e;
  }

  // ---------------------------------------------------------------- one call

  /** A stamp no older than the cooldown. */
  predicate Recent(last: map<string, int>, key: string, now: int, cooldownSecs: int) {
    key in last && now - last[key] < cooldownSecs * 1000
  }

  /** Cents left of the budget above the floor. */
  function Left(cfg: Config, spent: int): int {
    Truncate(cfg.budgetTotal * 100.0) - Truncate(cfg.budgetFloor * 100.0) - spent
  }

  /** Whether there is a token, or no need for one. */
  predicate HasToken(cfg: Config, st: State, stopWins: bool) {
    cfg.maxPerSec <= 0 || (st.tokens > 0 && !(st.stopped && stopWins))
  }

  /** What the budget makes of an order: what it costs, and the size it goes on with. */
  function Granted(cfg: Config, spent: int, size: real): (int, real) {
    var cents := Truncate(size * 100.0);
    if cfg.budgetTotal <= 0.0 then (0, size)
    else if cents <= Left(cfg, spent) then (cents, size)
    else (Left(cfg, spent), Left(cfg, spent) as real / 100.0)
  }

  lemma ChargeGrants(cfg: Config, spent: int, size: real)
    requires cfg.budgetTotal > 0.0
    ensures var cents, (after, verdict) := Truncate(size * 100.0), Charge(cfg, spent, size);
            if cents <= 0 then (after, verdict) == (spent, EmptyOrder)
            else if cents > Left(cfg, spent) && Left(cfg, spent) <= 0 then (after, verdict) == (spent, Exhausted)
            else (after, verdict) == (spent + Granted(cfg, spent, size).0, Forwarded(Granted(cfg, spent, size).1))
  {
    var left := Left(cfg, spent);
    if left > 0 {
      ScaledCents(left);
    }
    hide Truncate;
  }

  /** Every call on an enabled guard, case by case: the cooldowns, the budget, the bucket.  An
      order that passes is forwarded whole if the budget has room for it and else at exactly
      what remains, and that much is booked as spent. */
  lemma EmitExactly(cfg: Config, st: State, o: Order, clock: Clock, stopWins: bool)
    requires cfg.enabled
    ensures var out := Emit(cfg, st, o, clock, stopWins);
            var cents, (cost, size) := Truncate(o.size * 100.0), Granted(cfg, st.spent, o.size);
            var key := o.market + "|" + o.strategy;
            if Recent(st.lastOrderMarket, o.market, clock.marketCheck, cfg.cooldownSecs) then out == Outcome(st, MarketCooldown)
            else if Recent(st.lastOrder, key, clock.strategyCheck, cfg.cooldownSecs) then out == Outcome(st, StrategyCooldown)
            else
              var stamped := st.(lastOrder := st.lastOrder[key := clock.strategyStamp],
                                 lastOrderMarket := st.lastOrderMarket[o.market := clock.marketStamp]);
              if cfg.budgetTotal > 0.0 && cents <= 0 then out == Outcome(stamped, EmptyOrder)
              else if cfg.budgetTotal > 0.0 && cents > Left(cfg, st.spent) && Left(cfg, st.spent) <= 0
              then out == Outcome(stamped, Exhausted)
              else
                var charged := stamped.(spent := st.spent + cost);
                if !HasToken(cfg, st, stopWins) then out == Outcome(charged, if st.stopped then Stopped else RateLimited)
                else out == Outcome(if cfg.maxPerSec > 0 then charged.(tokens := st.tokens - 1) else charged, Forwarded(size))
  {
    if cfg.budgetTotal > 0.0 {
      ChargeGrants(cfg, st.spent, o.size);
    }
    hide Charge, Truncate, Left;
  }

  /** A guard that is switched off forwards everything. */
  lemma DisabledForwards(cfg: Config, st: State, o: Order, clock: Clock, stopWins: bool)
    requires !cfg.enabled
    ensures Emit(cfg, st, o, clock, stopWins) == Outcome(st, Forwarded(o.size))
  {
  }

  // ---------------------------------------------------------------- rate limit

  /** The refill goroutine's ticks among some events. */
  function Refills(events: seq<Event>): nat {
    if events == [] then 0 else Refills(events[..|events| - 1]) + if events[|events| - 1].Refill? then 1 else 0
  }

  /** Every forwarded order takes a token; only a refill adds one, up to the limit. */
  lemma TokenStep(cfg: Config, r: Run, e: Event)
    requires cfg.enabled && cfg.maxPerSec > 0 && r.state.tokens <= cfg.maxPerSec
    ensures var r' := Next(cfg, r, e);
            && r'.state.tokens <= cfg.maxPerSec && |r.log| <= |r'.log|
            && r'.state.tokens + |r'.log| <= r.state.tokens + |r.log| + if e.Refill? then 1 else 0
  {
    hide Charge, Key, CooldownMs, CentsOf;
  }

  /** The run after `k` refills and no calls. */
  function Refilled(cfg: Config, r: Run, k: nat): Run {
    if k == 0 then r else Next(cfg, Refilled(cfg, r, k - 1), Refill)
  }

  /** The bucket starts full, and each tick of a guard that is not stopped refills a token
      until it is full again. */
  lemma {:induction false} BucketFills(cfg: Config, r: Run, k: nat)
    requires cfg.enabled && cfg.maxPerSec > 0 && !r.state.stopped && r.state.tokens <= cfg.maxPerSec
    ensures Perform(cfg, []).state.tokens == cfg.maxPerSec
    ensures var r' := Refilled(cfg, r, k);
            && r'.state.tokens == (if r.state.tokens + k < cfg.maxPerSec then r.state.tokens + k else cfg.maxPerSec)
            && r'.log == r.log && !r'.state.stopped
  {
    if k > 0 {
      BucketFills(cfg, r, k - 1);
    }
  }

  /** The bucket never holds more than its limit. */
  lemma {:induction false} TokensBounded(cfg: Config, events: seq<Event>)
    requires cfg.enabled && cfg.maxPerSec > 0
    ensures Perform(cfg, events).state.tokens <= cfg.maxPerSec
  {
    if events != [] {
      hide Next;
      TokensBounded(cfg, events[..|events| - 1]);
      TokenStep(cfg, Perform(cfg, events[..|events| - 1]), events[|events| - 1]);
    }
  }

  lemma {:induction false} TokensSpent(cfg: Config, before: seq<Event>, window: seq<Event>)
    requires cfg.enabled && cfg.maxPerSec > 0
    ensures var r, r' := Perform(cfg, before), Perform(cfg, before + window);
            r'.state.tokens + |r'.log| <= r.state.tokens + |r.log| + Refills(window)
  {
    hide Next;
    if window == [] {
      assert before + window == before;
    } else {
      var init, e := window[..|window| - 1], window[|window| - 1];
      TokensSpent(cfg, before, init);
      assert (before + window)[..|before + window| - 1] == before + init;
      TokensBounded(cfg, before + init);
      TokenStep(cfg, Perform(cfg, before + init), e);
    }
  }

  /** The rate limit, over any stretch of any run: forwarded orders number at most a full
      bucket and the stretch's refills. */
  lemma RateHolds(cfg: Config, before: seq<Event>, window: seq<Event>)
    requires cfg.enabled && cfg.maxPerSec > 0
    ensures |Perform(cfg, before + window).log| - |Perform(cfg, before).log| <= cfg.maxPerSec + Refills(window)
  {
    hide Perform, Refills;
    TokensBounded(cfg, before);
    TokensSpent(cfg, before, window);
  }

  // ---------------------------------------------------------------- the per-strategy check

  /** Orders that share a cooldown key are on one market. */
  predicate KeysUnambiguous(orders: set<Order>) {
    forall x, y :: x in orders && y in orders && Key(x) == Key(y) ==> x.market == y.market
  }

  predicate UsesOnly(events: seq<Event>, orders: set<Order>) {
    forall i :: 0 <= i < |events| && events[i].Call? ==> events[i].order in orders
  }

  /** Each strategy stamp belongs to an order whose market was stamped no earlier. */
  ghost predicate StrategyBehindMarket(r: Run, orders: set<Order>) {
    forall k <- r.state.lastOrder :: exists o ::
      o in orders && Key(o) == k && o.market in r.state.lastOrderMarket
      && r.state.lastOrder[k] <= r.state.lastOrderMarket[o.market]
  }

  lemma {:induction false} StrategyCheckSilent(cfg: Config, events: seq<Event>, orders: set<Order>)
    requires Sequential(events) && UsesOnly(events, orders) && KeysUnambiguous(orders)
    ensures var r := Perform(cfg, events); StrategyCooldown !in r.verdicts && StrategyBehindMarket(r, orders)
  {
    if events != [] {
      var init, e := events[..|events| - 1], events[|events| - 1];
      SequentialPrefix(events);
      StrategyCheckSilent(cfg, init, orders);
      if cfg.enabled {
        CooldownHolds(cfg, init);
        assert events == init + [e];
        SilentStep(cfg, init, Perform(cfg, init), e, orders);
      }
    }
  }

  lemma SilentStep(cfg: Config, init: seq<Event>, before: Run, e: Event, orders: set<Order>)
    requires cfg.enabled && Sequential(init + [e]) && UsesOnly(init + [e], orders) && KeysUnambiguous(orders)
    requires StrategyCooldown !in before.verdicts && StrategyBehindMarket(before, orders) && NoFuture(init, before)
    ensures var r := Next(cfg, before, e); StrategyCooldown !in r.verdicts && StrategyBehindMarket(r, orders)
  {
    if e.Call? {
      assert e.order in orders by { assert (init + [e])[|init|] == e; }
      CallMonotone(init, e);
      forall m | m in before.state.lastOrderMarket
        ensures before.state.lastOrderMarket[m] <= e.clock.marketCheck
      {
        LastIsPast(init, e, before.state.lastOrderMarket[m]);
      }
      hide Past, Sequential, Emit, Key, KeysUnambiguous, StrategyBehindMarket;
      EmitStamps(cfg, before.state, e.order, e.clock, e.stopWins);
      SilentVerdict(cfg, before, e.order, e.clock, orders);
      StampsStay(cfg, before, e, orders);
    }
  }

  /** If the market has cooled down, so has the strategy's key. */
  lemma SilentVerdict(cfg: Config, r: Run, o: Order, clock: Clock, orders: set<Order>)
    requires KeysUnambiguous(orders) && o in orders && StrategyBehindMarket(r, orders) && clock.Monotone()
    ensures CoolingDown(cfg, r.state.lastOrder, Key(o), clock.strategyCheck) ==>
            CoolingDown(cfg, r.state.lastOrderMarket, o.market, clock.marketCheck)
  {
    hide Key;
    if Key(o) in r.state.lastOrder {
      var x :| x in orders && Key(x) == Key(o) && x.market in r.state.lastOrderMarket
               && r.state.lastOrder[Key(o)] <= r.state.lastOrderMarket[x.market];
      assert x.market == o.market;
    }
  }

  lemma StampsStay(cfg: Config, before: Run, e: Event, orders: set<Order>)
    requires cfg.enabled && e.Call? && e.order in orders && e.clock.Monotone() && StrategyBehindMarket(before, orders)
    requires forall m <- before.state.lastOrderMarket :: before.state.lastOrderMarket[m] <= e.clock.marketCheck
    ensures StrategyBehindMarket(Next(cfg, before, e), orders)
  {
    hide Emit, Key;
    EmitStamps(cfg, before.state, e.order, e.clock, e.stopWins);
    var o, r := e.order, Next(cfg, before, e);
    forall k | k in r.state.lastOrder
      ensures exists y :: y in orders && Key(y) == k && y.market in r.state.lastOrderMarket
                          && r.state.lastOrder[k] <= r.state.lastOrderMarket[y.market]
    {
      if r.state.lastOrder != before.state.lastOrder && k == Key(o) {
        assert r.state.lastOrder[k] <= r.state.lastOrderMarket[o.market];
      } else {
        var y :| y in orders && Key(y) == k && y.market in before.state.lastOrderMarket
                 && before.state.lastOrder[k] <= before.state.lastOrderMarket[y.market];
        assert r.state.lastOrder[k] <= r.state.lastOrderMarket[y.market];
      }
    }
  }

  lemma CallMonotone(init: seq<Event>, e: Event)
    requires Sequential(init + [e]) && e.Call?
    ensures e.clock.Monotone()
  {
    assert (init + [e])[|init|] == e;
  }

  /** Two orders on different markets with one key: the second, sent at the same moment, is
      refused by the per-strategy check although its market has never been used. */
  lemma StrategyCheckRefuses(cfg: Config, x: Order, y: Order)
    requires cfg.enabled && cfg.cooldownSecs > 0 && Key(x) == Key(y) && x.market != y.market
    ensures var c := Clock(0, 0, 0, 0);
            var events := [Call(x, c, false), Call(y, c, false)];
            && Sequential(events) && UsesOnly(events, {x, y})
            && |Perform(cfg, events).verdicts| == 2 && Perform(cfg, events).verdicts[1] == StrategyCooldown
  {
    var c := Clock(0, 0, 0, 0);
    var a, b := Call(x, c, false), Call(y, c, false);
    assert [a, b][..1] == [a] && [a][..0] == [];
    hide CentsOf, Charge, Key;
    assert Perform(cfg, []) == Run(Fresh(cfg), [], []);
    var one := Perform(cfg, [a]);
    assert one == Next(cfg, Perform(cfg, []), a);
    assert one.state.lastOrder == map[Key(x) := 0] && one.state.lastOrderMarket == map[x.market := 0];
    assert Perform(cfg, [a, b]) == Next(cfg, one, b);
  }

  /** Such orders exist: a bar in a ticker or in a strategy's name can stand for the joint. */
  lemma SharedKey()
    ensures var x, y := Order("A", "B|C", 1.0), Order("A|B", "C", 1.0);
            Key(x) == Key(y) && !KeysUnambiguous({x, y})
  {
    var x, y := Order("A", "B|C", 1.0), Order("A|B", "C", 1.0);
    assert Key(x) == "A|B|C" == Key(y);
    assert |x.market| != |y.market|;
  }

  /** With a positive cooldown, the per-strategy check never refuses what the per-market
      check let through, in any run over given orders, exactly when keys are unambiguous. */
  lemma StrategyCheckRedundant(cfg: Config, orders: set<Order>)
    requires cfg.enabled && cfg.cooldownSecs > 0
    ensures KeysUnambiguous(orders) <==>
            forall events :: Sequential(events) && UsesOnly(events, orders) ==>
              StrategyCooldown !in Perform(cfg, events).verdicts
  {
    if KeysUnambiguous(orders) {
      forall events | Sequential(events) && UsesOnly(events, orders)
        ensures StrategyCooldown !in Perform(cfg, events).verdicts
      {
        StrategyCheckSilent(cfg, events, orders);
      }
    } else {
      var x, y :| x in orders && y in orders && Key(x) == Key(y) && x.market != y.market;
      StrategyCheckRefuses(cfg, x, y);
      var events := [Call(x, Clock(0, 0, 0, 0), false), Call(y, Clock(0, 0, 0, 0), false)];
      assert UsesOnly(events, orders);
      assert Perform(cfg, events).verdicts[1] == StrategyCooldown;
    }
  }

  /** In particular for market tickers without a bar. */
  lemma NoBarUnambiguous(orders: set<Order>)
    requires forall o :: o in orders ==> '|' !in o.market
    ensures KeysUnambiguous(orders)
  {
    forall x, y | x in orders && y in orders && Key(x) == Key(y)
      ensures x.market == y.market
    {
      KeySplits(x, y);
    }
  }

  lemma KeySplits(x: Order, y: Order)
    requires '|' !in x.market && '|' !in y.market && Key(x) == Key(y)
    ensures x.market == y.market
  {
    var k := Key(x);
    assert k[|x.market|] == '|' && k[|y.market|] == '|';
    assert k[..|x.market|] == x.market && k[..|y.market|] == y.market;
  }

  // ---------------------------------------------------------------- the guard itself

  /** The orders that reached the inner emitter are the ones the run logs. */
  predicate Logged(inner: seq<Order>, log: seq<Forward>) {
    |inner| == |log| && forall i :: 0 <= i < |log| ==> inner[i].market == log[i].market && CentsOf(inner[i].size) == log[i].cents
  }

  method DriveOne(guard: QuotaGuard, e: Event, innerAccepts: bool, ghost r: Run)
    requires guard.View() == r.state && Logged(guard.inner, r.log)
    modifies guard
    ensures guard.View() == Next(guard.cfg, r, e).state && Logged(guard.inner, Next(guard.cfg, r, e).log)
  {
    hide Emit, CentsOf;
    match e
    case Call(o, clock, stopWins) => var _ := guard.EmitOrder(o, clock, stopWins, innerAccepts);
    case Refill => guard.Refill();
    case Close => guard.Close();
  }

  /** A new guard taken through any events goes through the run's states, so all of the above
      holds of what it forwards. */
  method Drive(guard: QuotaGuard, events: seq<Event>, innerAccepts: bool)
    requires guard.View() == Fresh(guard.cfg) && guard.inner == []
    modifies guard
    ensures guard.View() == Perform(guard.cfg, events).state && Logged(guard.inner, Perform(guard.cfg, events).log)
  {
    hide Next;
    for n := 0 to |events|
      invariant guard.View() == Perform(guard.cfg, events[..n]).state && Logged(guard.inner, Perform(guard.cfg, events[..n]).log)
    {
      assert events[..n + 1][..n] == events[..n];
      DriveOne(guard, events[n], innerAccepts, Perform(guard.cfg, events[..n]));
    }
    assert events[..|events|] == events;
  }
}
