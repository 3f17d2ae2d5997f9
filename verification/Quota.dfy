/** The quota guard: every order goes to the paper trail; only orders that pass the
    cooldowns, the budget and the rate limit are forwarded.
 */
module Quota {
  import opened Money

  datatype Config = Config(enabled: bool, cooldownSecs: int, maxPerSec: int, budgetTotal: real, budgetFloor: real)

  datatype Order = Order(market: string, strategy: string, size: real)

  /** The four clock readings of one call, in milliseconds. */
  datatype Clock = Clock(marketCheck: int, strategyCheck: int, strategyStamp: int, marketStamp: int) {
    predicate Monotone() { marketCheck <= strategyCheck <= strategyStamp <= marketStamp }
  }

  datatype State = State(
    lastOrder: map<string, int>, lastOrderMarket: map<string, int>,
    spent: int, tokens: nat, stopped: bool)

  datatype Verdict =
    | Forwarded(size: real)
    | MarketCooldown | StrategyCooldown | EmptyOrder | Exhausted | RateLimited | Stopped

  datatype Outcome = Outcome(state: State, verdict: Verdict)

  function Key(o: Order): string { o.market + "|" + o.strategy }

  function CooldownMs(cfg: Config): int { cfg.cooldownSecs * 1000 }

  function CentsOf(dollars: real): int { Truncate(dollars * 100.0) }

  /** The budget in cents above the floor. */
  function Allowance(cfg: Config): int { CentsOf(cfg.budgetTotal) - CentsOf(cfg.budgetFloor) }

  predicate CoolingDown(cfg: Config, last: map<string, int>, key: string, now: int) {
    key in last && now - last[key] < CooldownMs(cfg)
  }

  /** The budget layer: charge the order, scaled down to what is left if need be. */
  function Charge(cfg: Config, spent: int, size: real): (int, Verdict) {
    var cents := CentsOf(size);
    if cents <= 0 then (spent, EmptyOrder)
    else if spent + cents <= Allowance(cfg) then (spent + cents, Forwarded(size))
    else if Allowance(cfg) - spent <= 0 then (spent, Exhausted)
    else
      var scaled := (Allowance(cfg) - spent) as real / 100.0;
      (spent + CentsOf(scaled), Forwarded(scaled))
  }

  /** One call.  `stopWins` settles the choice between a token and a closed stop channel. */
  function Emit(cfg: Config, st: State, o: Order, clock: Clock, stopWins: bool): Outcome {
    if !cfg.enabled then Outcome(st, Forwarded(o.size))
    else if CoolingDown(cfg, st.lastOrderMarket, o.market, clock.marketCheck) then Outcome(st, MarketCooldown)
    else if CoolingDown(cfg, st.lastOrder, Key(o), clock.strategyCheck) then Outcome(st, StrategyCooldown)
    else
      var stamped := st.(lastOrder := st.lastOrder[Key(o) := clock.strategyStamp],
                         lastOrderMarket := st.lastOrderMarket[o.market := clock.marketStamp]);
      var (spent, verdict) := if cfg.budgetTotal > 0.0 then Charge(cfg, st.spent, o.size) else (st.spent, Forwarded(o.size));
      var charged := stamped.(spent := spent);
      if !verdict.Forwarded? then Outcome(charged, verdict)
      else if cfg.maxPerSec <= 0 then Outcome(charged, verdict)
      else if st.stopped && (stopWins || st.tokens == 0) then Outcome(charged, Stopped)
      else if st.tokens == 0 then Outcome(charged, RateLimited)
      else Outcome(charged.(tokens := st.tokens - 1), verdict)
  }

  class QuotaGuard {
    const cfg: Config
    var lastOrder: map<string, int>
    var lastOrderMarket: map<string, int>
    var spent: int
    var tokens: nat
    var stopped: bool
    var paper: seq<Order>
    var inner: seq<Order>

    function View(): State
      reads this
    {
      State(lastOrder, lastOrderMarket, spent, tokens, stopped)
    }

    constructor (cfg: Config)
      ensures this.cfg == cfg && View() == Fresh(cfg) && paper == [] && inner == []
    {
      this.cfg := cfg;
      lastOrder, lastOrderMarket, spent, stopped, paper, inner := map[], map[], 0, false, [], [];
      tokens := if cfg.enabled && cfg.maxPerSec > 0 then cfg.maxPerSec else 0;
    }

    /** The refill goroutine's tick: one token, if there is room. */
    method Refill()
      modifies this`tokens
      ensures tokens == if cfg.enabled && old(tokens) < cfg.maxPerSec && !stopped then old(tokens) + 1 else old(tokens)
    {
      if cfg.enabled && tokens < cfg.maxPerSec && !stopped {
        tokens := tokens + 1;
      }
    }

    method Close()
      modifies this`stopped
      ensures stopped
    {
      stopped := true;
    }

    /** The budget layer: charge the order in full, or roll back and charge what is left. */
    method ChargeBudget(size: real) returns (verdict: Verdict)
      modifies this`spent
      ensures (spent, verdict) == Charge(cfg, old(spent), size)
    {
      hide CentsOf;
      var orderCents := CentsOf(size);
      if orderCents <= 0 {
        return EmptyOrder;
      }
      spent := spent + orderCents;
      var remainingCents := CentsOf(cfg.budgetTotal) - spent;
      var floorCents := CentsOf(cfg.budgetFloor);
      if remainingCents >= floorCents {
        return Forwarded(size);
      }
      spent := spent - orderCents;
      var availCents := CentsOf(cfg.budgetTotal) - spent - floorCents;
      if availCents <= 0 {
        return Exhausted;
      }
      var scaledSize := availCents as real / 100.0;
      spent := spent + CentsOf(scaledSize);
      return Forwarded(scaledSize);
    }

    /** The rate limit: take a token without waiting. */
    method TakeToken(stopWins: bool) returns (taken: bool)
      modifies this`tokens
      ensures taken <==> old(tokens) > 0 && !(stopped && stopWins)
      ensures tokens == if taken then old(tokens) - 1 else old(tokens)
    {
      taken := tokens > 0 && !(stopped && stopWins);
      if taken {
        tokens := tokens - 1;
      }
    }

    /** The cooldowns, the budget and the rate limit, in that order. */
    method Approve(o: Order, clock: Clock, stopWins: bool) returns (verdict: Verdict)
      requires cfg.enabled
      modifies this`lastOrder, this`lastOrderMarket, this`spent, this`tokens
      ensures Outcome(View(), verdict) == Emit(cfg, old(View()), o, clock, stopWins)
    {
      hide Charge, Key;
      if o.market in lastOrderMarket && clock.marketCheck - lastOrderMarket[o.market] < CooldownMs(cfg) {
        return MarketCooldown;
      }
      var cooldownKey := Key(o);
      if cooldownKey in lastOrder && clock.strategyCheck - lastOrder[cooldownKey] < CooldownMs(cfg) {
        return StrategyCooldown;
      }
      lastOrder := lastOrder[cooldownKey := clock.strategyStamp];
      lastOrderMarket := lastOrderMarket[o.market := clock.marketStamp];
      verdict := Forwarded(o.size);
      if cfg.budgetTotal > 0.0 {
        verdict := ChargeBudget(o.size);
        if !verdict.Forwarded? {
          return;
        }
      }
      if cfg.maxPerSec > 0 {
        var taken := TakeToken(stopWins);
        if !taken {
          return if stopped then Stopped else RateLimited;
        }
      }
    }

    method EmitOrder(o: Order, clock: Clock, stopWins: bool, innerAccepts: bool) returns (ok: bool)
      modifies this
      ensures var r := Emit(cfg, old(View()), o, clock, stopWins);
              && View() == r.state
              && paper == old(paper) + [o]
              && inner == (if r.verdict.Forwarded? then old(inner) + [o.(size := r.verdict.size)] else old(inner))
              && (ok <==> r.verdict.Forwarded? && innerAccepts)
    {
      paper := paper + [o];
      if !cfg.enabled {
        assert o == o.(size := o.size);
        inner := inner + [o];
        return innerAccepts;
      }
      var verdict := Approve(o, clock, stopWins);
      if !verdict.Forwarded? {
        return false;
      }
      inner := inner + [o.(size := verdict.size)];
      return innerAccepts;
    }
  }

  function Fresh(cfg: Config): State {
    State(map[], map[], 0, if cfg.enabled && cfg.maxPerSec > 0 then cfg.maxPerSec else 0, false)
  }
}
