/** The buy-the-dip strategy: buy a sharp dip, sell on recovery, on a further drop or after
    a while.  The emitter may refuse any order: each call is told whether it would.
 */
module BuyTheDip {
  import opened Wrappers
  import opened Kelly
  import opened Resolver
  import opened Money
  import opened Registry
  import Text

  datatype Config = Config(
    dipThresholdCents: int, windowSeconds: int,
    minEntryPrice: real, maxEntryPrice: real, minPreDipPrice: real,
    takeProfitFrac: real, stopLossCents: int, maxHoldSeconds: int)

  const DefaultConfig := Config(30, 30, 0.15, 0.80, 0.50, 0.75, 10, 300)

  datatype Sample = Sample(ts: int, price: real)

  datatype Position = Position(entryPrice: real, dipSize: real, entryTS: int, buySize: real)

  /** An order with the part of its payload that ties a sell to its buy. */
  datatype Signal = Signal(order: RawOrder, entryPrice: real, dipSize: real)

  datatype State = State(prices: map<string, seq<Sample>>, positions: map<string, Position>)

  /** A price update.  `event` is the event the market was found under ("" for none),
      `blocked` whether that event is at a set or match point, `accept` the emitter's answer. */
  datatype Tick = Tick(market: string, price: real, ts: int, event: string, blocked: bool, accept: bool)

  // ---------------------------------------------------------------- pure steps

  /** Drop samples older than the window. */
  function Trim(samples: seq<Sample>, cutoff: int): seq<Sample> {
    if samples != [] && samples[0].ts < cutoff then Trim(samples[1..], cutoff) else samples
  }

  /** `kept` is `all` without the samples at its front that are older than the cutoff. */
  predicate KeepsSince(all: seq<Sample>, kept: seq<Sample>, cutoff: int) {
    && |kept| <= |all|
    && var d := |all| - |kept|;
       && kept == all[d..]
       && (forall i :: 0 <= i < d ==> all[i].ts < cutoff)
       && (kept != [] ==> kept[0].ts >= cutoff)
  }

  lemma {:induction false} TrimKeeps(all: seq<Sample>, cutoff: int)
    ensures KeepsSince(all, Trim(all, cutoff), cutoff)
  {
    if all != [] && all[0].ts < cutoff {
      TrimKeeps(all[1..], cutoff);
      hide Trim;
      KeepsOneLess(all, Trim(all[1..], cutoff), cutoff);
    }
  }

  lemma KeepsOneLess(all: seq<Sample>, kept: seq<Sample>, cutoff: int)
    requires all != [] && all[0].ts < cutoff && KeepsSince(all[1..], kept, cutoff)
    ensures KeepsSince(all, kept, cutoff)
  {
    var d := |all| - |kept|;
    assert all[1..][d - 1..] == all[d..];
    assert forall i :: 1 <= i < d ==> all[i] == all[1..][i - 1];
  }

  /** The samples of a market so far. */
  function Seen(prices: map<string, seq<Sample>>, market: string): seq<Sample> {
    if market in prices then prices[market] else []
  }

  function Window(cfg: Config, st: State, t: Tick): seq<Sample> {
    Trim(Seen(st.prices, t.market) + [Sample(t.ts, t.price)], t.ts - cfg.windowSeconds * 1000)
  }

  function AtLeastOne(size: real): real { if size < 1.0 then 1.0 else size }

  function StopLoss(cfg: Config): real { cfg.stopLossCents as real / 100.0 }

  /** The buy a dip calls for, if any. */
  function Entry(cfg: Config, sizing: Sizing, samples: seq<Sample>, t: Tick): Option<Signal> {
    if |samples| < 2 || t.event == "" || t.blocked then None
    else
      var windowStart := samples[0].price;
      var dipCents := Truncate((windowStart - t.price) * 100.0);
      if dipCents < cfg.dipThresholdCents || windowStart < cfg.minPreDipPrice
         || t.price < cfg.minEntryPrice || t.price > cfg.maxEntryPrice
      then None
      else
        var convProb := if windowStart > 0.99 then 0.99 else windowStart;
        var edge := Truncate((convProb - t.price) * 100.0 + 0.000000001);
        var size := AtLeastOne(KellySize(convProb, t.price, sizing));
        Some(Signal(
               RawOrder(t.ts, t.event, t.market, "buy", "open", "btd_dip_" + Text.IntString(dipCents) + "c", 0,
                        t.price, if edge < 1 then 1 else edge, size),
               t.price, windowStart - t.price))
  }

  datatype Exit = Hold | Leave(reason: string, price: real)

  function TakeProfit(cfg: Config, pos: Position): real { cfg.takeProfitFrac * pos.dipSize }

  function ExitOf(cfg: Config, pos: Position, price: real, ts: int): Exit {
    var tpPrice := pos.entryPrice + TakeProfit(cfg, pos);
    var slPrice := pos.entryPrice - StopLoss(cfg);
    if price >= tpPrice then Leave("tp", tpPrice)
    else if price <= slPrice then Leave("sl", slPrice)
    else if ts - pos.entryTS >= cfg.maxHoldSeconds * 1000 then Leave("time", price)
    else Hold
  }

  function SellSignal(pos: Position, t: Tick, exit: Exit): Signal
    requires exit.Leave?
  {
    var edge := Truncate((exit.price - pos.entryPrice) * 100.0 + 0.5);
    Signal(
      RawOrder(t.ts, t.event, t.market, "sell", "close", "btd_sell_" + exit.reason, 0,
               exit.price, edge, AtLeastOne(pos.buySize)),
      pos.entryPrice, pos.dipSize)
  }

  /** The order offered to the emitter at this tick. */
  function Offered(cfg: Config, sizing: Sizing, st: State, t: Tick): Option<Signal> {
    if t.market in st.positions then
      var exit := ExitOf(cfg, st.positions[t.market], t.price, t.ts);
      if exit.Leave? && t.event != "" then Some(SellSignal(st.positions[t.market], t, exit)) else None
    else Entry(cfg, sizing, Window(cfg, st, t), t)
  }

  function PositionOf(s: Signal): Position {
    Position(s.entryPrice, s.dipSize, s.order.ts, s.order.size)
  }

  /** Positions after the tick: entered if a buy is accepted, left if a sell is, and dropped
      if an exit finds the market unregistered. */
  function Held(cfg: Config, sizing: Sizing, st: State, t: Tick): map<string, Position> {
    var offered := Offered(cfg, sizing, st, t);
    if t.market in st.positions then
      if ExitOf(cfg, st.positions[t.market], t.price, t.ts).Leave? && (t.event == "" || t.accept)
      then st.positions - {t.market} else st.positions
    else if offered.Some? && t.accept then st.positions[t.market := PositionOf(offered.value)]
    else st.positions
  }

  function Step(cfg: Config, sizing: Sizing, st: State, t: Tick): State {
    State(st.prices[t.market := Window(cfg, st, t)], Held(cfg, sizing, st, t))
  }

  /** The event's last point was a set or match point. */
  predicate AtSetPoint(scores: map<string, (bool, bool)>, event: string) {
    event in scores && (scores[event].0 || scores[event].1)
  }

  // ---------------------------------------------------------------- the strategy object

  class BuyTheDipStrategy {
    const cfg: Config
    const sizing: Sizing
    var prices: map<string, seq<Sample>>
    var markets: map<string, seq<string>>
    var positions: map<string, Position>
    var scoreState: map<string, (bool, bool)>

    constructor (cfg: Config, sizing: Sizing)
      ensures this.cfg == cfg && this.sizing == sizing
      ensures View() == State(map[], map[]) && markets == map[] && scoreState == map[]
    {
      this.cfg, this.sizing := cfg, sizing;
      prices, markets, positions, scoreState := map[], map[], map[], map[];
    }

    function View(): State
      reads this
    {
      State(prices, positions)
    }

    predicate Blocked(event: string)
      reads this
    {
      AtSetPoint(scoreState, event)
    }

    method RegisterMarkets(event: string, tickers: seq<string>)
      modifies this`markets
      ensures markets == old(markets)[event := tickers]
    {
      markets := markets[event := tickers];
    }

    method UnregisterMarkets(event: string)
      modifies this
      ensures var mkts := Listed(old(markets), event);
              && prices == old(prices) - ToSet(mkts)
              && positions == old(positions) - ToSet(mkts)
      ensures markets == old(markets) - {event} && scoreState == old(scoreState) - {event}
    {
      var mkts := Listed(markets, event);
      for i := 0 to |mkts|
        invariant prices == old(prices) - ToSet(mkts[..i])
        invariant positions == old(positions) - ToSet(mkts[..i])
        invariant markets == old(markets) && scoreState == old(scoreState)
      {
        assert ToSet(mkts[..i + 1]) == ToSet(mkts[..i]) + {mkts[i]};
        prices := prices - {mkts[i]};
        positions := positions - {mkts[i]};
      }
      assert mkts[..|mkts|] == mkts;
      markets := markets - {event};
      scoreState := scoreState - {event};
    }

    /** A set or match point blocks the event's entries until its next point; the other
        events are as they were. */
    method OnPoint(event: string, isMatchPoint: bool, isSetPoint: bool)
      modifies this`scoreState
      ensures scoreState == old(scoreState)[event := (isMatchPoint, isSetPoint)]
      ensures Blocked(event) <==> isMatchPoint || isSetPoint
    {
      scoreState := scoreState[event := (isMatchPoint, isSetPoint)];
    }

    method TrimSamples(all: seq<Sample>, cutoff: int) returns (samples: seq<Sample>)
      ensures samples == Trim(all, cutoff) && KeepsSince(all, samples, cutoff)
    {
      TrimKeeps(all, cutoff);
      samples := all;
      while |samples| > 0 && samples[0].ts < cutoff
        invariant Trim(samples, cutoff) == Trim(all, cutoff)
        decreases |samples|
      {
        samples := samples[1..];
      }
    }

    method OnPriceAt(market: string, price: real, ts: int, accept: bool)
      returns (offered: Option<Signal>, event: string)
      modifies this`prices, this`positions
      ensures Found(markets, market, event)
      ensures var t := Tick(market, price, ts, event, Blocked(event), accept);
              && offered == Offered(cfg, sizing, old(View()), t)
              && View() == Step(cfg, sizing, old(View()), t)
      ensures market in prices
              && KeepsSince(Seen(old(prices), market) + [Sample(ts, price)], prices[market], ts - cfg.windowSeconds * 1000)
    {
      hide Entry, ExitOf, SellSignal, Trim, KeepsSince;
      event := EventForMarket(markets, market);
      ghost var t := Tick(market, price, ts, event, Blocked(event), accept);
      var samples := NotePrice(market, price, ts);
      assert samples == Window(cfg, old(View()), t);
      if market in positions {
        offered := CheckExit(market, price, ts, event, accept);
      } else {
        offered := CheckEntry(market, price, ts, samples, event, accept);
      }
    }

    /** The sliding window after a price. */
    method NotePrice(market: string, price: real, ts: int) returns (samples: seq<Sample>)
      modifies this`prices
      ensures prices == old(prices)[market := samples]
      ensures samples == Trim(Seen(old(prices), market) + [Sample(ts, price)], ts - cfg.windowSeconds * 1000)
      ensures KeepsSince(Seen(old(prices), market) + [Sample(ts, price)], samples, ts - cfg.windowSeconds * 1000)
    {
      hide KeepsSince, Trim;
      var cutoff := ts - cfg.windowSeconds * 1000;
      samples := (if market in prices then prices[market] else []) + [Sample(ts, price)];
      samples := TrimSamples(samples, cutoff);
      prices := prices[market := samples];
    }

    method CheckEntry(market: string, price: real, ts: int, samples: seq<Sample>, event: string, accept: bool)
      returns (offered: Option<Signal>)
      requires market !in positions
      modifies this`positions
      ensures offered == Entry(cfg, sizing, samples, Tick(market, price, ts, event, Blocked(event), accept))
      ensures positions == if offered.Some? && accept then old(positions)[market := PositionOf(offered.value)]
                           else old(positions)
    {
      if |samples| < 2 || event == "" || Blocked(event) {
        return None;
      }
      var windowStart := samples[0].price;
      var dipCents := Truncate((windowStart - price) * 100.0);
      if dipCents < cfg.dipThresholdCents || windowStart < cfg.minPreDipPrice {
        return None;
      }
      if price < cfg.minEntryPrice || price > cfg.maxEntryPrice {
        return None;
      }
      var dipSize := windowStart - price;
      var convProb := windowStart;
      if convProb > 0.99 {
        convProb := 0.99;
      }
      var edgeCents := Truncate((convProb - price) * 100.0 + 0.000000001);
      if edgeCents < 1 {
        edgeCents := 1;
      }
      var size := KellySize(convProb, price, sizing);
      if size < 1.0 {
        size := 1.0;
      }
      var o := RawOrder(ts, event, market, "buy", "open", "btd_dip_" + Text.IntString(dipCents) + "c", 0, price, edgeCents, size);
      offered := Some(Signal(o, price, dipSize));
      // The position is recorded before the order is offered, and removed if it is refused.
      ghost var before := positions;
      positions := positions[market := Position(price, dipSize, ts, size)];
      if !accept {
        positions := positions - {market};
        assert positions == before;
      }
    }

    method CheckExit(market: string, price: real, ts: int, event: string, accept: bool)
      returns (offered: Option<Signal>)
      requires market in positions
      modifies this`positions
      ensures var pos, t := old(positions)[market], Tick(market, price, ts, event, Blocked(event), accept);
              var exit := ExitOf(cfg, pos, price, ts);
              && offered == (if exit.Leave? && event != "" then Some(SellSignal(pos, t, exit)) else None)
              && positions == if exit.Leave? && (event == "" || accept) then old(positions) - {market} else old(positions)
    {
      var pos := positions[market];
      var exit := ExitOf(cfg, pos, price, ts);
      if exit.Hold? {
        return None;
      }
      ghost var before := positions;
      positions := positions - {market};
      if event == "" {
        return None;
      }
      offered := Some(SellSignal(pos, Tick(market, price, ts, event, Blocked(event), accept), exit));
      if !accept {
        positions := positions[market := pos];
        assert positions == before;
      }
    }
  }
}
