/** The book-pressure strategy: buy when bids outweigh asks, sell on a small gain or loss,
    after a while, or when the pressure turns.  In a backtest the whole book series is
    loaded up front and read by binary search.
 */
module BookPressure {
  import opened Wrappers
  import opened Kelly
  import opened Money
  import opened Registry

  datatype BookTick = BookTick(ts: int, bid: real, ask: real, bidSize: real, askSize: real)

  datatype Config = Config(
    minPressure: real, exitPressure: real, minBidSize: real, minAskSize: real,
    minEntryPrice: real, maxEntryPrice: real,
    holdSeconds: int, takeProfitCents: int, stopLossCents: int, cooldownSeconds: int)

  const DefaultConfig := Config(0.6, 0.0, 100.0, 100.0, 0.15, 0.85, 120, 5, 3, 60)

  datatype Order = Order(
    ts: int, event: string, market: string, isSell: bool, reason: string,
    convProb: real, price: real, edgeCents: int, size: real, pressure: real)

  datatype Position = Position(entryPrice: real, entryTS: int, buySize: real)

  type Books = map<string, seq<BookTick>>

  datatype State = State(
    prices: map<string, real>, positions: map<string, Position>,
    cooldowns: map<string, int>, scoreState: map<string, (bool, bool)>)

  /** What the strategy is told: a price, with the event the market was found under and the
      emitter's answer, or a point's flags. */
  datatype Event =
    | Price(market: string, price: real, ts: int, event: string, accept: bool)
    | Point(event: string, isMatchPoint: bool, isSetPoint: bool)

  // ---------------------------------------------------------------- the book

  /** Binary search for the first tick after `ts`, as the library does it. */
  function Search(series: seq<BookTick>, ts: int, lo: nat, hi: nat): nat
    requires lo <= hi <= |series|
    decreases hi - lo
  {
    if lo == hi then lo
    else
      var mid := (lo + hi) / 2;
      if series[mid].ts > ts then Search(series, ts, lo, mid) else Search(series, ts, mid + 1, hi)
  }

  function BookAt(books: Books, market: string, ts: int): Option<BookTick> {
    var series := if market in books then books[market] else [];
    var idx := Search(series, ts, 0, |series|);
    SearchBounds(series, ts, 0, |series|);
    if idx == 0 then None else Some(series[idx - 1])
  }

  lemma SearchStep(series: seq<BookTick>, ts: int, lo: nat, hi: nat)
    requires lo <= hi <= |series|
    ensures lo == hi ==> Search(series, ts, lo, hi) == lo
    ensures lo < hi ==>
              var mid := (lo + hi) / 2;
              Search(series, ts, lo, hi) ==
              if series[mid].ts > ts then Search(series, ts, lo, mid) else Search(series, ts, mid + 1, hi)
  {
  }

  lemma {:induction false} SearchBounds(series: seq<BookTick>, ts: int, lo: nat, hi: nat)
    requires lo <= hi <= |series|
    ensures lo <= Search(series, ts, lo, hi) <= hi
    decreases hi - lo
  {
    if lo < hi {
      var mid := (lo + hi) / 2;
      if series[mid].ts > ts {
        SearchBounds(series, ts, lo, mid);
      } else {
        SearchBounds(series, ts, mid + 1, hi);
      }
    }
  }

  function Pressure(cfg: Config, book: Option<BookTick>): Option<real> {
    if book.None? || book.value.bidSize < cfg.minBidSize || book.value.askSize < cfg.minAskSize
       || book.value.bidSize + book.value.askSize <= 0.0
    then None
    else Some((book.value.bidSize - book.value.askSize) / (book.value.bidSize + book.value.askSize))
  }

  /** Pressure is the imbalance of the sizes as a share of both: positive when bids outweigh
      asks and never beyond one either way.  None is read off an empty or too thin book. */
  lemma PressureMeaning(cfg: Config, book: Option<BookTick>)
    ensures var p := Pressure(cfg, book);
            && (p.Some? ==>
                  && book.Some?
                  && var bid, ask := book.value.bidSize, book.value.askSize;
                     && bid >= cfg.minBidSize && ask >= cfg.minAskSize && bid + ask > 0.0
                     && p.value * (bid + ask) == bid - ask
                     && (p.value > 0.0 <==> bid > ask)
                     && (bid >= 0.0 && ask >= 0.0 ==> -1.0 <= p.value <= 1.0))
            && (p.None? <==>
                  book.None? || book.value.bidSize < cfg.minBidSize || book.value.askSize < cfg.minAskSize
                  || book.value.bidSize + book.value.askSize <= 0.0)
  {
    if Pressure(cfg, book).Some? {
      Imbalance(book.value.bidSize, book.value.askSize);
    }
  }

  lemma Imbalance(bid: real, ask: real)
    requires bid + ask > 0.0
    ensures var p := (bid - ask) / (bid + ask);
            && p * (bid + ask) == bid - ask && (p > 0.0 <==> bid > ask)
            && (bid >= 0.0 && ask >= 0.0 ==> -1.0 <= p <= 1.0)
  {
    var t, p := bid + ask, (bid - ask) / (bid + ask);
    assert p * t == bid - ask;
    SameSign(p, t);
    SameSign(1.0 - p, t);
    SameSign(1.0 + p, t);
  }

  lemma SameSign(x: real, t: real)
    requires t > 0.0
    ensures x * t > 0.0 <==> x > 0.0
    ensures x * t >= 0.0 <==> x >= 0.0
  {
  }

  // ---------------------------------------------------------------- pure steps

  predicate Blocked(scores: map<string, (bool, bool)>, event: string) {
    event in scores && (scores[event].0 || scores[event].1)
  }

  predicate CoolingDown(cfg: Config, cooldowns: map<string, int>, market: string, ts: int) {
    market in cooldowns && cooldowns[market] > 0 && ts - cooldowns[market] < cfg.cooldownSeconds * 1000
  }

  function Entry(cfg: Config, sizing: Sizing, pressure: Option<real>, st: State, e: Event): Option<Order>
    requires e.Price?
  {
    if e.price < cfg.minEntryPrice || e.price > cfg.maxEntryPrice || e.event == ""
       || Blocked(st.scoreState, e.event) || CoolingDown(cfg, st.cooldowns, e.market, e.ts)
       || pressure.None? || pressure.value < cfg.minPressure
    then None
    else
      var raw := Truncate(pressure.value * 200.0 + 0.000000001);
      var edge := if raw < 1 then 1 else raw;
      var target := e.price + edge as real / 100.0;
      var convProb := if target > 0.99 then 0.99 else target;
      var size := KellySize(convProb, e.price, sizing);
      Some(Order(e.ts, e.event, e.market, false, "pressure", convProb, e.price, edge,
                 if size < 1.0 then 1.0 else size, pressure.value))
  }

  datatype Exit = Hold | Leave(reason: string, price: real)

  function ExitOf(cfg: Config, pos: Position, pressure: Option<real>, price: real, ts: int): Exit {
    var tpPrice := pos.entryPrice + cfg.takeProfitCents as real / 100.0;
    var slPrice := pos.entryPrice - cfg.stopLossCents as real / 100.0;
    if price >= tpPrice then Leave("tp", tpPrice)
    else if price <= slPrice then Leave("sl", slPrice)
    else if ts - pos.entryTS >= cfg.holdSeconds * 1000 then Leave("time", price)
    else if pressure.Some? && pressure.value < cfg.exitPressure then Leave("reversal", price)
    else Hold
  }

  function SellOrder(pos: Position, e: Event, exit: Exit): Order
    requires e.Price? && exit.Leave?
  {
    Order(e.ts, e.event, e.market, true, exit.reason, pos.entryPrice, exit.price,
          Truncate((exit.price - pos.entryPrice) * 100.0),
          if pos.buySize < 1.0 then 1.0 else pos.buySize, 0.0)
  }

  datatype Outcome = Outcome(state: State, offered: Option<Order>)

  /** One event, given the pressure read off the book. */
  function StepWith(cfg: Config, sizing: Sizing, pressure: Option<real>, st: State, e: Event): Outcome {
    match e
    case Point(event, mp, sp) => Outcome(st.(scoreState := st.scoreState[event := (mp, sp)]), None)
    case Price(m, price, ts, event, accept) =>
      var st := st.(prices := st.prices[m := price]);
      if m in st.positions then
        var pos := st.positions[m];
        var exit := ExitOf(cfg, pos, pressure, price, ts);
        if exit.Hold? then Outcome(st, None)
        else
          var cooled := st.(cooldowns := st.cooldowns[m := ts]);
          var left := cooled.(positions := st.positions - {m});
          if event == "" then Outcome(left, None)
          else Outcome(if accept then left else cooled, Some(SellOrder(pos, e, exit)))
      else
        var o := Entry(cfg, sizing, pressure, st, e);
        if o.Some? && accept
        then Outcome(st.(positions := st.positions[m := Position(price, ts, o.value.size)]), o)
        else Outcome(st, o)
  }

  function PressureFor(cfg: Config, books: Books, e: Event): Option<real> {
    if e.Price? then Pressure(cfg, BookAt(books, e.market, e.ts)) else None
  }

  function Step(cfg: Config, sizing: Sizing, books: Books, st: State, e: Event): Outcome {
    StepWith(cfg, sizing, PressureFor(cfg, books, e), st, e)
  }

  // ---------------------------------------------------------------- the strategy object

  class BookPressureStrategy {
    const cfg: Config
    const sizing: Sizing
    var prices: map<string, real>
    var books: Books
    var markets: map<string, seq<string>>
    var positions: map<string, Position>
    var cooldowns: map<string, int>
    var scoreState: map<string, (bool, bool)>

    constructor (cfg: Config, sizing: Sizing)
      ensures this.cfg == cfg && this.sizing == sizing
      ensures View() == Fresh && books == map[] && markets == map[]
    {
      this.cfg, this.sizing := cfg, sizing;
      prices, books, markets, positions, cooldowns, scoreState := map[], map[], map[], map[], map[], map[];
    }

    function View(): State
      reads this
    {
      State(prices, positions, cooldowns, scoreState)
    }

    method RegisterMarkets(event: string, tickers: seq<string>)
      modifies this`markets
      ensures markets == old(markets)[event := tickers]
    {
      markets := markets[event := tickers];
    }

    method UnregisterMarkets(event: string)
      modifies this
      ensures var mkts := ToSet(Listed(old(markets), event));
              && prices == old(prices) - mkts && books == old(books) - mkts
              && positions == old(positions) - mkts && cooldowns == old(cooldowns) - mkts
      ensures markets == old(markets) - {event} && scoreState == old(scoreState) - {event}
    {
      var mkts := Listed(markets, event);
      for i := 0 to |mkts|
        invariant prices == old(prices) - ToSet(mkts[..i]) && books == old(books) - ToSet(mkts[..i])
        invariant positions == old(positions) - ToSet(mkts[..i]) && cooldowns == old(cooldowns) - ToSet(mkts[..i])
        invariant markets == old(markets) && scoreState == old(scoreState)
      {
        var mkt := mkts[i];
        assert ToSet(mkts[..i + 1]) == ToSet(mkts[..i]) + {mkt};
        hide ToSet;
        DropOne(old(prices), ToSet(mkts[..i]), mkt);
        DropOne(old(books), ToSet(mkts[..i]), mkt);
        DropOne(old(positions), ToSet(mkts[..i]), mkt);
        DropOne(old(cooldowns), ToSet(mkts[..i]), mkt);
        prices := prices - {mkt};
        books := books - {mkt};
        positions := positions - {mkt};
        cooldowns := cooldowns - {mkt};
      }
      assert mkts[..|mkts|] == mkts;
      markets := markets - {event};
      scoreState := scoreState - {event};
    }

    method SetBookSeries(market: string, series: seq<BookTick>)
      modifies this`books
      ensures books == old(books)[market := series]
    {
      books := books[market := series];
    }

    /** A set or match point blocks the event's entries until its next point. */
    method OnPoint(event: string, isMatchPoint: bool, isSetPoint: bool)
      modifies this`scoreState
      ensures Blocked(scoreState, event) <==> isMatchPoint || isSetPoint
      ensures forall e <- old(scoreState).Keys - {event} :: e in scoreState && scoreState[e] == old(scoreState)[e]
      ensures View() == Step(cfg, sizing, books, old(View()), Point(event, isMatchPoint, isSetPoint)).state
    {
      scoreState := scoreState[event := (isMatchPoint, isSetPoint)];
    }

    /** The library's search, on any series, sorted or not. */
    method BookAtTime(market: string, ts: int) returns (book: Option<BookTick>)
      ensures book == BookAt(books, market, ts)
    {
      var series := if market in books then books[market] else [];
      if |series| == 0 {
        return None;
      }
      hide Search;
      ghost var goal := Search(series, ts, 0, |series|);
      var i, j := 0, |series|;
      while i < j
        invariant 0 <= i <= j <= |series|
        invariant Search(series, ts, i, j) == goal
      {
        SearchStep(series, ts, i, j);
        var h := (i + j) / 2;
        if series[h].ts > ts {
          j := h;
        } else {
          i := h + 1;
        }
      }
      SearchStep(series, ts, i, j);
      book := if i == 0 then None else Some(series[i - 1]);
    }

    method PressureAt(market: string, ts: int) returns (pressure: Option<real>)
      ensures pressure == Pressure(cfg, BookAt(books, market, ts))
    {
      var book := BookAtTime(market, ts);
      if book.None? || book.value.bidSize < cfg.minBidSize || book.value.askSize < cfg.minAskSize {
        return None;
      }
      var total := book.value.bidSize + book.value.askSize;
      if total <= 0.0 {
        return None;
      }
      pressure := Some((book.value.bidSize - book.value.askSize) / total);
    }

    method OnPriceAt(market: string, price: real, ts: int, accept: bool)
      returns (offered: Option<Order>, event: string)
      modifies this`prices, this`positions, this`cooldowns
      ensures Found(markets, market, event)
      ensures Outcome(View(), offered) == Step(cfg, sizing, books, old(View()), Price(market, price, ts, event, accept))
    {
      event := EventForMarket(markets, market);
      prices := prices[market := price];
      var pressure := PressureAt(market, ts);
      hide Pressure, BookAt, Entry, ExitOf, SellOrder;
      ghost var e := Price(market, price, ts, event, accept);
      ghost var st := View();
      if market in positions {
        var pos := positions[market];
        var exit := ExitOf(cfg, pos, pressure, price, ts);
        if exit.Hold? {
          return None, event;
        }
        positions := positions - {market};
        cooldowns := cooldowns[market := ts];
        if event == "" {
          return None, event;
        }
        offered := Some(SellOrder(pos, Price(market, price, ts, event, accept), exit));
        if !accept {
          positions := positions[market := pos];
          assert positions == st.positions;
        }
      } else {
        offered := Entry(cfg, sizing, pressure, View(), Price(market, price, ts, event, accept));
        if offered.Some? {
          positions := positions[market := Position(price, ts, offered.value.size)];
          if !accept {
            positions := positions - {market};
            assert positions == st.positions;
          }
        }
      }
    }
  }

  const Fresh := State(map[], map[], map[], map[])
}
