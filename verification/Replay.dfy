/** Backtest replay.  One strategy at a time with a model of its own, or all strategies of all
    matches at once over one shared, memoising Markov model: both give every strategy the
    same orders.
 */
module Replay {
  import opened Wrappers
  import opened MarkovModel
  import opened PointFlags
  import opened Resolver

  datatype TickPrice = TickPrice(ts: int, price: real)

  datatype ReplayEvent =
    | PriceEvent(ts: int, market: string, price: real)
    | ScoreEvent(ts: int, point: Row)

  /** What the strategies with a close-time interface have besides. */
  datatype CloseHooks<!S> = CloseHooks(
    registerCloseTime: (S, string, int) -> S,
    unregister: (S, string) -> S)

  /** A deterministic strategy over states `S`: `make` is what its factory returns, `register`
      registers and wires it for a match and its two markets.  A callback asks the model its
      next query given the answers so far, at most `limit` of them, and then returns the
      orders it emits.  Score events reach observers only. */
  datatype Strategy<!S> = Strategy(
    make: S,
    register: (S, string, string, string) -> S,
    setReplayTime: (S, int) -> S,
    limit: nat,
    nextQuery: (S, ReplayEvent, seq<real>) -> Option<Query>,
    onPriceAt: (S, string, real, int, seq<real>) -> (S, seq<RawOrder>),
    observesScores: bool,
    onPoint: (S, string, Row, seq<real>) -> (S, seq<RawOrder>),
    closeTime: Option<CloseHooks<S>>)

  /** A strategy object with its order collector. */
  datatype Instance<S> = Instance(state: S, collected: seq<RawOrder>)

  // ---------------------------------------------------------------- one event

  /** What a strategy asks the model next at an event, given the answers so far. */
  function Asks<S>(strat: Strategy<S>, s: S, ev: ReplayEvent, answers: seq<real>): Option<Query> {
    if (ev.PriceEvent? || strat.observesScores) && |answers| < strat.limit then strat.nextQuery(s, ev, answers) else None
  }

  /** The answers a callback ends up with, which no model's tables can change. */
  function Hear<S>(pServe: real, strat: Strategy<S>, s: S, ev: ReplayEvent, answers: seq<real>): seq<real>
    decreases if |answers| < strat.limit then strat.limit - |answers| else 0
  {
    var q := Asks(strat, s, ev, answers);
    if q.None? then answers else Hear(pServe, strat, s, ev, answers + [Answer(pServe, q.value)])
  }

  /** The instance after an event, given the answers to its queries. */
  function React<S>(strat: Strategy<S>, matchTicker: string, inst: Instance<S>, ev: ReplayEvent, answers: seq<real>): Instance<S> {
    if ev.PriceEvent? then
      var (next, orders) := strat.onPriceAt(inst.state, ev.market, ev.price, ev.ts, answers);
      Instance(next, inst.collected + orders)
    else if strat.observesScores then
      var (next, orders) := strat.onPoint(inst.state, matchTicker, ev.point, answers);
      Instance(next, inst.collected + orders)
    else inst
  }

  function Timed<S>(strat: Strategy<S>, inst: Instance<S>, ev: ReplayEvent): Instance<S> {
    inst.(state := strat.setReplayTime(inst.state, ev.ts))
  }

  /** One callback of a strategy. */
  function Call<S>(pServe: real, strat: Strategy<S>, matchTicker: string, inst: Instance<S>, ev: ReplayEvent): Instance<S> {
    React(strat, matchTicker, inst, ev, Hear(pServe, strat, inst.state, ev, []))
  }

  function Feed<S>(pServe: real, strat: Strategy<S>, matchTicker: string, inst: Instance<S>, ev: ReplayEvent): Instance<S> {
    Call(pServe, strat, matchTicker, Timed(strat, inst, ev), ev)
  }

  function FeedAll<S>(pServe: real, strat: Strategy<S>, matchTicker: string, inst: Instance<S>, events: seq<ReplayEvent>): Instance<S> {
    if events == [] then inst
    else Feed(pServe, strat, matchTicker, FeedAll(pServe, strat, matchTicker, inst, events[..|events| - 1]), events[|events| - 1])
  }

  lemma FeedNext<S>(pServe: real, strat: Strategy<S>, matchTicker: string, inst: Instance<S>, events: seq<ReplayEvent>, n: nat)
    requires n < |events|
    ensures FeedAll(pServe, strat, matchTicker, inst, events[..n + 1]) ==
            Feed(pServe, strat, matchTicker, FeedAll(pServe, strat, matchTicker, inst, events[..n]), events[n])
  {
    assert events[..n + 1][..n] == events[..n];
  }

  // ---------------------------------------------------------------- close-time replay

  /** The close-time replay as a script: a match is registered with its close time, quoted
      tick by tick, and unregistered. */
  datatype CloseStep =
    | Open(ticker: string, closeTs: int, home: string, away: string)
    | Quote(ev: ReplayEvent)
    | Shut(ticker: string)

  /** One instance serves all matches, and no replay time is set. */
  function CloseApply<S>(pServe: real, strat: Strategy<S>, hooks: CloseHooks<S>, inst: Instance<S>, step: CloseStep): Instance<S> {
    match step
    case Open(ticker, ts, home, away) =>
      inst.(state := strat.register(hooks.registerCloseTime(inst.state, ticker, ts), ticker, home, away))
    case Quote(ev) => Call(pServe, strat, "", inst, ev)
    case Shut(ticker) => inst.(state := hooks.unregister(inst.state, ticker))
  }

  function CloseAll<S>(pServe: real, strat: Strategy<S>, hooks: CloseHooks<S>, script: seq<CloseStep>): Instance<S> {
    if script == [] then Instance(strat.make, [])
    else CloseApply(pServe, strat, hooks, CloseAll(pServe, strat, hooks, script[..|script| - 1]), script[|script| - 1])
  }

  lemma CloseNext<S>(pServe: real, strat: Strategy<S>, hooks: CloseHooks<S>, script: seq<CloseStep>, n: nat)
    requires n < |script|
    ensures CloseAll(pServe, strat, hooks, script[..n + 1]) ==
            CloseApply(pServe, strat, hooks, CloseAll(pServe, strat, hooks, script[..n]), script[n])
  {
    assert script[..n + 1][..n] == script[..n];
  }

  function Quotes(market: string, ticks: seq<TickPrice>): (r: seq<CloseStep>)
    ensures |r| == |ticks|
  {
    seq(|ticks|, i requires 0 <= i < |ticks| => Quote(PriceEvent(ticks[i].ts, market, ticks[i].price)))
  }

  // ---------------------------------------------------------------- the engine

  function PriceEvents(market: string, ticks: seq<TickPrice>): (r: seq<ReplayEvent>)
    ensures |r| == |ticks|
  {
    seq(|ticks|, i requires 0 <= i < |ticks| => PriceEvent(ticks[i].ts, market, ticks[i].price))
  }

  function ScoreEvents(points: seq<(int, Row)>): (r: seq<ReplayEvent>)
    ensures |r| == |points|
  {
    seq(|points|, i requires 0 <= i < |points| => ScoreEvent(points[i].0, points[i].1))
  }

  /** Prices and points in the order of their times. */
  predicate InTimeOrder(events: seq<ReplayEvent>) {
    forall i, j :: 0 <= i < j < |events| ==> events[i].ts <= events[j].ts
  }

  /** What the library's sort does. */
  ghost predicate SortsByTime(sort: seq<ReplayEvent> -> seq<ReplayEvent>) {
    forall events: seq<ReplayEvent> :: multiset(sort(events)) == multiset(events) && InTimeOrder(sort(events))
  }

  /** A market's price events are its ticks, each once. */
  lemma {:induction false} PriceCounts(market: string, ticks: seq<TickPrice>)
    ensures forall ts, m, x ::
              multiset(PriceEvents(market, ticks))[PriceEvent(ts, m, x)] == if m == market then multiset(ticks)[TickPrice(ts, x)] else 0
    ensures forall ts, row :: multiset(PriceEvents(market, ticks))[ScoreEvent(ts, row)] == 0
  {
    if ticks != [] {
      var init, t := ticks[..|ticks| - 1], ticks[|ticks| - 1];
      PriceCounts(market, init);
      assert ticks == init + [t];
      assert PriceEvents(market, ticks) == PriceEvents(market, init) + [PriceEvent(t.ts, market, t.price)];
    }
  }

  lemma {:induction false} ScoreCounts(points: seq<(int, Row)>)
    ensures forall ts, row :: multiset(ScoreEvents(points))[ScoreEvent(ts, row)] == multiset(points)[(ts, row)]
    ensures forall ts, m, x :: multiset(ScoreEvents(points))[PriceEvent(ts, m, x)] == 0
  {
    if points != [] {
      var init, p := points[..|points| - 1], points[|points| - 1];
      ScoreCounts(init);
      assert points == init + [p];
      assert ScoreEvents(points) == ScoreEvents(init) + [ScoreEvent(p.0, p.1)];
    }
  }

  function Get<T>(m: map<string, seq<T>>, k: string): seq<T> { if k in m then m[k] else [] }

  /** Where a match's goroutine is: its strategies' instances, the event and the strategy at
      hand, and the answers that callback has so far. */
  datatype Worker<S> = Worker(states: seq<Instance<S>>, event: nat, strat: nat, answers: seq<real>)

  datatype Result = Result(orders: seq<Order>, matchCount: nat)

  class Engine<S(!new)> {
    const markets: map<string, seq<MarketRow>>
    const tickPrices: map<string, seq<TickPrice>>
    const points: map<string, seq<(int, Row)>>
    const factories: map<string, Strategy<S>>
    const closeTs: map<string, int>
    /** The matches with a market that is finalized. */
    const finalized: set<string>
    /** The library sort by timestamp; only that it is a function of its input is used. */
    const sortEvents: seq<ReplayEvent> -> seq<ReplayEvent>
    /** Home and away tickers of a match, read off the event title. */
    const orderMarkets: (string, seq<MarketRow>) -> (string, string)
    var eventsByMatch: map<string, seq<ReplayEvent>>
    var marketOrderCache: map<string, (string, string)>

    constructor (markets: map<string, seq<MarketRow>>, tickPrices: map<string, seq<TickPrice>>,
                 points: map<string, seq<(int, Row)>>, factories: map<string, Strategy<S>>,
                 closeTs: map<string, int>, finalized: set<string>,
                 sortEvents: seq<ReplayEvent> -> seq<ReplayEvent>,
                 orderMarkets: (string, seq<MarketRow>) -> (string, string))
      ensures Valid()
      ensures this.markets == markets && this.tickPrices == tickPrices && this.points == points
      ensures this.closeTs == closeTs && this.finalized == finalized
      ensures this.factories == factories && this.sortEvents == sortEvents && this.orderMarkets == orderMarkets
    {
      this.markets, this.tickPrices, this.points := markets, tickPrices, points;
      this.factories, this.sortEvents, this.orderMarkets := factories, sortEvents, orderMarkets;
      this.closeTs, this.finalized := closeTs, finalized;
      eventsByMatch, marketOrderCache := map[], map[];
    }

    // -------------------------------------------------------------- what a replay means

    ghost function HomeAway(ticker: string): (string, string)
      requires ticker in markets
    {
      orderMarkets(ticker, markets[ticker])
    }

    /** Both markets' ticks, then the match's points, sorted. */
    function Merged(ticker: string, home: string, away: string): seq<ReplayEvent> {
      sortEvents(PriceEvents(home, Get(tickPrices, home)) + PriceEvents(away, Get(tickPrices, away))
                 + ScoreEvents(Get(points, ticker)))
    }

    /** The events of a replay: each tick of the home and of the away market once, under its
        own ticker, each point of the match once, and nothing else, in the order of time. */
    ghost predicate Complete(ticker: string, home: string, away: string, events: seq<ReplayEvent>) {
      var homeTicks := if home in tickPrices then tickPrices[home] else [];
      var awayTicks := if away in tickPrices then tickPrices[away] else [];
      var rows := if ticker in points then points[ticker] else [];
      && InTimeOrder(events)
      && (forall ts, m, x :: multiset(events)[PriceEvent(ts, m, x)] ==
            (if m == home then multiset(homeTicks)[TickPrice(ts, x)] else 0)
            + (if m == away then multiset(awayTicks)[TickPrice(ts, x)] else 0))
      && (forall ts, row :: multiset(events)[ScoreEvent(ts, row)] == multiset(rows)[(ts, row)])
    }

    lemma MergedComplete(ticker: string, home: string, away: string)
      requires SortsByTime(sortEvents)
      ensures Complete(ticker, home, away, Merged(ticker, home, away))
    {
      var x, y, z := PriceEvents(home, Get(tickPrices, home)), PriceEvents(away, Get(tickPrices, away)), ScoreEvents(Get(points, ticker));
      PriceCounts(home, Get(tickPrices, home));
      PriceCounts(away, Get(tickPrices, away));
      ScoreCounts(Get(points, ticker));
      hide PriceEvents, ScoreEvents, InTimeOrder;
      assert multiset(sortEvents(x + y + z)) == multiset(x) + multiset(y) + multiset(z);
    }

    ghost function Events(ticker: string): seq<ReplayEvent>
      requires ticker in markets
    {
      Merged(ticker, HomeAway(ticker).0, HomeAway(ticker).1)
    }

    ghost function Created(name: string, ticker: string): Instance<S>
      requires name in factories && ticker in markets
    {
      Instance(factories[name].register(factories[name].make, ticker, HomeAway(ticker).0, HomeAway(ticker).1), [])
    }

    /** One strategy alone on one match. */
    ghost function Alone(pServe: real, name: string, ticker: string, minPrice: real): seq<Order>
      requires name in factories && ticker in markets
    {
      var end := FeedAll(pServe, factories[name], ticker, Created(name, ticker), Events(ticker));
      Resolve(Results(markets[ticker]), minPrice, end.collected).orders
    }

    predicate Playable(ticker: string) { ticker in markets && |markets[ticker]| >= 2 }

    /** Orders and match count of one strategy over the matches, in the given order. */
    ghost function TickResult(pServe: real, name: string, tickers: seq<string>, minPrice: real): Result
      requires name in factories
    {
      if tickers == [] then Result([], 0)
      else
        var r, ticker := TickResult(pServe, name, tickers[..|tickers| - 1], minPrice), tickers[|tickers| - 1];
        if Playable(ticker) then Result(r.orders + Alone(pServe, name, ticker, minPrice), r.matchCount + 1) else r
    }

    lemma TickNext(pServe: real, name: string, tickers: seq<string>, n: nat, minPrice: real)
      requires name in factories && n < |tickers|
      ensures TickResult(pServe, name, tickers[..n + 1], minPrice) ==
              var r := TickResult(pServe, name, tickers[..n], minPrice);
              if Playable(tickers[n]) then Result(r.orders + Alone(pServe, name, tickers[n], minPrice), r.matchCount + 1) else r
    {
      assert tickers[..n + 1][..n] == tickers[..n];
    }

    /** The matches the close-time replay takes. */
    predicate Closing(ticker: string) {
      Playable(ticker) && ticker in closeTs && closeTs[ticker] != 0 && ticker in finalized
    }

    ghost function MatchScript(ticker: string): seq<CloseStep>
      requires ticker in markets && ticker in closeTs
    {
      var (home, away) := HomeAway(ticker);
      [Open(ticker, closeTs[ticker], home, away)] + Quotes(home, Get(tickPrices, home)) + Quotes(away, Get(tickPrices, away))
      + [Shut(ticker)]
    }

    ghost function CloseScript(tickers: seq<string>): seq<CloseStep> {
      if tickers == [] then []
      else
        var before, ticker := CloseScript(tickers[..|tickers| - 1]), tickers[|tickers| - 1];
        if Closing(ticker) then before + MatchScript(ticker) else before
    }

    function ClosingCount(tickers: seq<string>): nat {
      if tickers == [] then 0
      else ClosingCount(tickers[..|tickers| - 1]) + if Closing(tickers[|tickers| - 1]) then 1 else 0
    }

    function AllRows(tickers: seq<string>): seq<MarketRow> {
      if tickers == [] then [] else AllRows(tickers[..|tickers| - 1]) + Get(markets, tickers[|tickers| - 1])
    }

    /** One close-time strategy alone; the others give nothing here. */
    ghost function CloseAlone(pServe: real, name: string, tickers: seq<string>, minPrice: real): seq<Order>
      requires name in factories
    {
      match factories[name].closeTime
      case None => []
      case Some(hooks) =>
        Resolve(Results(AllRows(tickers)), minPrice, CloseAll(pServe, factories[name], hooks, CloseScript(tickers)).collected).orders
    }

    /** What a run of one strategy gives. */
    ghost function SingleResult(pServe: real, name: string, tickers: seq<string>, minPrice: real): Result
      requires name in factories
    {
      var r := TickResult(pServe, name, tickers, minPrice);
      Result(r.orders + CloseAlone(pServe, name, tickers, minPrice), r.matchCount)
    }

    /** What the broadcast gives a strategy: the tick replay or the close-time replay. */
    ghost function BroadcastResult(pServe: real, name: string, tickers: seq<string>, minPrice: real): Result
      requires name in factories
    {
      if factories[name].closeTime.None? then TickResult(pServe, name, tickers, minPrice)
      else Result(CloseAlone(pServe, name, tickers, minPrice), ClosingCount(tickers))
    }

    /** The strategy has no close-time interface, or the tick replay gives it no order and
        every match with two markets is finalized with a close time. */
    ghost predicate Agreeing(pServe: real, name: string, tickers: seq<string>, minPrice: real)
      requires name in factories
    {
      || factories[name].closeTime.None?
      || (TickResult(pServe, name, tickers, minPrice).orders == []
          && forall i :: 0 <= i < |tickers| && Playable(tickers[i]) ==> Closing(tickers[i]))
    }

    lemma {:induction false} CountsAgree(pServe: real, name: string, tickers: seq<string>, minPrice: real)
      requires name in factories
      ensures ClosingCount(tickers) <= TickResult(pServe, name, tickers, minPrice).matchCount
      ensures ClosingCount(tickers) == TickResult(pServe, name, tickers, minPrice).matchCount <==>
              forall i :: 0 <= i < |tickers| && Playable(tickers[i]) ==> Closing(tickers[i])
    {
      if tickers != [] {
        var init, ticker := tickers[..|tickers| - 1], tickers[|tickers| - 1];
        CountsAgree(pServe, name, init, minPrice);
        assert (forall i :: 0 <= i < |tickers| && Playable(tickers[i]) ==> Closing(tickers[i])) <==>
               (forall i :: 0 <= i < |init| && Playable(init[i]) ==> Closing(init[i])) && (Playable(ticker) ==> Closing(ticker)) by {
          assert tickers == init + [ticker];
          hide Closing, Playable;
        }
        hide Alone;
      }
    }

    /** The two ways of running a strategy agree exactly then. */
    lemma AgreeExactly(pServe: real, name: string, tickers: seq<string>, minPrice: real)
      requires name in factories
      ensures SingleResult(pServe, name, tickers, minPrice) == BroadcastResult(pServe, name, tickers, minPrice)
              <==> Agreeing(pServe, name, tickers, minPrice)
    {
      hide TickResult, Resolve, CloseAll, ClosingCount, Closing, Playable;
      CountsAgree(pServe, name, tickers, minPrice);
    }

    /** A close-time strategy on a match that is not finalized: one match or none. */
    lemma OpenMatchDiffers(pServe: real, name: string, ticker: string, minPrice: real)
      requires name in factories && factories[name].closeTime.Some? && Playable(ticker) && !Closing(ticker)
      ensures SingleResult(pServe, name, [ticker], minPrice).matchCount == 1
      ensures BroadcastResult(pServe, name, [ticker], minPrice).matchCount == 0
    {
      assert [ticker][..0] == [];
      assert TickResult(pServe, name, [], minPrice) == Result([], 0) && ClosingCount([]) == 0;
      hide Resolve, CloseAll, Alone, CloseScript;
    }

    // -------------------------------------------------------------- caches

    /** Cache entries are what would be computed afresh. */
    ghost predicate Valid()
      reads this
    {
      && (forall k <- marketOrderCache :: k in markets && marketOrderCache[k] == HomeAway(k))
      && (forall k <- eventsByMatch :: k in markets && eventsByMatch[k] == Events(k))
    }

    method CachedMarketOrder(ticker: string) returns (home: string, away: string)
      requires Valid() && ticker in markets
      modifies this`marketOrderCache
      ensures Valid() && (home, away) == HomeAway(ticker)
      ensures marketOrderCache == old(marketOrderCache)[ticker := HomeAway(ticker)]
    {
      if ticker in marketOrderCache {
        assert marketOrderCache == marketOrderCache[ticker := HomeAway(ticker)];
        return marketOrderCache[ticker].0, marketOrderCache[ticker].1;
      }
      var pair := orderMarkets(ticker, markets[ticker]);
      marketOrderCache := marketOrderCache[ticker := pair];
      return pair.0, pair.1;
    }

    method BuildEvents(ticker: string, home: string, away: string) returns (events: seq<ReplayEvent>)
      ensures events == Merged(ticker, home, away)
      ensures SortsByTime(sortEvents) ==> Complete(ticker, home, away, events)
    {
      var merged: seq<ReplayEvent> := [];
      var homeTicks, awayTicks, scores := Get(tickPrices, home), Get(tickPrices, away), Get(points, ticker);
      for i := 0 to |homeTicks|
        invariant merged == PriceEvents(home, homeTicks[..i])
      {
        merged := merged + [PriceEvent(homeTicks[i].ts, home, homeTicks[i].price)];
      }
      assert homeTicks[..|homeTicks|] == homeTicks;
      ghost var first := merged;
      for i := 0 to |awayTicks|
        invariant merged == first + PriceEvents(away, awayTicks[..i])
      {
        merged := merged + [PriceEvent(awayTicks[i].ts, away, awayTicks[i].price)];
      }
      assert awayTicks[..|awayTicks|] == awayTicks;
      ghost var second := merged;
      for i := 0 to |scores|
        invariant merged == second + ScoreEvents(scores[..i])
      {
        merged := merged + [ScoreEvent(scores[i].0, scores[i].1)];
      }
      assert scores[..|scores|] == scores;
      events := sortEvents(merged);
      if SortsByTime(sortEvents) {
        MergedComplete(ticker, home, away);
      }
    }

    method CachedEvents(ticker: string, home: string, away: string) returns (events: seq<ReplayEvent>)
      requires Valid() && ticker in markets && (home, away) == HomeAway(ticker)
      modifies this`eventsByMatch
      ensures Valid() && events == Events(ticker)
      ensures eventsByMatch == old(eventsByMatch)[ticker := Events(ticker)]
    {
      if ticker in eventsByMatch {
        assert eventsByMatch == eventsByMatch[ticker := Events(ticker)];
        return eventsByMatch[ticker];
      }
      events := BuildEvents(ticker, home, away);
      eventsByMatch := eventsByMatch[ticker := events];
    }

    // -------------------------------------------------------------- one strategy

    /** One callback of one strategy, asking the model as it goes. */
    method Consult(strat: Strategy<S>, ticker: string, inst: Instance<S>, ev: ReplayEvent, model: Model)
      returns (next: Instance<S>)
      requires model.Valid()
      modifies model
      ensures model.Valid()
      ensures next == Call(model.pServe, strat, ticker, inst, ev)
    {
      hide Answer;
      var answers: seq<real> := [];
      var q := Asks(strat, inst.state, ev, answers);
      while q.Some?
        invariant model.Valid() && q == Asks(strat, inst.state, ev, answers)
        invariant Hear(model.pServe, strat, inst.state, ev, answers) == Hear(model.pServe, strat, inst.state, ev, [])
        decreases if |answers| < strat.limit then strat.limit - |answers| else 0
      {
        var r := Ask(model, q.value);
        answers := answers + [r];
        q := Asks(strat, inst.state, ev, answers);
      }
      next := React(strat, ticker, inst, ev, answers);
    }

    method ReplayInterleaved(strat: Strategy<S>, ticker: string, inst: Instance<S>, events: seq<ReplayEvent>, model: Model)
      returns (end: Instance<S>)
      requires model.Valid()
      modifies model
      ensures model.Valid()
      ensures end == FeedAll(model.pServe, strat, ticker, inst, events)
    {
      hide Call;
      end := inst;
      for n := 0 to |events|
        invariant model.Valid()
        invariant end == FeedAll(model.pServe, strat, ticker, inst, events[..n])
      {
        FeedNext(model.pServe, strat, ticker, inst, events, n);
        end := Consult(strat, ticker, Timed(strat, end, events[n]), events[n], model);
      }
      assert events[..|events|] == events;
    }

    /** `tickers` is the order in which the match map is visited. */
    method RunStrategy(name: string, minPrice: real, tickers: seq<string>, model: Model) returns (r: Result)
      requires Valid() && model.Valid()
      requires name in factories && forall i :: 0 <= i < |tickers| ==> tickers[i] in markets
      modifies this`marketOrderCache, this`eventsByMatch, model
      ensures Valid() && model.Valid()
      ensures r == SingleResult(model.pServe, name, tickers, minPrice)
    {
      hide TickResult, CloseAlone;
      r := RunTicks(name, minPrice, tickers, model);
      var closeOrders := RunCloseTimeBacktest(name, minPrice, tickers, model);
      r := r.(orders := r.orders + closeOrders);
    }

    /** The tick replay of one strategy. */
    method RunTicks(name: string, minPrice: real, tickers: seq<string>, model: Model) returns (r: Result)
      requires Valid() && model.Valid()
      requires name in factories && forall i :: 0 <= i < |tickers| ==> tickers[i] in markets
      modifies this`marketOrderCache, this`eventsByMatch, model
      ensures Valid() && model.Valid()
      ensures r == TickResult(model.pServe, name, tickers, minPrice)
    {
      hide Feed, FeedAll, Resolve, Results, Merged;
      r := Result([], 0);
      for n := 0 to |tickers|
        invariant Valid() && model.Valid()
        invariant r == TickResult(model.pServe, name, tickers[..n], minPrice)
      {
        TickNext(model.pServe, name, tickers, n, minPrice);
        var ticker := tickers[n];
        if |markets[ticker]| < 2 {
          continue;
        }
        var home, away := CachedMarketOrder(ticker);
        var inst := Instance(factories[name].register(factories[name].make, ticker, home, away), []);
        var events := CachedEvents(ticker, home, away);
        var end := ReplayInterleaved(factories[name], ticker, inst, events, model);
        var resolved := ResolveOrdersWithSells(end.collected, markets[ticker], minPrice);
        r := Result(r.orders + resolved, r.matchCount + 1);
      }
      assert tickers[..|tickers|] == tickers;
    }

    // -------------------------------------------------------------- close-time replay

    method BuildCloseScript(tickers: seq<string>) returns (script: seq<CloseStep>)
      requires Valid() && forall i :: 0 <= i < |tickers| ==> tickers[i] in markets
      modifies this`marketOrderCache
      ensures Valid() && script == CloseScript(tickers)
    {
      script := [];
      for n := 0 to |tickers|
        invariant Valid() && script == CloseScript(tickers[..n])
      {
        var ticker := tickers[n];
        assert tickers[..n + 1][..n] == tickers[..n];
        if ticker !in closeTs || closeTs[ticker] == 0 || |markets[ticker]| < 2 || ticker !in finalized {
          continue;
        }
        var home, away := CachedMarketOrder(ticker);
        script := script + ([Open(ticker, closeTs[ticker], home, away)] + Quotes(home, Get(tickPrices, home))
                            + Quotes(away, Get(tickPrices, away)) + [Shut(ticker)]);
      }
      assert tickers[..|tickers|] == tickers;
    }

    method PerformClose(strat: Strategy<S>, hooks: CloseHooks<S>, inst: Instance<S>, step: CloseStep, model: Model)
      returns (next: Instance<S>)
      requires model.Valid()
      modifies model
      ensures model.Valid()
      ensures next == CloseApply(model.pServe, strat, hooks, inst, step)
    {
      match step
      case Open(ticker, ts, home, away) =>
        next := inst.(state := strat.register(hooks.registerCloseTime(inst.state, ticker, ts), ticker, home, away));
      case Quote(ev) => next := Consult(strat, "", inst, ev, model);
      case Shut(ticker) => next := inst.(state := hooks.unregister(inst.state, ticker));
    }

    /** All market rows, for resolving the close-time orders in one list. */
    method CollectRows(tickers: seq<string>) returns (rows: seq<MarketRow>)
      ensures rows == AllRows(tickers)
    {
      rows := [];
      for n := 0 to |tickers|
        invariant rows == AllRows(tickers[..n])
      {
        assert tickers[..n + 1][..n] == tickers[..n];
        rows := rows + Get(markets, tickers[n]);
      }
      assert tickers[..|tickers|] == tickers;
    }

    method RunCloseTimeBacktest(name: string, minPrice: real, tickers: seq<string>, model: Model) returns (orders: seq<Order>)
      requires Valid() && model.Valid()
      requires name in factories && forall i :: 0 <= i < |tickers| ==> tickers[i] in markets
      modifies this`marketOrderCache, model
      ensures Valid() && model.Valid()
      ensures orders == CloseAlone(model.pServe, name, tickers, minPrice)
    {
      hide CloseApply, CloseScript, Resolve, Results;
      var strat := factories[name];
      if strat.closeTime.None? {
        return [];
      }
      var hooks := strat.closeTime.value;
      var script := BuildCloseScript(tickers);
      var inst := Instance(strat.make, []);
      for n := 0 to |script|
        invariant Valid() && model.Valid()
        invariant inst == CloseAll(model.pServe, strat, hooks, script[..n])
      {
        CloseNext(model.pServe, strat, hooks, script, n);
        inst := PerformClose(strat, hooks, inst, script[n], model);
      }
      assert script[..|script|] == script;
      var rows := CollectRows(tickers);
      orders := ResolveOrdersWithSells(inst.collected, rows, minPrice);
    }

    predicate CloseNames(names: seq<string>) {
      forall i :: 0 <= i < |names| ==> names[i] in factories && factories[names[i]].closeTime.Some?
    }

    /** Every close-time strategy has taken the first `n` steps of the script. */
    ghost predicate Closed(pServe: real, names: seq<string>, states: seq<Instance<S>>, script: seq<CloseStep>, n: nat)
      requires CloseNames(names) && n <= |script|
    {
      && |states| == |names|
      && forall k :: 0 <= k < |names| ==>
           states[k] == CloseAll(pServe, factories[names[k]], factories[names[k]].closeTime.value, script[..n])
    }

    method BroadcastClose(names: seq<string>, before: seq<Instance<S>>, script: seq<CloseStep>, n: nat, model: Model)
      returns (states: seq<Instance<S>>)
      requires model.Valid() && CloseNames(names) && n < |script| && Closed(model.pServe, names, before, script, n)
      modifies model
      ensures model.Valid() && Closed(model.pServe, names, states, script, n + 1)
    {
      hide CloseApply, CloseAll;
      states := before;
      for i := 0 to |names|
        invariant model.Valid() && |states| == |names|
        invariant forall k :: 0 <= k < i ==>
                    states[k] == CloseAll(model.pServe, factories[names[k]], factories[names[k]].closeTime.value, script[..n + 1])
        invariant forall k :: i <= k < |names| ==> states[k] == before[k]
      {
        var strat := factories[names[i]];
        CloseNext(model.pServe, strat, strat.closeTime.value, script, n);
        var next := PerformClose(strat, strat.closeTime.value, states[i], script[n], model);
        states := states[i := next];
      }
    }

    /** All close-time strategies in one pass: each gets what it gets alone. */
    method RunCloseTimeBacktestBroadcast(names: seq<string>, minPrice: real, tickers: seq<string>, model: Model)
      returns (results: map<string, Result>)
      requires Valid() && model.Valid() && CloseNames(names) && forall i :: 0 <= i < |tickers| ==> tickers[i] in markets
      modifies this`marketOrderCache, model
      ensures Valid() && model.Valid()
      ensures forall k :: 0 <= k < |names| ==>
                names[k] in results && results[names[k]] == BroadcastResult(model.pServe, names[k], tickers, minPrice)
    {
      var script := BuildCloseScript(tickers);
      var states: seq<Instance<S>> := seq(|names|, i requires 0 <= i < |names| => Instance(factories[names[i]].make, []));
      assert Closed(model.pServe, names, states, script, 0);
      hide Closed;
      for n := 0 to |script|
        invariant Valid() && model.Valid() && Closed(model.pServe, names, states, script, n)
      {
        states := BroadcastClose(names, states, script, n, model);
      }
      results := ResolveClosed(model.pServe, names, states, script, minPrice, tickers);
    }

    method ResolveClosed(ghost pServe: real, names: seq<string>, states: seq<Instance<S>>, ghost script: seq<CloseStep>,
                         minPrice: real, tickers: seq<string>)
      returns (results: map<string, Result>)
      requires CloseNames(names) && script == CloseScript(tickers) && Closed(pServe, names, states, script, |script|)
      ensures forall k :: 0 <= k < |names| ==>
                names[k] in results && results[names[k]] == BroadcastResult(pServe, names[k], tickers, minPrice)
    {
      hide CloseAll, Resolve, Results, CloseScript;
      assert script[..|script|] == script;
      var rows := CollectRows(tickers);
      results := map[];
      for i := 0 to |names|
        invariant forall k :: 0 <= k < i ==>
                    names[k] in results && results[names[k]] == BroadcastResult(pServe, names[k], tickers, minPrice)
      {
        var orders := ResolveOrdersWithSells(states[i].collected, rows, minPrice);
        assert orders == CloseAlone(pServe, names[i], tickers, minPrice);
        results := results[names[i] := Result(orders, ClosingCount(tickers))];
      }
    }

    // -------------------------------------------------------------- all strategies at once

    predicate Known(names: seq<string>) { forall i :: 0 <= i < |names| ==> names[i] in factories }

    /** Strategy `k` of a goroutine that is at strategy `i` of event `n` has had its events up
        to that one. */
    ghost predicate Fed(pServe: real, ticker: string, names: seq<string>, w: Worker<S>)
      requires ticker in markets && Known(names)
    {
      && |w.states| == |names| && w.strat <= |names| && w.event <= |Events(ticker)|
      && (w.event == |Events(ticker)| ==> w.strat == 0)
      && forall k :: 0 <= k < |names| ==>
           w.states[k] == FeedAll(pServe, factories[names[k]], ticker, Created(names[k], ticker),
                                  Events(ticker)[..if k < w.strat then w.event + 1 else w.event])
    }

    /** The goroutine has kept every strategy where it would be alone, and the callback at
        hand will end up with the answers it would have alone. */
    ghost predicate OnTrack(pServe: real, ticker: string, names: seq<string>, w: Worker<S>)
      requires ticker in markets && Known(names)
    {
      && Fed(pServe, ticker, names, w)
      && if w.strat < |names| && w.event < |Events(ticker)| then
           var strat, ev := factories[names[w.strat]], Events(ticker)[w.event];
           var s := strat.setReplayTime(w.states[w.strat].state, ev.ts);
           |w.answers| <= strat.limit && Hear(pServe, strat, s, ev, w.answers) == Hear(pServe, strat, s, ev, [])
         else w.answers == []
    }

    ghost function Room(names: seq<string>, w: Worker<S>): int
      requires Known(names)
    {
      if w.strat < |names| then factories[names[w.strat]].limit - |w.answers| else 0
    }

    ghost predicate AllAlone(pServe: real, ticker: string, names: seq<string>, ordersByName: map<string, seq<Order>>, minPrice: real)
      requires ticker in markets && Known(names)
    {
      forall i :: 0 <= i < |names| ==>
        names[i] in ordersByName && ordersByName[names[i]] == Alone(pServe, names[i], ticker, minPrice)
    }

    predicate Cached(ticker: string)
      reads this
    {
      ticker in markets && ticker in marketOrderCache && ticker in eventsByMatch
    }

    /** A match's goroutine before its first event. */
    method Begin(ticker: string, names: seq<string>, ghost pServe: real) returns (w: Worker<S>)
      requires Valid() && Cached(ticker) && Known(names)
      ensures OnTrack(pServe, ticker, names, w)
    {
      var (home, away) := marketOrderCache[ticker];
      var states: seq<Instance<S>> := [];
      for i := 0 to |names|
        invariant |states| == i
        invariant forall k :: 0 <= k < i ==> states[k] == Created(names[k], ticker)
      {
        states := states + [Instance(factories[names[i]].register(factories[names[i]].make, ticker, home, away), [])];
      }
      w := Worker(states, 0, 0, []);
    }

    /** One action of a match's goroutine: a query to the model, which locks, a callback that
        has its answers, or the step to the next event. */
    method Advance(ticker: string, names: seq<string>, w: Worker<S>, model: Model) returns (w': Worker<S>)
      requires Valid() && Cached(ticker) && Known(names) && model.Valid()
      requires OnTrack(model.pServe, ticker, names, w) && w.event < |Events(ticker)|
      modifies model
      ensures model.Valid()
      ensures OnTrack(model.pServe, ticker, names, w')
      ensures || w'.event > w.event
              || (w'.event == w.event && w'.strat > w.strat)
              || (w.strat < |names| && w' == w.(answers := w'.answers) && |w'.answers| > |w.answers|)
    {
      hide Answer, FeedAll, React, Asks;
      var events := eventsByMatch[ticker];
      if w.strat == |names| {
        w' := w.(event := w.event + 1, strat := 0, answers := []);
        assert Fed(model.pServe, ticker, names, w');
        return;
      }
      var strat, ev := factories[names[w.strat]], events[w.event];
      var inst := Timed(strat, w.states[w.strat], ev);
      var q := Asks(strat, inst.state, ev, w.answers);
      AsksWithin(strat, inst.state, ev, w.answers);
      if q.Some? {
        var r := Ask(model, q.value);
        w' := w.(answers := w.answers + [r]);
      } else {
        FeedNext(model.pServe, strat, ticker, Created(names[w.strat], ticker), events, w.event);
        w' := w.(states := w.states[w.strat := React(strat, ticker, inst, ev, w.answers)], strat := w.strat + 1, answers := []);
        assert Fed(model.pServe, ticker, names, w');
      }
    }

    lemma AsksWithin(strat: Strategy<S>, s: S, ev: ReplayEvent, answers: seq<real>)
      ensures Asks(strat, s, ev, answers).Some? ==> |answers| < strat.limit
    {
    }

    /** Run a match's goroutine to its end and resolve every strategy's orders. */
    method RunTickBroadcastForMatch(ticker: string, names: seq<string>, minPrice: real, start: Worker<S>, model: Model)
      returns (ordersByName: map<string, seq<Order>>)
      requires Valid() && Cached(ticker) && Known(names) && model.Valid()
      requires OnTrack(model.pServe, ticker, names, start)
      modifies model
      ensures model.Valid()
      ensures AllAlone(model.pServe, ticker, names, ordersByName, minPrice)
    {
      hide OnTrack, Fed;
      var w := start;
      TrackBounds(model.pServe, ticker, names, w);
      while w.event < |eventsByMatch[ticker]|
        invariant model.Valid() && OnTrack(model.pServe, ticker, names, w)
        invariant w.event <= |Events(ticker)| && w.strat <= |names| && Room(names, w) >= 0
        decreases |Events(ticker)| - w.event, |names| - w.strat, Room(names, w)
      {
        w := Advance(ticker, names, w, model);
        TrackBounds(model.pServe, ticker, names, w);
      }
      TrackBounds(model.pServe, ticker, names, w);
      ordersByName := ResolveAll(model.pServe, ticker, names, w.states, minPrice);
    }

    lemma TrackBounds(pServe: real, ticker: string, names: seq<string>, w: Worker<S>)
      requires ticker in markets && Known(names) && OnTrack(pServe, ticker, names, w)
      ensures w.event <= |Events(ticker)| && w.strat <= |names| && Room(names, w) >= 0
      ensures w.event == |Events(ticker)| ==> Fed(pServe, ticker, names, Worker(w.states, |Events(ticker)|, 0, []))
    {
      hide FeedAll, Hear;
    }

    lemma FedAlone(pServe: real, ticker: string, names: seq<string>, states: seq<Instance<S>>, minPrice: real, i: nat)
      requires ticker in markets && Known(names) && i < |names|
      requires Fed(pServe, ticker, names, Worker(states, |Events(ticker)|, 0, []))
      ensures i < |states|
      ensures Resolve(Results(markets[ticker]), minPrice, states[i].collected).orders == Alone(pServe, names[i], ticker, minPrice)
    {
      hide FeedAll, Resolve, Results;
      assert Events(ticker)[..|Events(ticker)|] == Events(ticker);
    }

    method ResolveAll(ghost pServe: real, ticker: string, names: seq<string>, states: seq<Instance<S>>, minPrice: real)
      returns (ordersByName: map<string, seq<Order>>)
      requires ticker in markets && Known(names)
      requires Fed(pServe, ticker, names, Worker(states, |Events(ticker)|, 0, []))
      ensures AllAlone(pServe, ticker, names, ordersByName, minPrice)
    {
      hide Fed, Alone, Resolve, Results;
      ordersByName := map[];
      for i := 0 to |names|
        invariant AllAlone(pServe, ticker, names[..i], ordersByName, minPrice)
      {
        FedAlone(pServe, ticker, names, states, minPrice, i);
        var resolved := ResolveOrdersWithSells(states[i].collected, markets[ticker], minPrice);
        ordersByName := ordersByName[names[i] := resolved];
      }
      assert names[..|names|] == names;
    }

    /** Fill both caches for the matches, before any parallel work. */
    method Precompute(tickers: seq<string>)
      requires Valid() && forall i :: 0 <= i < |tickers| ==> tickers[i] in markets
      modifies this`marketOrderCache, this`eventsByMatch
      ensures Valid()
      ensures forall i :: 0 <= i < |tickers| ==> tickers[i] in marketOrderCache && tickers[i] in eventsByMatch
    {
      for n := 0 to |tickers|
        invariant Valid()
        invariant forall i :: 0 <= i < n ==> tickers[i] in marketOrderCache && tickers[i] in eventsByMatch
      {
        var home, away := CachedMarketOrder(tickers[n]);
        var _ := CachedEvents(tickers[n], home, away);
      }
    }

    /** The matches that have both markets, in order. */
    method PlayableMatches(tickers: seq<string>) returns (matches: seq<string>)
      ensures matches == OnlyPlayable(tickers)
    {
      matches := [];
      for n := 0 to |tickers|
        invariant matches == OnlyPlayable(tickers[..n])
      {
        assert tickers[..n + 1][..n] == tickers[..n];
        if Playable(tickers[n]) {
          matches := matches + [tickers[n]];
        }
      }
      assert tickers[..|tickers|] == tickers;
    }

    function OnlyPlayable(tickers: seq<string>): (r: seq<string>)
      ensures forall i :: 0 <= i < |r| ==> Playable(r[i])
    {
      if tickers == [] then []
      else
        var rest := OnlyPlayable(tickers[..|tickers| - 1]);
        if Playable(tickers[|tickers| - 1]) then rest + [tickers[|tickers| - 1]] else rest
    }

    lemma {:induction false} TickPlayable(pServe: real, name: string, tickers: seq<string>, minPrice: real)
      requires name in factories
      ensures TickResult(pServe, name, OnlyPlayable(tickers), minPrice) == TickResult(pServe, name, tickers, minPrice)
    {
      if tickers != [] {
        var init, ticker := tickers[..|tickers| - 1], tickers[|tickers| - 1];
        TickPlayable(pServe, name, init, minPrice);
        var rest := OnlyPlayable(init);
        if Playable(ticker) {
          assert (rest + [ticker])[..|rest|] == rest;
        }
      }
    }

    /** Each match's goroutine visits the factories in an order of its own. */
    ghost predicate Visits(visit: string -> seq<string>, names: seq<string>, matches: seq<string>) {
      forall i :: 0 <= i < |matches| ==>
        Known(visit(matches[i])) && forall k :: 0 <= k < |names| ==> names[k] in visit(matches[i])
    }

    ghost predicate AllOnTrack(pServe: real, matches: seq<string>, visit: string -> seq<string>, workers: seq<Worker<S>>)
      requires Visits(visit, [], matches) && forall i :: 0 <= i < |matches| ==> matches[i] in markets
    {
      |workers| == |matches| && forall i :: 0 <= i < |matches| ==> OnTrack(pServe, matches[i], visit(matches[i]), workers[i])
    }

    method BeginAll(matches: seq<string>, visit: string -> seq<string>, ghost pServe: real) returns (workers: seq<Worker<S>>)
      requires Valid() && Visits(visit, [], matches) && forall i :: 0 <= i < |matches| ==> matches[i] in markets && Cached(matches[i])
      ensures AllOnTrack(pServe, matches, visit, workers)
    {
      hide OnTrack;
      workers := [];
      for i := 0 to |matches|
        invariant |workers| == i && forall k :: 0 <= k < i ==> OnTrack(pServe, matches[k], visit(matches[k]), workers[k])
      {
        var w := Begin(matches[i], visit(matches[i]), pServe);
        workers := workers + [w];
      }
    }

    /** The matches' goroutines take turns: `turns` says whose action comes next. */
    method TakeTurns(matches: seq<string>, visit: string -> seq<string>, turns: seq<nat>, start: seq<Worker<S>>, model: Model)
      returns (workers: seq<Worker<S>>)
      requires Valid() && model.Valid() && Visits(visit, [], matches)
      requires forall i :: 0 <= i < |matches| ==> matches[i] in markets && Cached(matches[i])
      requires AllOnTrack(model.pServe, matches, visit, start)
      modifies model
      ensures model.Valid()
      ensures AllOnTrack(model.pServe, matches, visit, workers)
    {
      hide OnTrack;
      workers := start;
      for n := 0 to |turns|
        invariant model.Valid() && AllOnTrack(model.pServe, matches, visit, workers)
      {
        var i := turns[n];
        if i < |matches| && workers[i].event < |eventsByMatch[matches[i]]| {
          var w := Advance(matches[i], visit(matches[i]), workers[i], model);
          workers := workers[i := w];
        }
      }
    }

    /** Broadcast every match at once, for as many turns as one likes, then wait for all. */
    method BroadcastMatches(matches: seq<string>, visit: string -> seq<string>, minPrice: real, turns: seq<nat>, model: Model)
      returns (results: seq<map<string, seq<Order>>>)
      requires Valid() && model.Valid() && Visits(visit, [], matches)
      requires forall i :: 0 <= i < |matches| ==> matches[i] in markets && Cached(matches[i])
      modifies model
      ensures model.Valid()
      ensures |results| == |matches|
      ensures forall i :: 0 <= i < |matches| ==> AllAlone(model.pServe, matches[i], visit(matches[i]), results[i], minPrice)
    {
      hide OnTrack, AllAlone;
      var workers := BeginAll(matches, visit, model.pServe);
      workers := TakeTurns(matches, visit, turns, workers, model);
      results := [];
      for i := 0 to |matches|
        invariant model.Valid() && |results| == i
        invariant forall k :: 0 <= k < i ==> AllAlone(model.pServe, matches[k], visit(matches[k]), results[k], minPrice)
      {
        var ordersByName := RunTickBroadcastForMatch(matches[i], visit(matches[i]), minPrice, workers[i], model);
        results := results + [ordersByName];
      }
    }

    /** Append each match's results to the strategies' totals. */
    method Merge(ghost pServe: real, matches: seq<string>, names: seq<string>, visit: string -> seq<string>,
                 results: seq<map<string, seq<Order>>>, minPrice: real)
      returns (merged: map<string, Result>)
      requires Known(names) && Visits(visit, names, matches)
      requires |results| == |matches| && forall i :: 0 <= i < |matches| ==> matches[i] in markets && Playable(matches[i])
      requires forall i :: 0 <= i < |matches| ==> AllAlone(pServe, matches[i], visit(matches[i]), results[i], minPrice)
      ensures forall k :: 0 <= k < |names| ==> names[k] in merged && merged[names[k]] == TickResult(pServe, names[k], matches, minPrice)
    {
      hide TickResult, AllAlone;
      merged := map[];
      for k := 0 to |names|
        invariant forall j :: 0 <= j < k ==> names[j] in merged && merged[names[j]] == TickResult(pServe, names[j], matches, minPrice)
      {
        var total := MergeOne(pServe, matches, names, k, visit, results, minPrice);
        merged := merged[names[k] := total];
      }
    }

    method MergeOne(ghost pServe: real, matches: seq<string>, names: seq<string>, k: nat, ghost visit: string -> seq<string>,
                    results: seq<map<string, seq<Order>>>, minPrice: real)
      returns (total: Result)
      requires Known(names) && k < |names| && Visits(visit, names, matches)
      requires |results| == |matches| && forall i :: 0 <= i < |matches| ==> matches[i] in markets && Playable(matches[i])
      requires forall i :: 0 <= i < |matches| ==> AllAlone(pServe, matches[i], visit(matches[i]), results[i], minPrice)
      ensures total == TickResult(pServe, names[k], matches, minPrice)
    {
      hide Alone;
      total := Result([], 0);
      for n := 0 to |matches|
        invariant total == TickResult(pServe, names[k], matches[..n], minPrice)
      {
        TickNext(pServe, names[k], matches, n, minPrice);
        assert names[k] in visit(matches[n]);
        assert names[k] in results[n] && results[n][names[k]] == Alone(pServe, names[k], matches[n], minPrice);
        total := Result(total.orders + results[n][names[k]], total.matchCount + 1);
      }
      assert matches[..|matches|] == matches;
    }

    /** The strategies without the close-time interface, over all matches, whose goroutines
        take turns as `turns` says: each gets what it gets alone. */
    method RunTickBroadcast(names: seq<string>, minPrice: real, tickers: seq<string>, visit: string -> seq<string>,
                            turns: seq<nat>, model: Model)
      returns (results: map<string, Result>)
      requires Valid() && model.Valid() && Known(names) && Visits(visit, names, tickers)
      requires forall i :: 0 <= i < |tickers| ==> tickers[i] in markets
      modifies this`marketOrderCache, this`eventsByMatch, model
      ensures Valid() && model.Valid()
      ensures forall k :: 0 <= k < |names| ==>
                names[k] in results && results[names[k]] == TickResult(model.pServe, names[k], tickers, minPrice)
    {
      hide AllAlone, TickResult;
      var matches := PlayableMatches(tickers);
      PlayableVisits(visit, names, tickers);
      Precompute(matches);
      var perMatch := BroadcastMatches(matches, visit, minPrice, turns, model);
      results := Merge(model.pServe, matches, names, visit, perMatch, minPrice);
      forall k | 0 <= k < |names|
        ensures TickResult(model.pServe, names[k], matches, minPrice) == TickResult(model.pServe, names[k], tickers, minPrice)
      {
        TickPlayable(model.pServe, names[k], tickers, minPrice);
      }
    }

    lemma {:induction false} PlayableVisits(visit: string -> seq<string>, names: seq<string>, tickers: seq<string>)
      requires Visits(visit, names, tickers)
      ensures Visits(visit, names, OnlyPlayable(tickers)) && Visits(visit, [], OnlyPlayable(tickers))
    {
      if tickers != [] {
        var init, ticker := tickers[..|tickers| - 1], tickers[|tickers| - 1];
        assert tickers == init + [ticker];
        PlayableVisits(visit, names, init);
        hide Known, Playable;
      }
    }

    predicate TickNames(names: seq<string>) {
      forall i :: 0 <= i < |names| ==> names[i] in factories && factories[names[i]].closeTime.None?
    }

    /** Probe every factory for the close-time interface. */
    method SplitNames(names: seq<string>) returns (tickNames: seq<string>, closeNames: seq<string>)
      requires Known(names)
      ensures TickNames(tickNames) && CloseNames(closeNames)
      ensures forall k :: 0 <= k < |names| ==> names[k] in tickNames || names[k] in closeNames
      ensures forall k :: 0 <= k < |tickNames| ==> tickNames[k] in names
    {
      tickNames, closeNames := [], [];
      for n := 0 to |names|
        invariant TickNames(tickNames) && CloseNames(closeNames)
        invariant forall k :: 0 <= k < n ==> names[k] in tickNames || names[k] in closeNames
        invariant forall k :: 0 <= k < |tickNames| ==> tickNames[k] in names
      {
        if factories[names[n]].closeTime.Some? {
          closeNames := closeNames + [names[n]];
        } else {
          tickNames := tickNames + [names[n]];
        }
      }
    }

    /** All strategies over all matches: the tick broadcast for those without the close-time
        interface, the close-time broadcast for the others. */
    method RunAll(names: seq<string>, minPrice: real, tickers: seq<string>, visit: string -> seq<string>, turns: seq<nat>, model: Model)
      returns (results: map<string, Result>)
      requires Valid() && model.Valid() && Known(names) && Visits(visit, names, tickers)
      requires forall i :: 0 <= i < |tickers| ==> tickers[i] in markets
      modifies this`marketOrderCache, this`eventsByMatch, model
      ensures Valid() && model.Valid()
      ensures forall k :: 0 <= k < |names| ==>
                names[k] in results && results[names[k]] == BroadcastResult(model.pServe, names[k], tickers, minPrice)
    {
      hide TickResult, CloseAlone;
      var tickNames, closeNames := SplitNames(names);
      assert Visits(visit, tickNames, tickers);
      var ticks := RunTickBroadcast(tickNames, minPrice, tickers, visit, turns, model);
      var closes := RunCloseTimeBacktestBroadcast(closeNames, minPrice, tickers, model);
      results := map[];
      for k := 0 to |names|
        invariant Valid() && model.Valid()
        invariant forall j :: 0 <= j < k ==>
                    names[j] in results && results[names[j]] == BroadcastResult(model.pServe, names[j], tickers, minPrice)
      {
        var name := names[k];
        var r: Result;
        if factories[name].closeTime.Some? {
          assert name in closeNames;
          r := closes[name];
        } else {
          assert name in tickNames;
          r := ticks[name];
        }
        results := results[name := r];
      }
    }

    /** Side by side: the broadcast, over one model that all strategies of all matches share
        and whatever it was asked before, and the single runs, each with a fresh model.  They
        are equal exactly for the strategies that `Agreeing` describes. */
    method BroadcastAgrees(names: seq<string>, minPrice: real, tickers: seq<string>, visit: string -> seq<string>,
                           turns: seq<nat>, shared: Model)
      returns (all: map<string, Result>, single: seq<Result>)
      requires Valid() && shared.Valid() && Known(names) && Visits(visit, names, tickers)
      requires forall i :: 0 <= i < |tickers| ==> tickers[i] in markets
      modifies this`marketOrderCache, this`eventsByMatch, shared
      ensures Valid() && shared.Valid() && |single| == |names|
      ensures forall k :: 0 <= k < |names| ==>
                names[k] in all && (all[names[k]] == single[k] <==> Agreeing(shared.pServe, names[k], tickers, minPrice))
    {
      hide SingleResult, BroadcastResult, Agreeing;
      all := RunAll(names, minPrice, tickers, visit, turns, shared);
      single := [];
      for k := 0 to |names|
        invariant Valid() && shared.Valid() && |single| == k
        invariant forall j :: 0 <= j < k ==>
                    (all[names[j]] == single[j] <==> Agreeing(shared.pServe, names[j], tickers, minPrice))
      {
        var ownModel := new Model(shared.pServe);
        var r := RunStrategy(names[k], minPrice, tickers, ownModel);
        AgreeExactly(shared.pServe, names[k], tickers, minPrice);
        single := single + [r];
      }
    }
  }
}
