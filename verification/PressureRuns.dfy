/** Runs of calls on the book-pressure strategy, with an emitter that may refuse any order.
    Market by market accepted orders are round trips inside the band of its take-profit and
    stop loss, exactly as long as no position gets lost; buys come a cooldown after sells as
    long as no cooldown gets lost; and the resolver's rows add up to the exact cash flow.
 */
module PressureRuns {
  import opened Wrappers
  import opened Kelly
  import opened BookPressure
  import opened Registry
  import opened RoundTrips
  import Resolver
  import ResolverFifo
  import ResolverCash

  /** The calls on a strategy.  A price comes with the emitter's answer to whatever it leads
      to, and with the event under which the registry lists the market. */
  datatype Call =
    | Register(event: string, tickers: seq<string>)
    | Unregister(event: string)
    | SetBooks(ticker: string, series: seq<BookTick>)
    | Point(event: string, isMatchPoint: bool, isSetPoint: bool)
    | Price(market: string, price: real, ts: int, accept: bool, found: string)

  datatype World = World(state: State, books: Books, markets: map<string, seq<string>>)

  const NewWorld := World(Fresh, map[], map[])

  function EventOf(call: Call): Event
    requires call.Price?
  {
    Event.Price(call.market, call.price, call.ts, call.found, call.accept)
  }

  function OutcomeOf(cfg: Config, sizing: Sizing, w: World, call: Call): Outcome
    requires call.Price?
  {
    Step(cfg, sizing, w.books, w.state, EventOf(call))
  }

  function After(cfg: Config, sizing: Sizing, w: World, call: Call): World {
    match call
    case Register(event, tickers) => w.(markets := w.markets[event := tickers])
    case Unregister(event) =>
      var mkts := ToSet(Listed(w.markets, event));
      World(State(w.state.prices - mkts, w.state.positions - mkts, w.state.cooldowns - mkts, w.state.scoreState - {event}),
            w.books - mkts, w.markets - {event})
    case SetBooks(m, series) => w.(books := w.books[m := series])
    case Point(event, mp, sp) => w.(state := Step(cfg, sizing, w.books, w.state, Event.Point(event, mp, sp)).state)
    case Price(_, _, _, _, _) => w.(state := OutcomeOf(cfg, sizing, w, call).state)
  }

  /** The order a call leads to and the emitter takes. */
  function Accepted(cfg: Config, sizing: Sizing, w: World, call: Call): Option<Order> {
    if call.Price? && call.accept then OutcomeOf(cfg, sizing, w, call).offered else None
  }

  function Log(trades: seq<Order>, o: Option<Order>): seq<Order> {
    if o.Some? then trades + [o.value] else trades
  }

  datatype Run = Run(world: World, trades: seq<Order>)

  function Play(cfg: Config, sizing: Sizing, calls: seq<Call>): Run {
    if calls == [] then Run(NewWorld, [])
    else
      var before, call := Play(cfg, sizing, calls[..|calls| - 1]), calls[|calls| - 1];
      Run(After(cfg, sizing, before.world, call), Log(before.trades, Accepted(cfg, sizing, before.world, call)))
  }

  lemma PlayNext(cfg: Config, sizing: Sizing, calls: seq<Call>, call: Call)
    ensures var before := Play(cfg, sizing, calls);
            Play(cfg, sizing, calls + [call]) ==
              Run(After(cfg, sizing, before.world, call), Log(before.trades, Accepted(cfg, sizing, before.world, call)))
  {
    assert (calls + [call])[..|calls|] == calls;
  }

  function LastTrade(trades: seq<Order>, m: string): Option<Order> {
    if trades == [] then None
    else if trades[|trades| - 1].market == m then Some(trades[|trades| - 1])
    else LastTrade(trades[..|trades| - 1], m)
  }

  // ---------------------------------------------------------------- what a trade promises

  function TakeProfit(cfg: Config): real { cfg.takeProfitCents as real / 100.0 }

  function StopLoss(cfg: Config): real { cfg.stopLossCents as real / 100.0 }

  /** A sell closes its buy: the same contracts, and a result per contract between the stop
      loss and the take-profit, whatever the reason, exactly when there is anything between. */
  predicate Closes(cfg: Config, buy: Order, sell: Order) {
    && !buy.isSell && sell.market == buy.market && sell.size == buy.size && sell.convProb == buy.price
    && (-StopLoss(cfg) <= sell.price - buy.price <= TakeProfit(cfg) <==> -StopLoss(cfg) <= TakeProfit(cfg))
  }

  /** A buy has the pressure and the price it needs. */
  predicate Opens(cfg: Config, buy: Order) {
    cfg.minEntryPrice <= buy.price <= cfg.maxEntryPrice && buy.pressure >= cfg.minPressure
  }

  predicate Continues(cfg: Config, trades: seq<Order>, o: Order) {
    var last := LastTrade(trades, o.market);
    if o.isSell then last.Some? && Closes(cfg, last.value, o)
    else (last.None? || last.value.isSell) && Opens(cfg, o)
  }

  /** On market `m` accepted orders alternate buy and sell. */
  predicate TripsOn(cfg: Config, trades: seq<Order>, m: string) {
    trades == [] ||
    var init, o := trades[..|trades| - 1], trades[|trades| - 1];
    TripsOn(cfg, init, m) && (o.market == m ==> Continues(cfg, init, o))
  }

  /** The position on market `m` is the last trade, if that is a buy. */
  predicate Tracks(st: State, trades: seq<Order>, m: string) {
    var last := LastTrade(trades, m);
    if m in st.positions
    then last.Some? && !last.value.isSell && last.value.market == m && last.value.size >= 1.0
         && st.positions[m] == Position(last.value.price, last.value.ts, last.value.size)
    else last.None? || last.value.isSell
  }

  predicate InStep(cfg: Config, r: Run, m: string) {
    TripsOn(cfg, r.trades, m) && Tracks(r.world.state, r.trades, m)
  }

  /** An exit that finds its market unregistered clears the position without a sell. */
  predicate Drops(cfg: Config, books: Books, st: State, e: Event, m: string) {
    && e.Price? && e.market == m && e.event == "" && m in st.positions
    && ExitOf(cfg, st.positions[m], PressureFor(cfg, books, e), e.price, e.ts).Leave?
  }

  /** So does unregistering the market's event. */
  predicate Loses(cfg: Config, w: World, call: Call, m: string) {
    || (call.Price? && Drops(cfg, w.books, w.state, EventOf(call), m))
    || (call.Unregister? && m in Listed(w.markets, call.event) && m in w.state.positions)
  }

  predicate NeverLost(cfg: Config, sizing: Sizing, calls: seq<Call>, m: string) {
    calls == [] ||
    var init := calls[..|calls| - 1];
    NeverLost(cfg, sizing, init, m) && !Loses(cfg, Play(cfg, sizing, init).world, calls[|calls| - 1], m)
  }

  // ---------------------------------------------------------------- one event

  lemma LastTradeAppend(trades: seq<Order>, o: Order, m: string)
    ensures LastTrade(trades + [o], m) == if o.market == m then Some(o) else LastTrade(trades, m)
  {
    assert (trades + [o])[..|trades|] == trades;
  }

  lemma TripsAppend(cfg: Config, trades: seq<Order>, o: Order, m: string)
    ensures TripsOn(cfg, trades + [o], m) <==> TripsOn(cfg, trades, m) && (o.market == m ==> Continues(cfg, trades, o))
  {
    assert (trades + [o])[..|trades|] == trades;
  }

  lemma OfferedShape(cfg: Config, sizing: Sizing, books: Books, st: State, e: Event)
    ensures var o := Step(cfg, sizing, books, st, e).offered;
            o.Some? ==> e.Price? && o.value.market == e.market && o.value.size >= 1.0 && o.value.ts == e.ts
  {
    hide PressureFor, KellySize;
  }

  /** While its event is at a set or match point a market offers no buy; its exits go on. */
  lemma BlockedSellsOnly(cfg: Config, sizing: Sizing, books: Books, st: State, e: Event)
    requires e.Price? && Blocked(st.scoreState, e.event)
    ensures var o := Step(cfg, sizing, books, st, e).offered;
            && (o.Some? ==> o.value.isSell && e.market in st.positions)
            && Step(cfg, sizing, books, st, e).state.positions.Keys <= st.positions.Keys
            && (e.market in st.positions ==> o == Step(cfg, sizing, books, st.(scoreState := map[]), e).offered)
  {
    hide PressureFor, ExitOf;
  }

  lemma ExitCloses(cfg: Config, pressure: Option<real>, pos: Position, buy: Order, e: Event)
    requires e.Price? && pos == Position(buy.price, buy.ts, buy.size) && buy.size >= 1.0 && !buy.isSell && buy.market == e.market
    requires ExitOf(cfg, pos, pressure, e.price, e.ts).Leave?
    ensures var sell := SellOrder(pos, e, ExitOf(cfg, pos, pressure, e.price, e.ts)); sell.isSell && Closes(cfg, buy, sell)
  {
  }

  lemma EntryOpens(cfg: Config, sizing: Sizing, pressure: Option<real>, st: State, trades: seq<Order>, e: Event)
    requires e.Price? && Tracks(st, trades, e.market) && e.market !in st.positions
    requires Entry(cfg, sizing, pressure, st, e).Some?
    ensures var o := Entry(cfg, sizing, pressure, st, e).value;
            !o.isSell && o.market == e.market && o.price == e.price && o.ts == e.ts && Continues(cfg, trades, o)
  {
    hide KellySize;
  }

  lemma OfferContinues(cfg: Config, sizing: Sizing, books: Books, st: State, trades: seq<Order>, e: Event)
    requires e.Price? && Tracks(st, trades, e.market) && Step(cfg, sizing, books, st, e).offered.Some?
    ensures var o := Step(cfg, sizing, books, st, e).offered.value;
            && Continues(cfg, trades, o) && (o.isSell <==> e.market in st.positions)
            && (!o.isSell ==> o.price == e.price)
  {
    hide PressureFor, Closes, Entry, ExitOf, SellOrder;
    var pressure, st' := PressureFor(cfg, books, e), st.(prices := st.prices[e.market := e.price]);
    if e.market in st.positions {
      ExitCloses(cfg, pressure, st.positions[e.market], LastTrade(trades, e.market).value, e);
      OfferedShape(cfg, sizing, books, st, e);
    } else {
      EntryOpens(cfg, sizing, pressure, st', trades, e);
    }
  }

  function LogIf(trades: seq<Order>, out: Outcome, e: Event): seq<Order>
    requires e.Price?
  {
    Log(trades, if e.accept then out.offered else None)
  }

  lemma StepElsewhere(cfg: Config, sizing: Sizing, books: Books, st: State, trades: seq<Order>, e: Event, m: string)
    requires e.Price? && e.market != m
    ensures var out := Step(cfg, sizing, books, st, e);
            var trades' := LogIf(trades, out, e);
            && LastTrade(trades', m) == LastTrade(trades, m)
            && (TripsOn(cfg, trades, m) <==> TripsOn(cfg, trades', m))
            && (Tracks(st, trades, m) <==> Tracks(out.state, trades', m))
            && (m in out.state.cooldowns <==> m in st.cooldowns)
            && (m in st.cooldowns ==> out.state.cooldowns[m] == st.cooldowns[m])
            && (m in out.state.positions <==> m in st.positions)
  {
    OfferedShape(cfg, sizing, books, st, e);
    var offered := Step(cfg, sizing, books, st, e).offered;
    if offered.Some? {
      LastTradeAppend(trades, offered.value, m);
      TripsAppend(cfg, trades, offered.value, m);
    }
    hide Entry, ExitOf, SellOrder, PressureFor, TripsOn, LastTrade;
  }

  /** Positions after a price: left on an exit that is taken or finds nothing, entered on a
      buy that is taken. */
  lemma StepPositions(cfg: Config, sizing: Sizing, books: Books, st: State, e: Event)
    requires e.Price?
    ensures var out, m := Step(cfg, sizing, books, st, e), e.market;
            if m in st.positions then
              var leaves := ExitOf(cfg, st.positions[m], PressureFor(cfg, books, e), e.price, e.ts).Leave?;
              && (out.offered.Some? <==> leaves && e.event != "")
              && out.state.positions == if leaves && (e.event == "" || e.accept) then st.positions - {m} else st.positions
            else
              out.state.positions ==
                if out.offered.Some? && e.accept then st.positions[m := Position(e.price, e.ts, out.offered.value.size)]
                else st.positions
  {
    hide Entry, ExitOf, SellOrder, PressureFor;
  }

  lemma StepHere(cfg: Config, sizing: Sizing, books: Books, st: State, trades: seq<Order>, e: Event)
    requires e.Price? && TripsOn(cfg, trades, e.market) && Tracks(st, trades, e.market)
    ensures var out := Step(cfg, sizing, books, st, e);
            var trades' := LogIf(trades, out, e);
            && TripsOn(cfg, trades', e.market)
            && (Tracks(out.state, trades', e.market) <==> !Drops(cfg, books, st, e, e.market))
  {
    hide Step, ExitOf, PressureFor, TripsOn, LastTrade, Continues;
    var offered := Step(cfg, sizing, books, st, e).offered;
    OfferedShape(cfg, sizing, books, st, e);
    StepPositions(cfg, sizing, books, st, e);
    if offered.Some? {
      OfferContinues(cfg, sizing, books, st, trades, e);
      LastTradeAppend(trades, offered.value, e.market);
      TripsAppend(cfg, trades, offered.value, e.market);
    }
  }

  // ---------------------------------------------------------------- every run

  lemma CallElsewhere(cfg: Config, sizing: Sizing, r: Run, call: Call, m: string)
    requires !call.Price? && InStep(cfg, r, m)
    ensures var r' := Run(After(cfg, sizing, r.world, call), Log(r.trades, Accepted(cfg, sizing, r.world, call)));
            && r'.trades == r.trades
            && (InStep(cfg, r', m) <==> !Loses(cfg, r.world, call, m))
  {
    hide TripsOn, LastTrade;
  }

  lemma RunStep(cfg: Config, sizing: Sizing, calls: seq<Call>, call: Call, m: string)
    requires InStep(cfg, Play(cfg, sizing, calls), m)
    ensures InStep(cfg, Play(cfg, sizing, calls + [call]), m) <==> !Loses(cfg, Play(cfg, sizing, calls).world, call, m)
  {
    hide Play, Step, Drops, LastTrade, TripsOn, Tracks;
    var r := Play(cfg, sizing, calls);
    PlayNext(cfg, sizing, calls, call);
    if !call.Price? {
      CallElsewhere(cfg, sizing, r, call, m);
    } else {
      if call.market == m {
        StepHere(cfg, sizing, r.world.books, r.world.state, r.trades, EventOf(call));
      } else {
        StepElsewhere(cfg, sizing, r.world.books, r.world.state, r.trades, EventOf(call), m);
        DropsHere(cfg, r.world.books, r.world.state, EventOf(call), m);
      }
    }
  }

  lemma DropsHere(cfg: Config, books: Books, st: State, e: Event, m: string)
    ensures Drops(cfg, books, st, e, m) ==> e.Price? && e.market == m
  {
  }

  lemma NothingPlayed(cfg: Config, sizing: Sizing, m: string)
    ensures InStep(cfg, Play(cfg, sizing, []), m)
  {
  }

  /** Every run over any books: on a market that never loses a position, accepted orders are
      round trips and the position is the open one. */
  lemma {:induction false} PressureRoundTrips(cfg: Config, sizing: Sizing, calls: seq<Call>, m: string)
    requires NeverLost(cfg, sizing, calls, m)
    ensures InStep(cfg, Play(cfg, sizing, calls), m)
  {
    hide InStep, Loses, Play;
    if calls == [] {
      NothingPlayed(cfg, sizing, m);
    } else {
      var init, call := calls[..|calls| - 1], calls[|calls| - 1];
      assert calls == init + [call];
      PressureRoundTrips(cfg, sizing, init, m);
      RunStep(cfg, sizing, init, call, m);
    }
  }

  /** At every moment of the run the position follows the accepted orders. */
  predicate AlwaysInStep(cfg: Config, sizing: Sizing, calls: seq<Call>, m: string) {
    InStep(cfg, Play(cfg, sizing, calls), m) && (calls != [] ==> AlwaysInStep(cfg, sizing, calls[..|calls| - 1], m))
  }

  /** And throughout a run only then. */
  lemma {:induction false} TracksExactly(cfg: Config, sizing: Sizing, calls: seq<Call>, m: string)
    ensures NeverLost(cfg, sizing, calls, m) <==> AlwaysInStep(cfg, sizing, calls, m)
  {
    hide InStep, Loses, Play;
    if calls == [] {
      NothingPlayed(cfg, sizing, m);
    } else {
      var init, call := calls[..|calls| - 1], calls[|calls| - 1];
      assert calls == init + [call];
      TracksExactly(cfg, sizing, init, m);
      if InStep(cfg, Play(cfg, sizing, init), m) {
        RunStep(cfg, sizing, init, call, m);
      }
    }
  }

  // ---------------------------------------------------------------- cooldowns

  /** While market `m` has no position its cooldown runs from its last sell. */
  predicate Cooling(st: State, trades: seq<Order>, m: string) {
    var last := LastTrade(trades, m);
    m !in st.positions ==>
      if last.None? then m !in st.cooldowns
      else last.value.isSell ==> m in st.cooldowns && st.cooldowns[m] == last.value.ts
  }

  /** Each buy comes a cooldown after the sell before it, unless that was stamped at time zero
      or earlier, which the source takes for no sell. */
  predicate Spaced(cfg: Config, trades: seq<Order>, m: string) {
    trades == [] ||
    var init, o := trades[..|trades| - 1], trades[|trades| - 1];
    var last := LastTrade(init, m);
    && Spaced(cfg, init, m)
    && (o.market == m && !o.isSell && last.Some? && last.value.ts > 0 ==> o.ts - last.value.ts >= cfg.cooldownSeconds * 1000)
  }

  /** Unregistering the market's event between two positions forgets its cooldown. */
  predicate Forgets(w: World, call: Call, m: string) {
    call.Unregister? && m in Listed(w.markets, call.event) && m !in w.state.positions && m in w.state.cooldowns
  }

  predicate NeverForgotten(cfg: Config, sizing: Sizing, calls: seq<Call>, m: string) {
    calls == [] ||
    var init := calls[..|calls| - 1];
    NeverForgotten(cfg, sizing, init, m) && !Forgets(Play(cfg, sizing, init).world, calls[|calls| - 1], m)
  }

  lemma SpacedAppend(cfg: Config, trades: seq<Order>, o: Order, m: string)
    ensures Spaced(cfg, trades + [o], m) <==>
            && Spaced(cfg, trades, m)
            && (o.market == m && !o.isSell && LastTrade(trades, m).Some? && LastTrade(trades, m).value.ts > 0 ==>
                  o.ts - LastTrade(trades, m).value.ts >= cfg.cooldownSeconds * 1000)
  {
    assert (trades + [o])[..|trades|] == trades;
  }

  lemma EntryCooled(cfg: Config, sizing: Sizing, pressure: Option<real>, st: State, e: Event)
    requires e.Price?
    ensures var o := Entry(cfg, sizing, pressure, st, e);
            o.Some? ==> !CoolingDown(cfg, st.cooldowns, e.market, e.ts) && o.value.ts == e.ts
  {
    hide KellySize;
  }

  lemma CooledHere(cfg: Config, sizing: Sizing, books: Books, st: State, trades: seq<Order>, e: Event)
    requires e.Price? && Tracks(st, trades, e.market) && Cooling(st, trades, e.market) && Spaced(cfg, trades, e.market)
    requires !Drops(cfg, books, st, e, e.market)
    ensures var out := Step(cfg, sizing, books, st, e);
            var trades' := LogIf(trades, out, e);
            Cooling(out.state, trades', e.market) && Spaced(cfg, trades', e.market)
  {
    var offered := Step(cfg, sizing, books, st, e).offered;
    var pressure, st' := PressureFor(cfg, books, e), st.(prices := st.prices[e.market := e.price]);
    OfferedShape(cfg, sizing, books, st, e);
    EntryCooled(cfg, sizing, pressure, st', e);
    if offered.Some? {
      OfferContinues(cfg, sizing, books, st, trades, e);
      LastTradeAppend(trades, offered.value, e.market);
      SpacedAppend(cfg, trades, offered.value, e.market);
    }
    hide Entry, ExitOf, SellOrder, PressureFor, LastTrade, Spaced, Continues;
  }

  lemma CooledElsewhere(cfg: Config, sizing: Sizing, books: Books, st: State, trades: seq<Order>, e: Event, m: string)
    requires e.Price? && e.market != m && Cooling(st, trades, m) && Spaced(cfg, trades, m)
    ensures var out := Step(cfg, sizing, books, st, e);
            var trades' := LogIf(trades, out, e);
            Cooling(out.state, trades', m) && Spaced(cfg, trades', m)
  {
    var offered := Step(cfg, sizing, books, st, e).offered;
    StepElsewhere(cfg, sizing, books, st, trades, e, m);
    OfferedShape(cfg, sizing, books, st, e);
    if offered.Some? {
      SpacedAppend(cfg, trades, offered.value, m);
    }
    hide Step, LastTrade, Spaced, TripsOn, Tracks;
  }

  predicate Cooled(cfg: Config, r: Run, m: string) {
    Cooling(r.world.state, r.trades, m) && Spaced(cfg, r.trades, m)
  }

  lemma CooledStep(cfg: Config, sizing: Sizing, calls: seq<Call>, call: Call, m: string)
    requires InStep(cfg, Play(cfg, sizing, calls), m) && Cooled(cfg, Play(cfg, sizing, calls), m)
    requires !Loses(cfg, Play(cfg, sizing, calls).world, call, m)
    ensures Cooled(cfg, Play(cfg, sizing, calls + [call]), m) <==> !Forgets(Play(cfg, sizing, calls).world, call, m)
  {
    hide Play, Step, Drops, LastTrade, TripsOn, Spaced;
    var r := Play(cfg, sizing, calls);
    PlayNext(cfg, sizing, calls, call);
    if call.Price? {
      hide Cooling, Tracks;
      if call.market == m {
        CooledHere(cfg, sizing, r.world.books, r.world.state, r.trades, EventOf(call));
      } else {
        CooledElsewhere(cfg, sizing, r.world.books, r.world.state, r.trades, EventOf(call), m);
      }
    } else if call.Point? {
      PointKeeps(cfg, sizing, r.world.books, r.world.state, call.event, call.isMatchPoint, call.isSetPoint);
    }
  }

  lemma PointKeeps(cfg: Config, sizing: Sizing, books: Books, st: State, event: string, mp: bool, sp: bool)
    ensures var st' := Step(cfg, sizing, books, st, Event.Point(event, mp, sp)).state;
            st'.positions == st.positions && st'.cooldowns == st.cooldowns
  {
  }

  predicate AlwaysCooled(cfg: Config, sizing: Sizing, calls: seq<Call>, m: string) {
    Cooled(cfg, Play(cfg, sizing, calls), m) && (calls != [] ==> AlwaysCooled(cfg, sizing, calls[..|calls| - 1], m))
  }

  /** On a market that never loses a position, the cooldown runs from the last sell and buys
      respect it throughout a run exactly when no cooldown is forgotten. */
  lemma {:induction false} CooldownsExactly(cfg: Config, sizing: Sizing, calls: seq<Call>, m: string)
    requires NeverLost(cfg, sizing, calls, m)
    ensures NeverForgotten(cfg, sizing, calls, m) <==> AlwaysCooled(cfg, sizing, calls, m)
  {
    hide InStep, Loses, Play, Cooled, Forgets;
    if calls == [] {
      NothingCooled(cfg, sizing, m);
    } else {
      var init, call := calls[..|calls| - 1], calls[|calls| - 1];
      assert calls == init + [call];
      CooldownsExactly(cfg, sizing, init, m);
      PressureRoundTrips(cfg, sizing, init, m);
      if Cooled(cfg, Play(cfg, sizing, init), m) {
        CooledStep(cfg, sizing, init, call, m);
      }
    }
  }

  lemma NothingCooled(cfg: Config, sizing: Sizing, m: string)
    ensures Cooled(cfg, Play(cfg, sizing, []), m)
  {
  }

  // ---------------------------------------------------------------- through the resolver

  /** The raw order a trade is collected as. */
  function Raw(o: Order): Resolver.RawOrder {
    Resolver.RawOrder(o.ts, o.event, o.market, if o.isSell then "sell" else "buy", if o.isSell then "close" else "open",
                      o.reason, 0, o.price, o.edgeCents, o.size)
  }

  function RawTrades(trades: seq<Order>): (raw: seq<Resolver.RawOrder>)
    ensures |raw| == |trades|
  {
    seq(|trades|, i requires 0 <= i < |trades| => Raw(trades[i]))
  }

  lemma RawSell(o: Order)
    ensures Resolver.IsSell(Raw(o)) <==> o.isSell
  {
  }

  lemma {:induction false} TradesAlternate(cfg: Config, trades: seq<Order>, m: string)
    requires TripsOn(cfg, trades, m)
    ensures Alternates(RawTrades(trades), m)
    ensures var last := LastTrade(trades, m);
            LastOn(RawTrades(trades), m) == if last.None? then None else Some(Raw(last.value))
  {
    if trades != [] {
      var init, o := trades[..|trades| - 1], trades[|trades| - 1];
      assert RawTrades(trades)[..|trades| - 1] == RawTrades(init);
      TradesAlternate(cfg, init, m);
      RawSell(o);
      if LastTrade(init, m).Some? {
        RawSell(LastTrade(init, m).value);
      }
      hide RawTrades, Opens, Resolver.IsSell;
    }
  }

  lemma {:induction false} TradeSizes(cfg: Config, sizing: Sizing, calls: seq<Call>)
    ensures ResolverFifo.PositiveOrders(RawTrades(Play(cfg, sizing, calls).trades))
  {
    if calls != [] {
      var init, call := calls[..|calls| - 1], calls[|calls| - 1];
      TradeSizes(cfg, sizing, init);
      var before := Play(cfg, sizing, init);
      var trades, all := before.trades, Play(cfg, sizing, calls).trades;
      if call.Price? {
        OfferedShape(cfg, sizing, before.world.books, before.world.state, EventOf(call));
      }
      hide Step, After;
      forall i | 0 <= i < |all|
        ensures RawTrades(all)[i].size > 0.0
      {
        assert i < |trades| ==> RawTrades(trades)[i] == RawTrades(all)[i];
      }
    }
  }

  /** With no price filter, the resolver's rows for any markets that never lose a position
      add up to the cash flow of the accepted orders.  An unresolved market has neither rows
      nor cash. */
  lemma PressureRunCash(cfg: Config, sizing: Sizing, calls: seq<Call>, results: map<string, string>, ms: seq<string>)
    requires Distinct(ms) && forall i :: 0 <= i < |ms| ==> NeverLost(cfg, sizing, calls, ms[i])
    ensures var raw := RawTrades(Play(cfg, sizing, calls).trades);
            ResolverCash.PnlOn(Resolver.Resolve(results, 0.0, raw).orders, ToSet(ms)) == TotalCash(results, raw, ms)
  {
    hide Play, RawTrades, Resolver.Resolve, ResolverCash.PnlOn, TotalCash, TripsOn, Tracks, NeverLost, Alternates;
    var trades := Play(cfg, sizing, calls).trades;
    TradeSizes(cfg, sizing, calls);
    forall i | 0 <= i < |ms|
      ensures Alternates(RawTrades(trades), ms[i])
    {
      PressureRoundTrips(cfg, sizing, calls, ms[i]);
      TradesAlternate(cfg, trades, ms[i]);
    }
    RoundTripsCash(results, RawTrades(trades), ms);
  }

  // ---------------------------------------------------------------- the object

  predicate SameCall(x: Call, y: Call) {
    x == y || (x.Price? && y.Price? && x == y.(found := x.found))
  }

  /** The object is where the run is. */
  ghost predicate At(s: BookPressureStrategy, w: World)
    reads s
  {
    s.View() == w.state && s.books == w.books && s.markets == w.markets
  }

  method Perform(s: BookPressureStrategy, call: Call, ghost w: World) returns (made: Call, o: Option<Order>)
    requires At(s, w)
    modifies s
    ensures SameCall(made, call) && (made.Price? ==> Found(w.markets, made.market, made.found))
    ensures At(s, After(s.cfg, s.sizing, w, made)) && o == Accepted(s.cfg, s.sizing, w, made)
  {
    hide Step, ToSet;
    made, o := call, None;
    match call
    case Register(event, tickers) => s.RegisterMarkets(event, tickers);
    case Unregister(event) => s.UnregisterMarkets(event);
    case SetBooks(m, series) => s.SetBookSeries(m, series);
    case Point(event, mp, sp) => s.OnPoint(event, mp, sp);
    case Price(market, price, ts, accept, _) =>
      var offered, event := s.OnPriceAt(market, price, ts, accept);
      made := Call.Price(market, price, ts, accept, event);
      o := if accept then offered else None;
  }

  /** Every lookup finds what the registry holds at the time. */
  predicate Legal(cfg: Config, sizing: Sizing, calls: seq<Call>) {
    calls == [] ||
    var init, call := calls[..|calls| - 1], calls[|calls| - 1];
    && Legal(cfg, sizing, init)
    && (call.Price? ==> Found(Play(cfg, sizing, init).world.markets, call.market, call.found))
  }

  /** A new strategy object taken through any calls makes a legal run of them, so all of the
      above holds of what it emits. */
  method Drive(s: BookPressureStrategy, calls: seq<Call>) returns (made: seq<Call>, trades: seq<Order>)
    requires At(s, NewWorld)
    modifies s
    ensures |made| == |calls| && forall i :: 0 <= i < |calls| ==> SameCall(made[i], calls[i])
    ensures Legal(s.cfg, s.sizing, made)
    ensures At(s, Play(s.cfg, s.sizing, made).world) && trades == Play(s.cfg, s.sizing, made).trades
  {
    made, trades := [], [];
    hide After, Accepted, At, SameCall;
    for n := 0 to |calls|
      invariant |made| == n && forall i :: 0 <= i < n ==> SameCall(made[i], calls[i])
      invariant Legal(s.cfg, s.sizing, made)
      invariant At(s, Play(s.cfg, s.sizing, made).world) && trades == Play(s.cfg, s.sizing, made).trades
    {
      var call, o := Perform(s, calls[n], Play(s.cfg, s.sizing, made).world);
      PlayNext(s.cfg, s.sizing, made, call);
      assert (made + [call])[..|made|] == made;
      made, trades := made + [call], Log(trades, o);
    }
  }

  // ---------------------------------------------------------------- a position that gets lost

  const Heavy := BookTick(0, 0.5, 0.5, 900.0, 100.0)

  /** The book is read, the event unregistered after the buy and registered again. */
  function LostCalls(m: string): seq<Call> {
    [Register("E", [m])] + [SetBooks(m, [Heavy])] + [Call.Price(m, 0.5, 1000, true, "E")] + [Unregister("E")]
    + [Register("E", [m])] + [SetBooks(m, [Heavy])] + [Call.Price(m, 0.5, 2000, true, "E")]
  }

  function Ready(m: string): World {
    World(Fresh, map[m := [Heavy]], map["E" := [m]])
  }

  lemma HeavyBuys(sizing: Sizing, m: string, ts: int)
    requires ts >= 0
    ensures var call, cfg := Call.Price(m, 0.5, ts, true, "E"), DefaultConfig;
            var o, w := Accepted(cfg, sizing, Ready(m), call), After(cfg, sizing, Ready(m), call);
            && o.Some? && o.value.market == m && !o.value.isSell
            && w.markets == map["E" := [m]] && w.books == map[m := [Heavy]]
            && w.state.prices == map[m := 0.5] && w.state.positions.Keys == {m} && w.state.cooldowns == map[] && w.state.scoreState == map[]
  {
    var e := EventOf(Call.Price(m, 0.5, ts, true, "E"));
    HeavyPressure(m, ts);
    hide PressureFor, KellySize;
  }

  lemma HeavyPressure(m: string, ts: int)
    requires ts >= 0
    ensures PressureFor(DefaultConfig, map[m := [Heavy]], EventOf(Call.Price(m, 0.5, ts, true, "E"))) == Some(0.8)
  {
    var series := [Heavy];
    assert Search(series, ts, 0, 1) == 1 by {
      assert Search(series, ts, 1, 1) == 1;
    }
    assert BookAt(map[m := series], m, ts) == Some(Heavy);
  }

  lemma LegalNext(cfg: Config, sizing: Sizing, calls: seq<Call>, call: Call)
    ensures Legal(cfg, sizing, calls + [call]) <==>
            && Legal(cfg, sizing, calls)
            && (call.Price? ==> Found(Play(cfg, sizing, calls).world.markets, call.market, call.found))
  {
    assert (calls + [call])[..|calls|] == calls;
  }

  lemma ReadyAgain(cfg: Config, sizing: Sizing, calls: seq<Call>, m: string)
    requires Play(cfg, sizing, calls).world == NewWorld && Legal(cfg, sizing, calls)
    ensures var ready := calls + [Register("E", [m])] + [SetBooks(m, [Heavy])];
            var r := Play(cfg, sizing, ready);
            r.world == Ready(m) && r.trades == Play(cfg, sizing, calls).trades && Legal(cfg, sizing, ready)
  {
    hide Play, Legal;
    LegalNext(cfg, sizing, calls, Register("E", [m]));
    LegalNext(cfg, sizing, calls + [Register("E", [m])], SetBooks(m, [Heavy]));
    PlayNext(cfg, sizing, calls, Register("E", [m]));
    PlayNext(cfg, sizing, calls + [Register("E", [m])], SetBooks(m, [Heavy]));
  }

  /** Unregistering forgets position and cooldown alike, so the strategy buys twice in a row. */
  lemma BuysTwice(sizing: Sizing, m: string)
    ensures Legal(DefaultConfig, sizing, LostCalls(m))
    ensures var trades := Play(DefaultConfig, sizing, LostCalls(m)).trades;
            && |trades| == 2 && trades[0].market == m == trades[1].market && !trades[0].isSell && !trades[1].isSell
            && !TripsOn(DefaultConfig, trades, m)
  {
    var cfg, c2, c3, c6 := DefaultConfig, Call.Price(m, 0.5, 1000, true, "E"), Unregister("E"), Call.Price(m, 0.5, 2000, true, "E");
    assert Play(cfg, sizing, []) == Run(NewWorld, []);
    assert Legal(cfg, sizing, []);
    hide Play, Step, Legal;
    ReadyAgain(cfg, sizing, [], m);
    var l2 := [] + [Register("E", [m])] + [SetBooks(m, [Heavy])];
    HeavyBuys(sizing, m, 1000);
    PlayNext(cfg, sizing, l2, c2);
    LegalNext(cfg, sizing, l2, c2);
    PlayNext(cfg, sizing, l2 + [c2], c3);
    LegalNext(cfg, sizing, l2 + [c2], c3);
    var l4 := l2 + [c2] + [c3];
    assert Play(cfg, sizing, l4).world == NewWorld;
    ReadyAgain(cfg, sizing, l4, m);
    var l6 := l4 + [Register("E", [m])] + [SetBooks(m, [Heavy])];
    HeavyBuys(sizing, m, 2000);
    PlayNext(cfg, sizing, l6, c6);
    LegalNext(cfg, sizing, l6, c6);
    assert LostCalls(m) == l6 + [c6];
    var trades := Play(cfg, sizing, LostCalls(m)).trades;
    var x, y := trades[0], trades[1];
    LastTradeAppend([], x, m);
    TripsAppend(cfg, [x], y, m);
    assert [] + [x] == [x] && trades == [x] + [y];
  }
}
