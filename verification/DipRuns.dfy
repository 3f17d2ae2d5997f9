/** Runs of calls on the buy-the-dip strategy, over any number of markets and with an emitter
    that may refuse any order.  Market by market: accepted orders are well-formed round trips
    exactly as long as no position gets lost, and the resolver's rows for them add up to
    their exact cash flow.
 */
module DipRuns {
  import opened Wrappers
  import opened Kelly
  import opened Money
  import opened Resolver
  import opened ResolverFifo
  import opened ResolverCash
  import opened RoundTrips
  import opened Registry
  import opened BuyTheDip

  /** The calls on a strategy.  A price comes with the emitter's answer to whatever it leads
      to, and with the event under which the registry lists the market. */
  datatype Call =
    | Register(event: string, tickers: seq<string>)
    | Unregister(event: string)
    | Point(event: string, isMatchPoint: bool, isSetPoint: bool)
    | Price(market: string, price: real, ts: int, accept: bool, found: string)

  datatype World = World(state: State, markets: map<string, seq<string>>, scores: map<string, (bool, bool)>)

  const NewWorld := World(State(map[], map[]), map[], map[])

  function TickOf(w: World, call: Call): Tick
    requires call.Price?
  {
    Tick(call.market, call.price, call.ts, call.found, AtSetPoint(w.scores, call.found), call.accept)
  }

  function After(cfg: Config, sizing: Sizing, w: World, call: Call): World {
    match call
    case Register(event, tickers) => w.(markets := w.markets[event := tickers])
    case Unregister(event) =>
      var mkts := ToSet(Listed(w.markets, event));
      World(State(w.state.prices - mkts, w.state.positions - mkts), w.markets - {event}, w.scores - {event})
    case Point(event, mp, sp) => w.(scores := w.scores[event := (mp, sp)])
    case Price(_, _, _, _, _) => w.(state := Step(cfg, sizing, w.state, TickOf(w, call)))
  }

  /** The order a call leads to and the emitter takes. */
  function Accepted(cfg: Config, sizing: Sizing, w: World, call: Call): Option<Signal> {
    if call.Price? && call.accept then Offered(cfg, sizing, w.state, TickOf(w, call)) else None
  }

  function Log(sigs: seq<Signal>, s: Option<Signal>): seq<Signal> {
    if s.Some? then sigs + [s.value] else sigs
  }

  datatype Run = Run(world: World, accepted: seq<Signal>)

  function Play(cfg: Config, sizing: Sizing, calls: seq<Call>): Run {
    if calls == [] then Run(NewWorld, [])
    else
      var before, call := Play(cfg, sizing, calls[..|calls| - 1]), calls[|calls| - 1];
      Run(After(cfg, sizing, before.world, call), Log(before.accepted, Accepted(cfg, sizing, before.world, call)))
  }

  lemma PlayNext(cfg: Config, sizing: Sizing, calls: seq<Call>, call: Call)
    ensures var before := Play(cfg, sizing, calls);
            Play(cfg, sizing, calls + [call]) ==
              Run(After(cfg, sizing, before.world, call), Log(before.accepted, Accepted(cfg, sizing, before.world, call)))
  {
    assert (calls + [call])[..|calls|] == calls;
  }

  /** Every lookup finds what the registry holds at the time. */
  predicate Legal(cfg: Config, sizing: Sizing, calls: seq<Call>) {
    calls == [] ||
    var init, call := calls[..|calls| - 1], calls[|calls| - 1];
    && Legal(cfg, sizing, init)
    && (call.Price? ==> Found(Play(cfg, sizing, init).world.markets, call.market, call.found))
  }

  /** The last accepted order on a market, if it is a buy. */
  function OpenSignal(sigs: seq<Signal>, market: string): Option<Signal> {
    if sigs == [] then None
    else
      var s := sigs[|sigs| - 1];
      if s.order.market != market then OpenSignal(sigs[..|sigs| - 1], market)
      else if IsSell(s.order) then None
      else Some(s)
  }

  /** Per contract, a sell ends between the stop loss and the take-profit share of the dip. */
  predicate InBand(cfg: Config, buy: Signal, sell: Signal) {
    -StopLoss(cfg) <= sell.order.price - buy.order.price <= cfg.takeProfitFrac * buy.dipSize
  }

  /** What `sell` owes `buy`: the same contracts on the same market, and the band, which
      holds exactly when it is not empty. */
  predicate Closes(cfg: Config, buy: Signal, sell: Signal) {
    && !IsSell(buy.order) && IsSell(sell.order)
    && sell.order.market == buy.order.market
    && sell.order.size == buy.order.size
    && sell.entryPrice == buy.order.price && sell.dipSize == buy.dipSize
    && (InBand(cfg, buy, sell) <==> -StopLoss(cfg) <= cfg.takeProfitFrac * buy.dipSize)
  }

  /** A buy is priced in the tradeable range after a dip of at least the threshold. */
  predicate DipBuy(cfg: Config, s: Signal) {
    && cfg.minEntryPrice <= s.order.price <= cfg.maxEntryPrice
    && s.entryPrice == s.order.price
    && (cfg.dipThresholdCents >= 1 ==> s.dipSize >= cfg.dipThresholdCents as real / 100.0)
  }

  /** `s` continues the round trips on its market: a sell closes the open buy, a dip buy
      comes when none is open. */
  predicate Continues(cfg: Config, sigs: seq<Signal>, s: Signal) {
    var open := OpenSignal(sigs, s.order.market);
    if IsSell(s.order) then open.Some? && Closes(cfg, open.value, s) else open.None? && DipBuy(cfg, s)
  }

  /** On market `m` accepted orders alternate buy, sell, buy, sell, each sell closing the buy
      before it. */
  predicate TripsOn(cfg: Config, sigs: seq<Signal>, m: string) {
    sigs == [] ||
    var init, s := sigs[..|sigs| - 1], sigs[|sigs| - 1];
    TripsOn(cfg, init, m) && (s.order.market == m ==> Continues(cfg, init, s))
  }

  /** The strategy's position on market `m` is exactly the open buy. */
  predicate Tracks(st: State, sigs: seq<Signal>, m: string) {
    var open := OpenSignal(sigs, m);
    if m in st.positions
    then open.Some? && !IsSell(open.value.order) && open.value.order.market == m
         && st.positions[m] == PositionOf(open.value) && open.value.order.size >= 1.0
         && open.value.entryPrice == open.value.order.price
    else open.None?
  }

  // ---------------------------------------------------------------- positions that get lost

  /** An exit that finds its market unregistered clears the position without a sell. */
  predicate Drops(cfg: Config, st: State, t: Tick, m: string) {
    && t.market == m && t.event == "" && m in st.positions
    && ExitOf(cfg, st.positions[m], t.price, t.ts).Leave?
  }

  /** So does unregistering the market's event, whatever the price. */
  predicate Loses(cfg: Config, w: World, call: Call, m: string) {
    || (call.Price? && Drops(cfg, w.state, TickOf(w, call), m))
    || (call.Unregister? && m in Listed(w.markets, call.event) && m in w.state.positions)
  }

  predicate NeverLost(cfg: Config, sizing: Sizing, calls: seq<Call>, m: string) {
    calls == [] ||
    var init := calls[..|calls| - 1];
    NeverLost(cfg, sizing, init, m) && !Loses(cfg, Play(cfg, sizing, init).world, calls[|calls| - 1], m)
  }

  // ---------------------------------------------------------------- one tick

  lemma TruncateAtLeast(x: real, n: int)
    requires Truncate(x * 100.0) >= n >= 1
    ensures x >= n as real / 100.0
  {
  }

  lemma EntryBuys(cfg: Config, sizing: Sizing, samples: seq<Sample>, t: Tick)
    ensures var s := Entry(cfg, sizing, samples, t);
            s.Some? ==>
              && DipBuy(cfg, s.value) && !IsSell(s.value.order) && s.value.order.size >= 1.0
              && s.value.order.market == t.market
  {
    if Entry(cfg, sizing, samples, t).Some? && cfg.dipThresholdCents >= 1 {
      TruncateAtLeast(samples[0].price - t.price, cfg.dipThresholdCents);
    }
  }

  lemma ExitCloses(cfg: Config, pos: Position, buy: Signal, t: Tick)
    requires pos == PositionOf(buy) && buy.entryPrice == buy.order.price && buy.order.size >= 1.0
    requires !IsSell(buy.order) && buy.order.market == t.market
    requires ExitOf(cfg, pos, t.price, t.ts).Leave?
    ensures Closes(cfg, buy, SellSignal(pos, t, ExitOf(cfg, pos, t.price, t.ts)))
  {
  }

  /** Whatever is offered is on the tick's market and at least one contract. */
  lemma OfferedShape(cfg: Config, sizing: Sizing, st: State, t: Tick)
    ensures var s := Offered(cfg, sizing, st, t); s.Some? ==> s.value.order.market == t.market && s.value.order.size >= 1.0
  {
    EntryBuys(cfg, sizing, Window(cfg, st, t), t);
  }

  /** While its event is at a set or match point a market offers no buy, and its exits are
      not affected. */
  lemma BlockedSellsOnly(cfg: Config, sizing: Sizing, st: State, t: Tick)
    requires t.blocked
    ensures var s := Offered(cfg, sizing, st, t);
            && (s.Some? ==> IsSell(s.value.order) && t.market in st.positions)
            && (t.market in st.positions ==> s == Offered(cfg, sizing, st, t.(blocked := false)))
            && Held(cfg, sizing, st, t).Keys <= st.positions.Keys
  {
  }

  lemma SignalAppend(sigs: seq<Signal>, s: Signal, m: string)
    ensures OpenSignal(sigs + [s], m) ==
            if s.order.market != m then OpenSignal(sigs, m) else if IsSell(s.order) then None else Some(s)
  {
    assert (sigs + [s])[..|sigs|] == sigs;
  }

  lemma TripsAppend(cfg: Config, sigs: seq<Signal>, s: Signal, m: string)
    ensures TripsOn(cfg, sigs + [s], m) <==> TripsOn(cfg, sigs, m) && (s.order.market == m ==> Continues(cfg, sigs, s))
  {
    assert (sigs + [s])[..|sigs|] == sigs;
  }

  /** An offer on a tracked market continues its round trips. */
  lemma OfferContinues(cfg: Config, sizing: Sizing, st: State, sigs: seq<Signal>, t: Tick)
    requires Tracks(st, sigs, t.market) && Offered(cfg, sizing, st, t).Some?
    ensures var s := Offered(cfg, sizing, st, t).value;
            Continues(cfg, sigs, s) && (IsSell(s.order) <==> t.market in st.positions)
  {
    OfferedShape(cfg, sizing, st, t);
    if t.market in st.positions {
      ExitCloses(cfg, st.positions[t.market], OpenSignal(sigs, t.market).value, t);
    } else {
      EntryBuys(cfg, sizing, Window(cfg, st, t), t);
    }
  }

  function LogIf(sigs: seq<Signal>, s: Option<Signal>, accept: bool): seq<Signal> {
    Log(sigs, if accept then s else None)
  }

  lemma StepElsewhere(cfg: Config, sizing: Sizing, st: State, sigs: seq<Signal>, t: Tick, m: string)
    requires t.market != m
    ensures var sigs' := LogIf(sigs, Offered(cfg, sizing, st, t), t.accept);
            && (TripsOn(cfg, sigs, m) <==> TripsOn(cfg, sigs', m))
            && (Tracks(st, sigs, m) <==> Tracks(Step(cfg, sizing, st, t), sigs', m))
  {
    OfferedShape(cfg, sizing, st, t);
    var offered := Offered(cfg, sizing, st, t);
    if offered.Some? {
      SignalAppend(sigs, offered.value, m);
      TripsAppend(cfg, sigs, offered.value, m);
    }
    hide Entry, ExitOf, SellSignal, Trim, TripsOn, OpenSignal;
  }

  lemma StepHere(cfg: Config, sizing: Sizing, st: State, sigs: seq<Signal>, t: Tick)
    requires TripsOn(cfg, sigs, t.market) && Tracks(st, sigs, t.market)
    ensures var sigs' := LogIf(sigs, Offered(cfg, sizing, st, t), t.accept);
            && TripsOn(cfg, sigs', t.market)
            && (Tracks(Step(cfg, sizing, st, t), sigs', t.market) <==> !Drops(cfg, st, t, t.market))
  {
    var offered := Offered(cfg, sizing, st, t);
    if offered.Some? {
      OfferedShape(cfg, sizing, st, t);
      OfferContinues(cfg, sizing, st, sigs, t);
      SignalAppend(sigs, offered.value, t.market);
      TripsAppend(cfg, sigs, offered.value, t.market);
    }
    hide Entry, ExitOf, SellSignal, Trim, TripsOn, OpenSignal, Closes;
  }

  // ---------------------------------------------------------------- every run

  /** The round trips on market `m` are in order and its position is the open one. */
  predicate InStep(cfg: Config, r: Run, m: string) {
    TripsOn(cfg, r.accepted, m) && Tracks(r.world.state, r.accepted, m)
  }

  lemma CallElsewhere(cfg: Config, sizing: Sizing, r: Run, call: Call, m: string)
    requires !call.Price? && InStep(cfg, r, m)
    ensures var r' := Run(After(cfg, sizing, r.world, call), Log(r.accepted, Accepted(cfg, sizing, r.world, call)));
            && r'.accepted == r.accepted
            && (InStep(cfg, r', m) <==> !Loses(cfg, r.world, call, m))
  {
  }

  lemma RunStep(cfg: Config, sizing: Sizing, calls: seq<Call>, call: Call, m: string)
    requires InStep(cfg, Play(cfg, sizing, calls), m)
    ensures InStep(cfg, Play(cfg, sizing, calls + [call]), m) <==> !Loses(cfg, Play(cfg, sizing, calls).world, call, m)
  {
    hide Play, Step, Offered, Drops, OpenSignal, TripsOn, Tracks;
    var r := Play(cfg, sizing, calls);
    PlayNext(cfg, sizing, calls, call);
    if !call.Price? {
      CallElsewhere(cfg, sizing, r, call, m);
    } else {
      var t := TickOf(r.world, call);
      if call.market == m {
        StepHere(cfg, sizing, r.world.state, r.accepted, t);
      } else {
        StepElsewhere(cfg, sizing, r.world.state, r.accepted, t, m);
        DropsHere(cfg, r.world.state, t, m);
      }
    }
  }

  lemma DropsHere(cfg: Config, st: State, t: Tick, m: string)
    ensures Drops(cfg, st, t, m) ==> t.market == m
  {
  }

  lemma NothingPlayed(cfg: Config, sizing: Sizing, m: string)
    ensures InStep(cfg, Play(cfg, sizing, []), m)
  {
  }

  /** Every run, at any times and prices and with any refusals: on a market that never loses
      a position, accepted orders form round trips and the position is the open one. */
  lemma {:induction false} RunRoundTrips(cfg: Config, sizing: Sizing, calls: seq<Call>, m: string)
    requires NeverLost(cfg, sizing, calls, m)
    ensures InStep(cfg, Play(cfg, sizing, calls), m)
  {
    hide InStep, Loses, Play;
    if calls == [] {
      NothingPlayed(cfg, sizing, m);
    } else {
      var init, call := calls[..|calls| - 1], calls[|calls| - 1];
      assert calls == init + [call];
      RunRoundTrips(cfg, sizing, init, m);
      RunStep(cfg, sizing, init, call, m);
    }
  }

  /** At every moment of the run the position follows the accepted orders. */
  predicate AlwaysInStep(cfg: Config, sizing: Sizing, calls: seq<Call>, m: string) {
    InStep(cfg, Play(cfg, sizing, calls), m) && (calls != [] ==> AlwaysInStep(cfg, sizing, calls[..|calls| - 1], m))
  }

  /** And only then: the position follows the accepted orders throughout a run exactly when
      none gets lost, by an exit on an unregistered market or by unregistering. */
  lemma {:induction false} TracksExactly(cfg: Config, sizing: Sizing, calls: seq<Call>, m: string)
    ensures NeverLost(cfg, sizing, calls, m) <==> AlwaysInStep(cfg, sizing, calls, m)
  {
    hide InStep, Loses, Play;
    if calls == [] {
      NothingPlayed(cfg, sizing, m);
    } else {
      var init, call := calls[..|calls| - 1], calls[|calls| - 1];
      assert calls == init + [call];
      TracksExactly(cfg, sizing, init, m);
      if InStep(cfg, Play(cfg, sizing, init), m) {
        RunStep(cfg, sizing, init, call, m);
      }
    }
  }

  predicate Sane(cfg: Config) {
    cfg.dipThresholdCents >= 1 && cfg.takeProfitFrac >= 0.0 && cfg.stopLossCents >= 0
  }

  /** With sane thresholds the band is never empty, so every round trip ends inside it. */
  lemma SaneBand(cfg: Config, buy: Signal, sell: Signal)
    requires Sane(cfg) && DipBuy(cfg, buy) && Closes(cfg, buy, sell)
    ensures InBand(cfg, buy, sell)
  {
    assert cfg.takeProfitFrac * buy.dipSize >= 0.0;
  }

  lemma {:induction false} OpenIsDipBuy(cfg: Config, sigs: seq<Signal>, m: string)
    requires TripsOn(cfg, sigs, m) && OpenSignal(sigs, m).Some?
    ensures var s := OpenSignal(sigs, m).value; DipBuy(cfg, s) && !IsSell(s.order) && s.order.market == m
  {
    var s := sigs[|sigs| - 1];
    if s.order.market != m {
      OpenIsDipBuy(cfg, sigs[..|sigs| - 1], m);
    }
  }

  /** Any sell of a market's round trips, with sane thresholds: the order before it on its
      market is the buy it closes, of the same size, and its result per contract is within
      the band. */
  lemma {:induction false} EveryRoundTrip(cfg: Config, sigs: seq<Signal>, j: nat)
    requires Sane(cfg) && j < |sigs| && IsSell(sigs[j].order) && TripsOn(cfg, sigs, sigs[j].order.market)
    ensures var open := OpenSignal(sigs[..j], sigs[j].order.market);
            open.Some? && open.value.order.size == sigs[j].order.size && InBand(cfg, open.value, sigs[j])
  {
    var init, m := sigs[..|sigs| - 1], sigs[j].order.market;
    if j < |sigs| - 1 {
      EveryRoundTrip(cfg, init, j);
      assert init[..j] == sigs[..j];
    } else {
      OpenIsDipBuy(cfg, init, m);
      SaneBand(cfg, OpenSignal(init, m).value, sigs[j]);
    }
  }

  // ---------------------------------------------------------------- through the resolver

  function Orders(sigs: seq<Signal>): (raw: seq<RawOrder>)
    ensures |raw| == |sigs|
  {
    seq(|sigs|, i requires 0 <= i < |sigs| => sigs[i].order)
  }

  lemma OrdersLast(sigs: seq<Signal>)
    requires sigs != []
    ensures Orders(sigs)[..|sigs| - 1] == Orders(sigs[..|sigs| - 1])
  {
  }

  lemma {:induction false} OrdersAlternate(cfg: Config, sigs: seq<Signal>, m: string)
    requires TripsOn(cfg, sigs, m)
    ensures Alternates(Orders(sigs), m)
    ensures var open := OpenSignal(sigs, m);
            OpenBuy(Orders(sigs), m) == if open.None? then None else Some(open.value.order)
  {
    if sigs != [] {
      OrdersLast(sigs);
      OrdersAlternate(cfg, sigs[..|sigs| - 1], m);
      hide DipBuy, InBand, Orders;
    }
  }

  lemma {:induction false} RunSizes(cfg: Config, sizing: Sizing, calls: seq<Call>)
    ensures PositiveOrders(Orders(Play(cfg, sizing, calls).accepted))
  {
    if calls != [] {
      var init, call := calls[..|calls| - 1], calls[|calls| - 1];
      RunSizes(cfg, sizing, init);
      var before := Play(cfg, sizing, init);
      if call.Price? {
        OfferedShape(cfg, sizing, before.world.state, TickOf(before.world, call));
      }
      hide Offered, After;
      var raw, sigs := Orders(before.accepted), Play(cfg, sizing, calls).accepted;
      forall i | 0 <= i < |sigs|
        ensures Orders(sigs)[i].size > 0.0
      {
        assert i < |raw| ==> raw[i] == Orders(sigs)[i];
      }
    }
  }

  /** With no price filter, the resolver's rows for any markets that never lose a position
      add up to the cash flow of the accepted orders, however the markets interleave and
      whatever is still open at the end.  An unresolved market has neither rows nor cash. */
  lemma DipRunCash(cfg: Config, sizing: Sizing, calls: seq<Call>, results: map<string, string>, ms: seq<string>)
    requires Distinct(ms) && forall i :: 0 <= i < |ms| ==> NeverLost(cfg, sizing, calls, ms[i])
    ensures var raw := Orders(Play(cfg, sizing, calls).accepted);
            PnlOn(Resolve(results, 0.0, raw).orders, ToSet(ms)) == TotalCash(results, raw, ms)
  {
    hide Play, Orders, Resolve, PnlOn, TotalCash, TripsOn, Tracks, NeverLost, Alternates;
    var sigs := Play(cfg, sizing, calls).accepted;
    RunSizes(cfg, sizing, calls);
    forall i | 0 <= i < |ms|
      ensures Alternates(Orders(sigs), ms[i])
    {
      RunRoundTrips(cfg, sizing, calls, ms[i]);
      OrdersAlternate(cfg, sigs, ms[i]);
    }
    RoundTripsCash(results, Orders(sigs), ms);
  }

  // ---------------------------------------------------------------- the object

  /** Two calls that differ at most in what the registry lookup found. */
  predicate SameCall(x: Call, y: Call) {
    x == y || (x.Price? && y.Price? && x == y.(found := x.found))
  }

  /** The object is where the run is. */
  ghost predicate At(s: BuyTheDipStrategy, w: World)
    reads s
  {
    s.View() == w.state && s.markets == w.markets && s.scoreState == w.scores
  }

  method Perform(s: BuyTheDipStrategy, call: Call, ghost w: World) returns (made: Call, s': Option<Signal>)
    requires At(s, w)
    modifies s
    ensures SameCall(made, call) && (made.Price? ==> Found(w.markets, made.market, made.found))
    ensures At(s, After(s.cfg, s.sizing, w, made)) && s' == Accepted(s.cfg, s.sizing, w, made)
  {
    hide Step, Offered;
    made, s' := call, None;
    match call
    case Register(event, tickers) => s.RegisterMarkets(event, tickers);
    case Unregister(event) => s.UnregisterMarkets(event);
    case Point(event, mp, sp) => s.OnPoint(event, mp, sp);
    case Price(market, price, ts, accept, _) =>
      var offered, event := s.OnPriceAt(market, price, ts, accept);
      made := Price(market, price, ts, accept, event);
      s' := if accept then offered else None;
  }

  /** A new strategy object taken through any calls makes a legal run of them, so all of the
      above holds of what it emits. */
  method Drive(s: BuyTheDipStrategy, calls: seq<Call>) returns (made: seq<Call>, accepted: seq<Signal>)
    requires At(s, NewWorld)
    modifies s
    ensures SameCalls(made, calls)
    ensures Legal(s.cfg, s.sizing, made)
    ensures At(s, Play(s.cfg, s.sizing, made).world) && accepted == Play(s.cfg, s.sizing, made).accepted
  {
    made, accepted := [], [];
    hide After, Accepted, At, SameCall;
    for n := 0 to |calls|
      invariant |made| == n && forall i :: 0 <= i < n ==> SameCall(made[i], calls[i])
      invariant Legal(s.cfg, s.sizing, made)
      invariant At(s, Play(s.cfg, s.sizing, made).world) && accepted == Play(s.cfg, s.sizing, made).accepted
    {
      var call, signal := Perform(s, calls[n], Play(s.cfg, s.sizing, made).world);
      PlayNext(s.cfg, s.sizing, made, call);
      assert (made + [call])[..|made|] == made;
      made, accepted := made + [call], Log(accepted, signal);
    }
  }

  // ---------------------------------------------------------------- positions that get lost: two runs

  lemma DipEntry(sizing: Sizing, samples: seq<Sample>, t: Tick)
    requires |samples| >= 2 && samples[0].price == 0.8 && t.price == 0.5 && t.event != "" && !t.blocked
    ensures var s := Entry(DefaultConfig, sizing, samples, t);
            s.Some? && s.value.order.market == t.market && !IsSell(s.value.order) && s.value.entryPrice == 0.5 && s.value.dipSize == 0.3
  {
    assert Truncate((0.8 - 0.5) * 100.0) == 30;
    EntryBuys(DefaultConfig, sizing, samples, t);
  }

  /** The samples a price leaves when the oldest of them is in the window. */
  lemma WindowKeeps(st: State, t: Tick, kept: seq<Sample>)
    requires kept == Seen(st.prices, t.market)
    requires kept != [] ==> kept[0].ts >= t.ts - 30000
    ensures Window(DefaultConfig, st, t) == kept + [Sample(t.ts, t.price)]
  {
  }

  /** A drop from 80 to 50 cents within the window is bought. */
  lemma DipBought(sizing: Sizing, w: World, call: Call, kept: seq<Sample>)
    requires call.Price? && call.price == 0.5 && call.accept && call.found != "" && !AtSetPoint(w.scores, call.found)
    requires call.market in w.state.prices && w.state.prices[call.market] == kept && call.market !in w.state.positions
    requires kept != [] && kept[0].price == 0.8 && kept[0].ts >= call.ts - 30000
    ensures var s, w' := Accepted(DefaultConfig, sizing, w, call), After(DefaultConfig, sizing, w, call);
            && s.Some? && s.value.order.market == call.market && !IsSell(s.value.order)
            && w'.markets == w.markets && w'.scores == w.scores
            && w'.state == State(w.state.prices[call.market := kept + [Sample(call.ts, 0.5)]],
                                 w.state.positions[call.market := PositionOf(s.value)])
            && PositionOf(s.value).entryPrice == 0.5 && PositionOf(s.value).dipSize == 0.3
  {
    var t := TickOf(w, call);
    WindowKeeps(w.state, t, kept);
    DipEntry(sizing, kept + [Sample(call.ts, 0.5)], t);
    hide Entry, Window;
  }

  /** A first price on a market is only noted. */
  lemma FirstPrice(sizing: Sizing, w: World, call: Call)
    requires call.Price? && call.market !in w.state.prices && call.market !in w.state.positions
    ensures Accepted(DefaultConfig, sizing, w, call).None?
    ensures After(DefaultConfig, sizing, w, call) ==
            w.(state := w.state.(prices := w.state.prices[call.market := [Sample(call.ts, call.price)]]))
  {
    WindowKeeps(w.state, TickOf(w, call), []);
    assert [] + [Sample(call.ts, call.price)] == [Sample(call.ts, call.price)];
  }

  function DipCalls(m: string): seq<Call> {
    [Register("E", [m]), Price(m, 0.8, 0, true, "E"), Price(m, 0.5, 1000, true, "E")]
  }

  /** The market is registered alone, its dip bought and held. */
  predicate Holding(r: Run, m: string) {
    && |r.accepted| == 1 && r.accepted[0].order.market == m && !IsSell(r.accepted[0].order)
    && r.world.markets == map["E" := [m]] && r.world.scores == map[]
    && r.world.state.prices == map[m := [Sample(0, 0.8), Sample(1000, 0.5)]]
    && r.world.state.positions == map[m := PositionOf(r.accepted[0])]
    && PositionOf(r.accepted[0]).entryPrice == 0.5 && PositionOf(r.accepted[0]).dipSize == 0.3
  }

  lemma LegalNext(cfg: Config, sizing: Sizing, calls: seq<Call>, call: Call)
    ensures Legal(cfg, sizing, calls + [call]) <==>
            && Legal(cfg, sizing, calls)
            && (call.Price? ==> Found(Play(cfg, sizing, calls).world.markets, call.market, call.found))
  {
    assert (calls + [call])[..|calls|] == calls;
  }

  lemma DipHeld(sizing: Sizing, m: string)
    ensures Legal(DefaultConfig, sizing, DipCalls(m)) && Holding(Play(DefaultConfig, sizing, DipCalls(m)), m)
  {
    var cfg, c0, c1, c2 := DefaultConfig, DipCalls(m)[0], DipCalls(m)[1], DipCalls(m)[2];
    var w1 := World(State(map[], map[]), map["E" := [m]], map[]);
    var w2 := World(State(map[m := [Sample(0, 0.8)]], map[]), map["E" := [m]], map[]);
    assert Play(cfg, sizing, []) == Run(NewWorld, []) && Legal(cfg, sizing, []);
    assert [] + [c0] == [c0] && [c0] + [c1] == [c0, c1] && [c0, c1] + [c2] == DipCalls(m);
    hide Play, Legal, Entry, Window;
    PlayNext(cfg, sizing, [], c0);
    LegalNext(cfg, sizing, [], c0);
    assert Play(cfg, sizing, [c0]) == Run(w1, []);
    FirstPrice(sizing, w1, c1);
    PlayNext(cfg, sizing, [c0], c1);
    LegalNext(cfg, sizing, [c0], c1);
    assert Play(cfg, sizing, [c0, c1]) == Run(w2, []);
    DipBought(sizing, w2, c2, [Sample(0, 0.8)]);
    PlayNext(cfg, sizing, [c0, c1], c2);
    LegalNext(cfg, sizing, [c0, c1], c2);
    assert [Sample(0, 0.8)] + [Sample(1000, 0.5)] == [Sample(0, 0.8), Sample(1000, 0.5)];
  }

  /** Two buys in a row. */
  predicate BoughtTwice(r: Run, m: string) {
    && |r.accepted| == 2 && r.accepted[0].order.market == m == r.accepted[1].order.market
    && !IsSell(r.accepted[0].order) && !IsSell(r.accepted[1].order)
  }

  lemma NotRoundTrips(cfg: Config, r: Run, m: string)
    requires BoughtTwice(r, m)
    ensures !TripsOn(cfg, r.accepted, m)
  {
    var x, y := r.accepted[0], r.accepted[1];
    SignalAppend([], x, m);
    TripsAppend(cfg, [x], y, m);
    assert [] + [x] == [x] && r.accepted == [x] + [y];
  }

  /** An exit that finds the market gone from its event. */
  function ExitCalls(m: string): seq<Call> {
    DipCalls(m) + [Register("E", [])] + [Price(m, 0.75, 2000, true, "")] + [Register("E", [m])] + [Price(m, 0.5, 3000, true, "E")]
  }

  lemma LostByExit(sizing: Sizing, m: string)
    ensures var cfg, calls := DefaultConfig, ExitCalls(m);
            && Legal(cfg, sizing, calls) && BoughtTwice(Play(cfg, sizing, calls), m)
            && !TripsOn(cfg, Play(cfg, sizing, calls).accepted, m)
  {
    var cfg, x3, x4, x5, x6 :=
      DefaultConfig, Register("E", []), Price(m, 0.75, 2000, true, ""), Register("E", [m]), Price(m, 0.5, 3000, true, "E");
    var l3, samples := DipCalls(m), [Sample(0, 0.8), Sample(1000, 0.5)];
    var l4, l5, l6 := l3 + [x3], l3 + [x3] + [x4], l3 + [x3] + [x4] + [x5];
    DipHeld(sizing, m);
    var r := Play(cfg, sizing, l3);
    var p := r.world.state.positions[m];
    assert ExitOf(cfg, p, 0.75, 2000).Leave?;
    hide Play, Legal, Entry, Window, DipCalls, ExitOf;
    PlayNext(cfg, sizing, l3, x3);
    LegalNext(cfg, sizing, l3, x3);
    var w4 := Play(cfg, sizing, l4).world;
    assert w4 == r.world.(markets := map["E" := []]);
    PlayNext(cfg, sizing, l4, x4);
    LegalNext(cfg, sizing, l4, x4);
    WindowKeeps(w4.state, TickOf(w4, x4), samples);
    PlayNext(cfg, sizing, l5, x5);
    LegalNext(cfg, sizing, l5, x5);
    var r6 := Play(cfg, sizing, l6);
    assert r6.world.state.positions == map[] && r6.accepted == r.accepted;
    DipBought(sizing, r6.world, x6, samples + [Sample(2000, 0.75)]);
    PlayNext(cfg, sizing, l6, x6);
    LegalNext(cfg, sizing, l6, x6);
    NotRoundTrips(cfg, Play(cfg, sizing, ExitCalls(m)), m);
  }

  /** An event that is unregistered and registered again. */
  function UnregisterCalls(m: string): seq<Call> {
    DipCalls(m) + [Unregister("E")] + [Register("E", [m])] + [Price(m, 0.8, 3000, true, "E")] + [Price(m, 0.5, 4000, true, "E")]
  }

  lemma LostByUnregistering(sizing: Sizing, m: string)
    ensures var cfg, calls := DefaultConfig, UnregisterCalls(m);
            && Legal(cfg, sizing, calls) && BoughtTwice(Play(cfg, sizing, calls), m)
            && !TripsOn(cfg, Play(cfg, sizing, calls).accepted, m)
  {
    var cfg, x3, x4, x5, x6 :=
      DefaultConfig, Unregister("E"), Register("E", [m]), Price(m, 0.8, 3000, true, "E"), Price(m, 0.5, 4000, true, "E");
    var l3 := DipCalls(m);
    var l4, l5, l6 := l3 + [x3], l3 + [x3] + [x4], l3 + [x3] + [x4] + [x5];
    DipHeld(sizing, m);
    var r := Play(cfg, sizing, l3);
    hide Play, Legal, Entry, Window, DipCalls, ExitOf;
    PlayNext(cfg, sizing, l3, x3);
    LegalNext(cfg, sizing, l3, x3);
    assert Play(cfg, sizing, l4).world == NewWorld;
    PlayNext(cfg, sizing, l4, x4);
    LegalNext(cfg, sizing, l4, x4);
    var r5 := Play(cfg, sizing, l5);
    assert r5.world == NewWorld.(markets := map["E" := [m]]);
    FirstPrice(sizing, r5.world, x5);
    PlayNext(cfg, sizing, l5, x5);
    LegalNext(cfg, sizing, l5, x5);
    var r6 := Play(cfg, sizing, l6);
    assert r6.world.state.prices[m] == [Sample(3000, 0.8)] && r6.accepted == r.accepted;
    DipBought(sizing, r6.world, x6, [Sample(3000, 0.8)]);
    PlayNext(cfg, sizing, l6, x6);
    LegalNext(cfg, sizing, l6, x6);
    NotRoundTrips(cfg, Play(cfg, sizing, UnregisterCalls(m)), m);
  }

  /** Only the event "E" is ever registered, so a lookup has one answer. */
  predicate OnlyE(calls: seq<Call>) {
    forall i :: 0 <= i < |calls| && calls[i].Register? ==> calls[i].event == "E"
  }

  predicate SameCalls(made: seq<Call>, calls: seq<Call>) {
    |made| == |calls| && forall i :: 0 <= i < |calls| ==> SameCall(made[i], calls[i])
  }

  lemma LastCalls(calls: seq<Call>, made: seq<Call>)
    requires OnlyE(calls) && SameCalls(made, calls) && calls != []
    ensures var init, init', x, y := calls[..|calls| - 1], made[..|calls| - 1], calls[|calls| - 1], made[|calls| - 1];
            && OnlyE(init) && SameCalls(init', init) && calls == init + [x] && made == init' + [y]
            && (x.Register? ==> x.event == "E") && SameCall(y, x) && (!x.Price? ==> x == y)
  {
  }

  lemma {:induction false} OneAnswer(cfg: Config, sizing: Sizing, calls: seq<Call>, made: seq<Call>)
    requires OnlyE(calls) && Legal(cfg, sizing, calls) && Legal(cfg, sizing, made) && SameCalls(made, calls)
    ensures made == calls
    ensures Play(cfg, sizing, calls).world.markets.Keys <= {"E"}
  {
    if calls == [] {
      assert Play(cfg, sizing, calls) == Run(NewWorld, []);
    } else {
      hide Legal, Play, Found, After, Accepted, OnlyE, SameCalls;
      LastCalls(calls, made);
      var init, init', x, y := calls[..|calls| - 1], made[..|calls| - 1], calls[|calls| - 1], made[|calls| - 1];
      LegalNext(cfg, sizing, init, x);
      LegalNext(cfg, sizing, init', y);
      OneAnswer(cfg, sizing, init, init');
      var w := Play(cfg, sizing, init).world;
      if x.Price? {
        FoundOnce(w.markets, x.market, x.found, y.found);
      }
      PlayNext(cfg, sizing, init, x);
      KeysStay(cfg, sizing, w, x);
    }
  }

  lemma FoundOnce(markets: map<string, seq<string>>, m: string, x: string, y: string)
    requires markets.Keys <= {"E"} && Found(markets, m, x) && Found(markets, m, y)
    ensures x == y
  {
  }

  lemma KeysStay(cfg: Config, sizing: Sizing, w: World, call: Call)
    requires w.markets.Keys <= {"E"} && (call.Register? ==> call.event == "E")
    ensures After(cfg, sizing, w, call).markets.Keys <= {"E"}
  {
  }

  /** Both on the object itself: what it emits is the two buys. */
  method BuysTwice(sizing: Sizing, m: string) returns (byExit: seq<Signal>, byUnregistering: seq<Signal>)
    ensures |byExit| == 2 == |byUnregistering|
    ensures forall i :: 0 <= i < 2 ==> byExit[i].order.market == m && !IsSell(byExit[i].order)
    ensures forall i :: 0 <= i < 2 ==> byUnregistering[i].order.market == m && !IsSell(byUnregistering[i].order)
  {
    hide Play, Legal;
    var s := new BuyTheDipStrategy(DefaultConfig, sizing);
    var s' := new BuyTheDipStrategy(DefaultConfig, sizing);
    var made, made';
    made, byExit := Drive(s, ExitCalls(m));
    LostByExit(sizing, m);
    OneAnswer(DefaultConfig, sizing, ExitCalls(m), made);
    made', byUnregistering := Drive(s', UnregisterCalls(m));
    LostByUnregistering(sizing, m);
    OneAnswer(DefaultConfig, sizing, UnregisterCalls(m), made');
  }
}
