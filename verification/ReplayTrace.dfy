/** What a strategy gets to hear in a replay.  Any strategy can be given a tape that records
    the calls it receives; it then behaves as before, and the tape of a replay shows its
    match, every tick and, if it observes scores, every point, each once and in time order.
 */
module ReplayTrace {
  import opened Wrappers
  import opened MarkovModel
  import opened PointFlags
  import opened Resolver
  import opened Replay

  /** A call, with the replay time set when it came. */
  datatype Heard =
    | CloseTime(ticker: string, closeTs: int)
    | Registered(ticker: string, home: string, away: string)
    | Told(now: int, market: string, price: real, ts: int)
    | Scored(now: int, ticker: string, point: Row)
    | Unregistered(ticker: string)

  /** A strategy's state with the replay time, the tape, and the orders emitted so far. */
  datatype Taped<!S> = Taped(state: S, now: int, tape: seq<Heard>, emitted: seq<RawOrder>) {
    function With(next: S, h: Heard, orders: seq<RawOrder>): Taped<S> { Taped(next, now, tape + [h], emitted + orders) }
  }

  function TapedHooks<S>(hooks: CloseHooks<S>): CloseHooks<Taped<S>> {
    CloseHooks(
      (s: Taped<S>, ticker: string, ts: int) => s.With(hooks.registerCloseTime(s.state, ticker, ts), CloseTime(ticker, ts), []),
      (s: Taped<S>, ticker: string) => s.With(hooks.unregister(s.state, ticker), Unregistered(ticker), []))
  }

  function Recording<S>(strat: Strategy<S>): Strategy<Taped<S>> {
    Strategy(
      Taped(strat.make, 0, [], []),
      (s: Taped<S>, ticker: string, home: string, away: string) =>
        s.With(strat.register(s.state, ticker, home, away), Registered(ticker, home, away), []),
      (s: Taped<S>, ts: int) => Taped(strat.setReplayTime(s.state, ts), ts, s.tape, s.emitted),
      strat.limit,
      (s: Taped<S>, ev: ReplayEvent, answers: seq<real>) => strat.nextQuery(s.state, ev, answers),
      (s: Taped<S>, market: string, price: real, ts: int, answers: seq<real>) =>
        var out := strat.onPriceAt(s.state, market, price, ts, answers);
        (s.With(out.0, Told(s.now, market, price, ts), out.1), out.1),
      strat.observesScores,
      (s: Taped<S>, ticker: string, point: Row, answers: seq<real>) =>
        var out := strat.onPoint(s.state, ticker, point, answers);
        (s.With(out.0, Scored(s.now, ticker, point), out.1), out.1),
      if strat.closeTime.None? then None else Some(TapedHooks(strat.closeTime.value)))
  }

  /** What an event adds to the tape of a tick replay. */
  function Hears(observes: bool, ticker: string, ev: ReplayEvent): seq<Heard> {
    match ev
    case PriceEvent(ts, market, price) => [Told(ts, market, price, ts)]
    case ScoreEvent(ts, point) => if observes then [Scored(ts, ticker, point)] else []
  }

  function HearsAll(observes: bool, ticker: string, events: seq<ReplayEvent>): seq<Heard> {
    if events == [] then []
    else HearsAll(observes, ticker, events[..|events| - 1]) + Hears(observes, ticker, events[|events| - 1])
  }

  // ---------------------------------------------------------------- recording changes nothing

  /** The recorded instance is the plain one with its tape, and what is collected is what the
      callbacks emitted, in order. */
  predicate Same<S(==)>(x: Instance<Taped<S>>, y: Instance<S>, tape: seq<Heard>) {
    x.state.state == y.state && x.state.tape == tape && x.collected == y.collected == x.state.emitted
  }

  lemma {:induction false} SameAnswers<S>(pServe: real, strat: Strategy<S>, s: Taped<S>, ev: ReplayEvent, answers: seq<real>)
    ensures Hear(pServe, Recording(strat), s, ev, answers) == Hear(pServe, strat, s.state, ev, answers)
    decreases if |answers| < strat.limit then strat.limit - |answers| else 0
  {
    var q := Asks(strat, s.state, ev, answers);
    assert Asks(Recording(strat), s, ev, answers) == q;
    if q.Some? {
      SameAnswers(pServe, strat, s, ev, answers + [Answer(pServe, q.value)]);
    }
  }

  lemma SameFeed<S>(pServe: real, strat: Strategy<S>, ticker: string, x: Instance<Taped<S>>, y: Instance<S>, tape: seq<Heard>,
                    ev: ReplayEvent)
    requires Same(x, y, tape)
    ensures Same(Feed(pServe, Recording(strat), ticker, x, ev), Feed(pServe, strat, ticker, y, ev),
                 tape + Hears(strat.observesScores, ticker, ev))
  {
    var s := Timed(Recording(strat), x, ev);
    assert s.state.state == Timed(strat, y, ev).state && s.state.now == ev.ts && s.state.tape == tape;
    SameAnswers(pServe, strat, s.state, ev, []);
    hide Hear;
  }

  lemma {:induction false} SameReplay<S>(pServe: real, strat: Strategy<S>, ticker: string, x: Instance<Taped<S>>, y: Instance<S>,
                                         tape: seq<Heard>, events: seq<ReplayEvent>)
    requires Same(x, y, tape)
    ensures Same(FeedAll(pServe, Recording(strat), ticker, x, events), FeedAll(pServe, strat, ticker, y, events),
                 tape + HearsAll(strat.observesScores, ticker, events))
  {
    if events != [] {
      var init, ev := events[..|events| - 1], events[|events| - 1];
      SameReplay(pServe, strat, ticker, x, y, tape, init);
      var heard := HearsAll(strat.observesScores, ticker, init);
      hide Feed, Same;
      SameFeed(pServe, strat, ticker, FeedAll(pServe, Recording(strat), ticker, x, init),
               FeedAll(pServe, strat, ticker, y, init), tape + heard, ev);
      assert tape + heard + Hears(strat.observesScores, ticker, ev) == tape + (heard + Hears(strat.observesScores, ticker, ev));
    }
  }

  /** Answer `i` is the plain one to what was asked in the light of those before it. */
  predicate Answered<S>(pServe: real, strat: Strategy<S>, s: S, ev: ReplayEvent, answers: seq<real>, i: nat)
    requires i < |answers|
  {
    var q := strat.nextQuery(s, ev, answers[..i]);
    i < strat.limit && q.Some? && answers[i] == Answer(pServe, q.value)
  }

  /** A callback gets its queries answered one by one, each asked in the light of the answers
      before it, until it has no more, or has made as many as it may. */
  lemma {:induction false} HearsAnswers<S>(pServe: real, strat: Strategy<S>, s: S, ev: ReplayEvent, answers: seq<real>)
    requires ev.PriceEvent? || strat.observesScores
    ensures var all := Hear(pServe, strat, s, ev, answers);
            && |answers| <= |all| && all[..|answers|] == answers
            && (forall i :: |answers| <= i < |all| ==> Answered(pServe, strat, s, ev, all, i))
            && (strat.nextQuery(s, ev, all).None? || |all| >= strat.limit)
    decreases if |answers| < strat.limit then strat.limit - |answers| else 0
  {
    hide Answer, Answered;
    var q := Asks(strat, s, ev, answers);
    if q.Some? {
      var more := answers + [Answer(pServe, q.value)];
      HearsAnswers(pServe, strat, s, ev, more);
      NextAnswered(pServe, strat, s, ev, answers, Hear(pServe, strat, s, ev, more));
    }
  }

  lemma NextAnswered<S>(pServe: real, strat: Strategy<S>, s: S, ev: ReplayEvent, answers: seq<real>, all: seq<real>)
    requires Asks(strat, s, ev, answers).Some?
    requires var more := answers + [Answer(pServe, Asks(strat, s, ev, answers).value)];
             |more| <= |all| && all[..|more|] == more
    ensures all[..|answers|] == answers && Answered(pServe, strat, s, ev, all, |answers|)
  {
    hide Answer;
    var more := answers + [Answer(pServe, Asks(strat, s, ev, answers).value)];
    assert all[..|answers|] == all[..|more|][..|answers|] == answers;
    assert all[|answers|] == all[..|more|][|answers|];
  }

  // ---------------------------------------------------------------- nothing is missed

  function TimeOf(h: Heard): int
    requires h.Told? || h.Scored?
  {
    h.now
  }

  /** Ticks and points only, in the order of their times. */
  predicate TicksOn(tape: seq<Heard>, ticker: string) {
    && (forall i :: 0 <= i < |tape| ==>
          (tape[i].Told? && tape[i].now == tape[i].ts) || (tape[i].Scored? && tape[i].ticker == ticker))
    && (forall i, j :: 0 <= i < j < |tape| ==> TimeOf(tape[i]) <= TimeOf(tape[j]))
  }

  lemma {:induction false} HeardCounts(observes: bool, ticker: string, events: seq<ReplayEvent>)
    ensures forall ts, m, x ::
              multiset(HearsAll(observes, ticker, events))[Told(ts, m, x, ts)] == multiset(events)[PriceEvent(ts, m, x)]
    ensures forall ts, row ::
              multiset(HearsAll(observes, ticker, events))[Scored(ts, ticker, row)] ==
                if observes then multiset(events)[ScoreEvent(ts, row)] else 0
  {
    if events != [] {
      var init, ev := events[..|events| - 1], events[|events| - 1];
      HeardCounts(observes, ticker, init);
      assert events == init + [ev];
      OneHeard(observes, ticker, ev);
      hide Hears;
    }
  }

  lemma OneHeard(observes: bool, ticker: string, ev: ReplayEvent)
    ensures forall ts, m, x :: multiset(Hears(observes, ticker, ev))[Told(ts, m, x, ts)] == multiset([ev])[PriceEvent(ts, m, x)]
    ensures forall ts, row ::
              multiset(Hears(observes, ticker, ev))[Scored(ts, ticker, row)] ==
                if observes then multiset([ev])[ScoreEvent(ts, row)] else 0
  {
  }

  lemma {:induction false} HeardInOrder(observes: bool, ticker: string, events: seq<ReplayEvent>)
    requires InTimeOrder(events)
    ensures TicksOn(HearsAll(observes, ticker, events), ticker)
    ensures forall i :: 0 <= i < |HearsAll(observes, ticker, events)| ==>
              events != [] && TimeOf(HearsAll(observes, ticker, events)[i]) <= events[|events| - 1].ts
  {
    if events != [] {
      var init := events[..|events| - 1];
      HeardInOrder(observes, ticker, init);
    }
  }

  /** The tape of one strategy on one match. */
  ghost function TapeOf<S(!new)>(e: Engine<S>, pServe: real, name: string, ticker: string): seq<Heard>
    requires name in e.factories && ticker in e.markets
  {
    var strat, home, away := Recording(e.factories[name]), e.HomeAway(ticker).0, e.HomeAway(ticker).1;
    FeedAll(pServe, strat, ticker, Instance(strat.register(strat.make, ticker, home, away), []), e.Events(ticker)).state.tape
  }

  /** Recording changes no order.  A replay registers the strategy for its match, then tells it
      each tick of both markets once and, if it observes scores, each point of the match once,
      and nothing else, all in time order and with the replay time set to the event's. */
  lemma ReplayHears<S(!new)>(e: Engine<S>, pServe: real, name: string, ticker: string)
    requires name in e.factories && ticker in e.markets && SortsByTime(e.sortEvents)
    ensures var strat, home, away := Recording(e.factories[name]), e.HomeAway(ticker).0, e.HomeAway(ticker).1;
            FeedAll(pServe, strat, ticker, Instance(strat.register(strat.make, ticker, home, away), []), e.Events(ticker)).collected
            == FeedAll(pServe, e.factories[name], ticker, e.Created(name, ticker), e.Events(ticker)).collected
    ensures var tape, home, away := TapeOf(e, pServe, name, ticker), e.HomeAway(ticker).0, e.HomeAway(ticker).1;
            var homeTicks := if home in e.tickPrices then e.tickPrices[home] else [];
            var awayTicks := if away in e.tickPrices then e.tickPrices[away] else [];
            var rows := if ticker in e.points then e.points[ticker] else [];
            && |tape| > 0 && tape[0] == Registered(ticker, home, away) && TicksOn(tape[1..], ticker)
            && (forall ts, m, x :: multiset(tape[1..])[Told(ts, m, x, ts)] ==
                  (if m == home then multiset(homeTicks)[TickPrice(ts, x)] else 0)
                  + (if m == away then multiset(awayTicks)[TickPrice(ts, x)] else 0))
            && (forall ts, row :: multiset(tape[1..])[Scored(ts, ticker, row)] ==
                  if e.factories[name].observesScores then multiset(rows)[(ts, row)] else 0)
  {
    var strat, home, away := e.factories[name], e.HomeAway(ticker).0, e.HomeAway(ticker).1;
    var taped := Recording(strat);
    var x, y := Instance(taped.register(taped.make, ticker, home, away), []), e.Created(name, ticker);
    var first, events := [Registered(ticker, home, away)], e.Events(ticker);
    assert Same(x, y, first);
    hide Recording, HearsAll;
    SameReplay(pServe, strat, ticker, x, y, first, events);
    e.MergedComplete(ticker, home, away);
    HeardCounts(strat.observesScores, ticker, events);
    HeardInOrder(strat.observesScores, ticker, events);
    assert (first + HearsAll(strat.observesScores, ticker, events))[1..] == HearsAll(strat.observesScores, ticker, events);
  }

  // ---------------------------------------------------------------- close-time replay

  function CloseHears(observes: bool, step: CloseStep): seq<Heard> {
    match step
    case Open(ticker, ts, home, away) => [CloseTime(ticker, ts)] + [Registered(ticker, home, away)]
    case Quote(PriceEvent(ts, market, price)) => [Told(0, market, price, ts)]
    case Quote(ScoreEvent(ts, point)) => if observes then [Scored(0, "", point)] else []
    case Shut(ticker) => [Unregistered(ticker)]
  }

  function CloseHearsAll(observes: bool, script: seq<CloseStep>): seq<Heard> {
    if script == [] then []
    else CloseHearsAll(observes, script[..|script| - 1]) + CloseHears(observes, script[|script| - 1])
  }

  predicate SameUntimed<S(==)>(x: Instance<Taped<S>>, y: Instance<S>, tape: seq<Heard>) {
    Same(x, y, tape) && x.state.now == 0
  }

  lemma SameCloseStep<S>(pServe: real, strat: Strategy<S>, hooks: CloseHooks<S>, x: Instance<Taped<S>>, y: Instance<S>,
                         tape: seq<Heard>, step: CloseStep)
    requires SameUntimed(x, y, tape)
    ensures SameUntimed(CloseApply(pServe, Recording(strat), TapedHooks(hooks), x, step), CloseApply(pServe, strat, hooks, y, step),
                        tape + CloseHears(strat.observesScores, step))
  {
    match step
    case Open(ticker, ts, home, away) =>
      assert tape + [CloseTime(ticker, ts)] + [Registered(ticker, home, away)]
          == tape + ([CloseTime(ticker, ts)] + [Registered(ticker, home, away)]);
    case Quote(ev) =>
      SameAnswers(pServe, strat, x.state, ev, []);
      hide Hear;
    case Shut(ticker) =>
  }

  lemma {:induction false} SameClose<S>(pServe: real, strat: Strategy<S>, hooks: CloseHooks<S>, script: seq<CloseStep>)
    ensures SameUntimed(CloseAll(pServe, Recording(strat), TapedHooks(hooks), script), CloseAll(pServe, strat, hooks, script),
                        CloseHearsAll(strat.observesScores, script))
  {
    if script != [] {
      var init, step := script[..|script| - 1], script[|script| - 1];
      SameClose(pServe, strat, hooks, init);
      hide CloseApply, SameUntimed, Recording, TapedHooks;
      SameCloseStep(pServe, strat, hooks, CloseAll(pServe, Recording(strat), TapedHooks(hooks), init),
                    CloseAll(pServe, strat, hooks, init), CloseHearsAll(strat.observesScores, init), step);
    }
  }

  lemma {:induction false} CloseHearsAppend(observes: bool, script: seq<CloseStep>, more: seq<CloseStep>)
    ensures CloseHearsAll(observes, script + more) == CloseHearsAll(observes, script) + CloseHearsAll(observes, more)
  {
    hide CloseHears;
    if more == [] {
      assert script + more == script;
    } else {
      var init, step := more[..|more| - 1], more[|more| - 1];
      CloseHearsAppend(observes, script, init);
      assert (script + more)[..|script + more| - 1] == script + init && (script + more)[|script + more| - 1] == step;
      Associates(CloseHearsAll(observes, script), CloseHearsAll(observes, init), CloseHears(observes, step));
    }
  }

  lemma Associates(x: seq<Heard>, y: seq<Heard>, z: seq<Heard>)
    ensures x + y + z == x + (y + z)
  {
  }

  function Quoted(market: string, ticks: seq<TickPrice>): seq<Heard> {
    seq(|ticks|, i requires 0 <= i < |ticks| => Told(0, market, ticks[i].price, ticks[i].ts))
  }

  lemma {:induction false} QuotesHeard(observes: bool, market: string, ticks: seq<TickPrice>)
    ensures CloseHearsAll(observes, Quotes(market, ticks)) == Quoted(market, ticks)
  {
    if ticks != [] {
      var init, t := ticks[..|ticks| - 1], ticks[|ticks| - 1];
      QuotesHeard(observes, market, init);
      assert Quotes(market, ticks)[..|ticks| - 1] == Quotes(market, init);
    }
  }

  ghost function CloseTape<S(!new)>(e: Engine<S>, pServe: real, name: string, tickers: seq<string>): seq<Heard>
    requires name in e.factories && e.factories[name].closeTime.Some?
  {
    var strat := e.factories[name];
    CloseAll(pServe, Recording(strat), TapedHooks(strat.closeTime.value), e.CloseScript(tickers)).state.tape
  }

  lemma CloseTapeIs<S(!new)>(e: Engine<S>, pServe: real, name: string, tickers: seq<string>)
    requires name in e.factories && e.factories[name].closeTime.Some?
    ensures CloseTape(e, pServe, name, tickers) == CloseHearsAll(e.factories[name].observesScores, e.CloseScript(tickers))
  {
    SameClose(pServe, e.factories[name], e.factories[name].closeTime.value, e.CloseScript(tickers));
  }

  lemma MatchHeard<S(!new)>(e: Engine<S>, observes: bool, ticker: string)
    requires ticker in e.markets && ticker in e.closeTs
    ensures var home, away := e.HomeAway(ticker).0, e.HomeAway(ticker).1;
            CloseHearsAll(observes, e.MatchScript(ticker)) ==
              [CloseTime(ticker, e.closeTs[ticker]), Registered(ticker, home, away)]
              + Quoted(home, if home in e.tickPrices then e.tickPrices[home] else [])
              + Quoted(away, if away in e.tickPrices then e.tickPrices[away] else []) + [Unregistered(ticker)]
  {
    var home, away := e.HomeAway(ticker).0, e.HomeAway(ticker).1;
    var a, b, c, d := [Open(ticker, e.closeTs[ticker], home, away)], Quotes(home, Get(e.tickPrices, home)),
                      Quotes(away, Get(e.tickPrices, away)), [Shut(ticker)];
    QuotesHeard(observes, home, Get(e.tickPrices, home));
    QuotesHeard(observes, away, Get(e.tickPrices, away));
    assert a[..0] == [] && d[..0] == [];
    assert CloseHearsAll(observes, a) == [CloseTime(ticker, e.closeTs[ticker]), Registered(ticker, home, away)];
    assert CloseHearsAll(observes, d) == [Unregistered(ticker)];
    assert e.MatchScript(ticker) == a + b + c + d;
    hide CloseHearsAll;
    CloseHearsAppend(observes, a, b);
    CloseHearsAppend(observes, a + b, c);
    CloseHearsAppend(observes, a + b + c, d);
  }

  /** In a close-time replay one instance serves all matches and no replay time is set: each
      match with two markets, one of them finalized, and a close time registers its close time
      and its markets, quotes the home and then the away ticks, and unregisters. */
  lemma CloseReplayHears<S(!new)>(e: Engine<S>, pServe: real, name: string, tickers: seq<string>, ticker: string)
    requires name in e.factories && e.factories[name].closeTime.Some? && ticker in e.markets
    ensures var home, away := e.HomeAway(ticker).0, e.HomeAway(ticker).1;
            CloseTape(e, pServe, name, tickers + [ticker]) ==
              CloseTape(e, pServe, name, tickers)
              + if |e.markets[ticker]| >= 2 && ticker in e.closeTs && e.closeTs[ticker] != 0 && ticker in e.finalized
                then [CloseTime(ticker, e.closeTs[ticker]), Registered(ticker, home, away)]
                     + Quoted(home, if home in e.tickPrices then e.tickPrices[home] else [])
                     + Quoted(away, if away in e.tickPrices then e.tickPrices[away] else []) + [Unregistered(ticker)]
                else []
  {
    var observes, before := e.factories[name].observesScores, e.CloseScript(tickers);
    CloseTapeIs(e, pServe, name, tickers);
    CloseTapeIs(e, pServe, name, tickers + [ticker]);
    assert (tickers + [ticker])[..|tickers|] == tickers;
    if e.Closing(ticker) {
      MatchHeard(e, observes, ticker);
      CloseHearsAppend(observes, before, e.MatchScript(ticker));
    }
    hide CloseHearsAll, CloseTape, Quoted;
  }

  // ---------------------------------------------------------------- matches

  /** Where in a list of matches those are that meet a condition. */
  function Where(tickers: seq<string>, meets: string -> bool): set<nat> {
    set i: nat | i < |tickers| && meets(tickers[i])
  }

  lemma WhereNext(tickers: seq<string>, meets: string -> bool)
    requires tickers != []
    ensures |Where(tickers, meets)| ==
            |Where(tickers[..|tickers| - 1], meets)| + if meets(tickers[|tickers| - 1]) then 1 else 0
  {
    var n, init := |tickers| - 1, tickers[..|tickers| - 1];
    if meets(tickers[n]) {
      assert Where(tickers, meets) == Where(init, meets) + {n};
    } else {
      assert Where(tickers, meets) == Where(init, meets);
    }
  }

  lemma {:induction false} MatchesAre<S(!new)>(e: Engine<S>, pServe: real, name: string, tickers: seq<string>, minPrice: real,
                                               two: string -> bool, closed: string -> bool)
    requires name in e.factories
    requires forall t :: two(t) <==> t in e.markets && |e.markets[t]| >= 2
    requires forall t :: closed(t) <==> two(t) && t in e.closeTs && e.closeTs[t] != 0 && t in e.finalized
    ensures e.TickResult(pServe, name, tickers, minPrice).matchCount == |Where(tickers, two)|
    ensures e.ClosingCount(tickers) == |Where(tickers, closed)|
  {
    if tickers == [] {
      assert Where(tickers, two) == {} && Where(tickers, closed) == {};
    } else {
      MatchesAre(e, pServe, name, tickers[..|tickers| - 1], minPrice, two, closed);
      CountNext(e, pServe, name, tickers, minPrice);
      hide Where;
      WhereNext(tickers, two);
      WhereNext(tickers, closed);
    }
  }

  /** A strategy's match count is the number of matches with two markets, and the broadcast's
      for a close-time strategy that of those also finalized with a close time. */
  lemma MatchesCounted<S(!new)>(e: Engine<S>, pServe: real, name: string, tickers: seq<string>, minPrice: real)
    requires name in e.factories
    ensures e.TickResult(pServe, name, tickers, minPrice).matchCount ==
            |Where(tickers, t => t in e.markets && |e.markets[t]| >= 2)|
    ensures e.ClosingCount(tickers) ==
            |Where(tickers, t => t in e.markets && |e.markets[t]| >= 2
                                 && t in e.closeTs && e.closeTs[t] != 0 && t in e.finalized)|
  {
    MatchesAre(e, pServe, name, tickers, minPrice,
               t => t in e.markets && |e.markets[t]| >= 2,
               t => t in e.markets && |e.markets[t]| >= 2 && t in e.closeTs && e.closeTs[t] != 0 && t in e.finalized);
  }

  lemma CountNext<S(!new)>(e: Engine<S>, pServe: real, name: string, tickers: seq<string>, minPrice: real)
    requires name in e.factories && tickers != []
    ensures var init, t := tickers[..|tickers| - 1], tickers[|tickers| - 1];
            && e.TickResult(pServe, name, tickers, minPrice).matchCount ==
                 e.TickResult(pServe, name, init, minPrice).matchCount + (if t in e.markets && |e.markets[t]| >= 2 then 1 else 0)
            && e.ClosingCount(tickers) ==
                 e.ClosingCount(init) + (if t in e.markets && |e.markets[t]| >= 2 && t in e.closeTs && e.closeTs[t] != 0
                                            && t in e.finalized then 1 else 0)
  {
  }

  /** A strategy's orders are those of its matches in the order of the matches. */
  lemma {:induction false} OrdersInOrder<S(!new)>(e: Engine<S>, pServe: real, name: string, before: seq<string>, after: seq<string>, minPrice: real)
    requires name in e.factories
    ensures e.TickResult(pServe, name, before + after, minPrice).orders ==
            e.TickResult(pServe, name, before, minPrice).orders + e.TickResult(pServe, name, after, minPrice).orders
  {
    hide Engine<S>.Alone, Engine<S>.Playable;
    if after == [] {
      assert before + after == before;
    } else {
      var init := after[..|after| - 1];
      OrdersInOrder(e, pServe, name, before, init, minPrice);
      assert (before + after)[..|before + after| - 1] == before + init;
    }
  }

  /** And a match's orders are those the strategy emitted there, resolved against its rows. */
  lemma OneMatch<S(!new)>(e: Engine<S>, pServe: real, name: string, ticker: string, minPrice: real)
    requires name in e.factories && ticker in e.markets && |e.markets[ticker]| >= 2
    ensures var strat, home, away := Recording(e.factories[name]), e.HomeAway(ticker).0, e.HomeAway(ticker).1;
            var end := FeedAll(pServe, strat, ticker, Instance(strat.register(strat.make, ticker, home, away), []), e.Events(ticker));
            e.TickResult(pServe, name, [ticker], minPrice) ==
              Result(Resolve(Results(e.markets[ticker]), minPrice, end.state.emitted).orders, 1)
  {
    var taped, home, away := Recording(e.factories[name]), e.HomeAway(ticker).0, e.HomeAway(ticker).1;
    var x, y := Instance(taped.register(taped.make, ticker, home, away), []), e.Created(name, ticker);
    assert Same(x, y, [Registered(ticker, home, away)]);
    hide Recording, Resolve;
    SameReplay(pServe, e.factories[name], ticker, x, y, [Registered(ticker, home, away)], e.Events(ticker));
    assert [ticker][..0] == [] && e.TickResult(pServe, name, [], minPrice) == Result([], 0);
    assert e.TickResult(pServe, name, [ticker], minPrice) == Result([] + e.Alone(pServe, name, ticker, minPrice), 0 + 1);
  }

  /** Close-time orders are resolved against the rows of all matches. */
  lemma {:induction false} AllRowsCollected<S(!new)>(e: Engine<S>, tickers: seq<string>, m: MarketRow)
    ensures m in e.AllRows(tickers) <==> exists i :: 0 <= i < |tickers| && tickers[i] in e.markets && m in e.markets[tickers[i]]
  {
    if tickers != [] {
      var init, t := tickers[..|tickers| - 1], tickers[|tickers| - 1];
      AllRowsCollected(e, init, m);
      assert tickers == init + [t];
      if i :| 0 <= i < |tickers| && tickers[i] in e.markets && m in e.markets[tickers[i]] {
        assert i < |init| ==> init[i] == tickers[i];
      }
      if i :| 0 <= i < |init| && init[i] in e.markets && m in e.markets[init[i]] {
        assert tickers[i] == init[i];
      }
      if t in e.markets && m in e.markets[t] {
        assert tickers[|init|] == t;
      }
    }
  }
}
