/** A backtest that loads the whole book still trades on the past only. */
module NoLookAhead {
  import opened Wrappers
  import opened Kelly
  import opened BookPressure

  predicate Sorted(series: seq<BookTick>) {
    forall i, j :: 0 <= i < j < |series| ==> series[i].ts <= series[j].ts
  }

  /** The ticks up to time `t`, as someone living at `t` has seen them. */
  function UpTo(series: seq<BookTick>, t: int): seq<BookTick> {
    if series == [] then []
    else
      var init, tick := series[..|series| - 1], series[|series| - 1];
      if tick.ts <= t then UpTo(init, t) + [tick] else UpTo(init, t)
  }

  /** The first `n` ticks are those up to time `t`. */
  predicate Splits(series: seq<BookTick>, t: int, n: nat) {
    && n <= |series|
    && (forall i :: 0 <= i < n ==> series[i].ts <= t)
    && (forall i :: n <= i < |series| ==> series[i].ts > t)
  }

  lemma SplitsAppend(init: seq<BookTick>, tick: BookTick, t: int, n: nat)
    requires Sorted(init + [tick]) && Splits(init, t, n)
    ensures Sorted(init)
    ensures if tick.ts <= t then n == |init| && Splits(init + [tick], t, n + 1) else Splits(init + [tick], t, n)
  {
    var series := init + [tick];
    assert forall i :: 0 <= i < |init| ==> series[i] == init[i];
    assert series[|init|] == tick;
    assert n < |init| ==> series[n].ts <= series[|init|].ts;
  }

  /** On a sorted series that is a prefix, ending where the search lands. */
  lemma {:induction false} UpToPrefix(series: seq<BookTick>, t: int)
    requires Sorted(series)
    ensures var n := |UpTo(series, t)|; Splits(series, t, n) && UpTo(series, t) == series[..n]
  {
    if series != [] {
      var init, tick := series[..|series| - 1], series[|series| - 1];
      UpToPrefix(init, t);
      assert series == init + [tick];
      SplitsAppend(init, tick, t, |UpTo(init, t)|);
    }
  }

  lemma {:induction false} SearchFinds(series: seq<BookTick>, t: int, n: nat, lo: nat, hi: nat)
    requires lo <= n <= hi <= |series| && Splits(series, t, n)
    ensures Search(series, t, lo, hi) == n
    decreases hi - lo
  {
    if lo < hi {
      var mid := (lo + hi) / 2;
      if series[mid].ts > t {
        SearchFinds(series, t, n, lo, mid);
      } else {
        SearchFinds(series, t, n, mid + 1, hi);
      }
    }
  }

  function Series(books: Books, market: string): seq<BookTick> {
    if market in books then books[market] else []
  }

  /** The lookup returns the last tick at or before the query time. */
  lemma BookAtIsLast(books: Books, market: string, t: int)
    requires Sorted(Series(books, market))
    ensures var seen := UpTo(Series(books, market), t);
            BookAt(books, market, t) == if seen == [] then None else Some(seen[|seen| - 1])
  {
    var series := Series(books, market);
    UpToPrefix(series, t);
    SearchFinds(series, t, |UpTo(series, t)|, 0, |series|);
  }

  lemma {:induction false} UpToUpTo(series: seq<BookTick>, t: int, horizon: int)
    requires t <= horizon
    ensures UpTo(UpTo(series, horizon), t) == UpTo(series, t)
  {
    if series != [] {
      var init, tick := series[..|series| - 1], series[|series| - 1];
      UpToUpTo(init, t, horizon);
      if tick.ts <= horizon {
        var seen := UpTo(init, horizon);
        assert (seen + [tick])[..|seen|] == seen;
      }
    }
  }

  /** Sorted books that agree on every tick up to the horizon. */
  ghost predicate Agree(books: Books, books': Books, horizon: int) {
    forall m: string ::
      && Sorted(Series(books, m)) && Sorted(Series(books', m))
      && UpTo(Series(books, m), horizon) == UpTo(Series(books', m), horizon)
  }

  lemma SamePressure(cfg: Config, books: Books, books': Books, horizon: int, e: Event)
    requires Agree(books, books', horizon) && (e.Price? ==> e.ts <= horizon)
    ensures PressureFor(cfg, books, e) == PressureFor(cfg, books', e)
  {
    if e.Price? {
      BookAtIsLast(books, e.market, e.ts);
      BookAtIsLast(books', e.market, e.ts);
      UpToUpTo(Series(books, e.market), e.ts, horizon);
      UpToUpTo(Series(books', e.market), e.ts, horizon);
      assert UpTo(Series(books, e.market), horizon) == UpTo(Series(books', e.market), horizon);
    }
  }

  // ---------------------------------------------------------------- runs

  datatype Run = Run(state: State, offers: seq<Option<Order>>)

  /** A run from an empty state, with the order offered at each event. */
  function Play(cfg: Config, sizing: Sizing, books: Books, events: seq<Event>): (r: Run)
    ensures |r.offers| == |events|
  {
    if events == [] then Run(Fresh, [])
    else
      var before := Play(cfg, sizing, books, events[..|events| - 1]);
      var out := Step(cfg, sizing, books, before.state, events[|events| - 1]);
      Run(out.state, before.offers + [out.offered])
  }

  predicate Before(events: seq<Event>, horizon: int) {
    forall i :: 0 <= i < |events| && events[i].Price? ==> events[i].ts <= horizon
  }

  lemma {:induction false} SameRun(cfg: Config, sizing: Sizing, books: Books, books': Books, horizon: int, events: seq<Event>)
    requires Agree(books, books', horizon) && Before(events, horizon)
    ensures Play(cfg, sizing, books, events) == Play(cfg, sizing, books', events)
  {
    if events != [] {
      SameRun(cfg, sizing, books, books', horizon, events[..|events| - 1]);
      SamePressure(cfg, books, books', horizon, events[|events| - 1]);
    }
  }

  lemma {:induction false} OffersPrefix(cfg: Config, sizing: Sizing, books: Books, events: seq<Event>, n: nat)
    requires n <= |events|
    ensures Play(cfg, sizing, books, events).offers[..n] == Play(cfg, sizing, books, events[..n]).offers
  {
    if n == |events| {
      assert events[..n] == events;
    } else {
      var init := events[..|events| - 1];
      OffersPrefix(cfg, sizing, books, init, n);
      assert init[..n] == events[..n];
    }
  }

  /** No look-ahead: two runs on the same prices, points and answers, over books that agree
      up to the horizon, offer the same orders at every event up to it, whatever the books
      and the events say later. */
  lemma NoLookAhead(cfg: Config, sizing: Sizing, books: Books, books': Books, horizon: int,
                    events: seq<Event>, events': seq<Event>, n: nat)
    requires Agree(books, books', horizon)
    requires n <= |events| && n <= |events'| && events[..n] == events'[..n] && Before(events[..n], horizon)
    ensures Play(cfg, sizing, books, events).offers[..n] == Play(cfg, sizing, books', events').offers[..n]
  {
    OffersPrefix(cfg, sizing, books, events, n);
    OffersPrefix(cfg, sizing, books', events', n);
    SameRun(cfg, sizing, books, books', horizon, events[..n]);
  }
}
