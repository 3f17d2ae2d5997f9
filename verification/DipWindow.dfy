/** What the buy-the-dip strategy measures a dip against: over any run of calls it remembers
    exactly a market's prices within the window, and a buy's dip is from the earliest of them.
    Also, exactly when it buys and sells.
 */
module DipWindow {
  import opened Wrappers
  import opened Kelly
  import opened Money
  import opened Resolver
  import opened Registry
  import opened BuyTheDip
  import opened DipRuns

  /** What a call adds to the prices seen on market `m`, and an unregistering takes away. */
  function Sees(w: World, before: seq<Sample>, call: Call, m: string): seq<Sample> {
    if call.Price? && call.market == m then before + [Sample(call.ts, call.price)]
    else if call.Unregister? && m in Listed(w.markets, call.event) then []
    else before
  }

  /** The prices a run has seen on market `m` since its event was last unregistered. */
  function History(cfg: Config, sizing: Sizing, calls: seq<Call>, m: string): seq<Sample> {
    if calls == [] then []
    else
      var init := calls[..|calls| - 1];
      Sees(Play(cfg, sizing, init).world, History(cfg, sizing, init, m), calls[|calls| - 1], m)
  }

  predicate InOrder(samples: seq<Sample>) {
    forall i, j :: 0 <= i < j < |samples| ==> samples[i].ts <= samples[j].ts
  }

  /** The samples no older than the cutoff. */
  function Since(samples: seq<Sample>, cutoff: int): seq<Sample> {
    if samples == [] then []
    else
      var s := samples[|samples| - 1];
      Since(samples[..|samples| - 1], cutoff) + if s.ts >= cutoff then [s] else []
  }

  lemma {:induction false} SinceNone(samples: seq<Sample>, cutoff: int)
    requires forall i :: 0 <= i < |samples| ==> samples[i].ts < cutoff
    ensures Since(samples, cutoff) == []
  {
    if samples != [] {
      SinceNone(samples[..|samples| - 1], cutoff);
    }
  }

  lemma {:induction false} SinceAll(samples: seq<Sample>, cutoff: int)
    requires forall i :: 0 <= i < |samples| ==> samples[i].ts >= cutoff
    ensures Since(samples, cutoff) == samples
  {
    if samples != [] {
      SinceAll(samples[..|samples| - 1], cutoff);
    }
  }

  lemma {:induction false} SinceAppend(x: seq<Sample>, y: seq<Sample>, cutoff: int)
    ensures Since(x + y, cutoff) == Since(x, cutoff) + Since(y, cutoff)
  {
    if y == [] {
      assert x + y == x;
    } else {
      SinceAppend(x, y[..|y| - 1], cutoff);
      assert (x + y)[..|x + y| - 1] == x + y[..|y| - 1];
    }
  }

  /** On samples in order, dropping old ones off the front leaves exactly the recent ones. */
  lemma KeptIsSince(all: seq<Sample>, kept: seq<Sample>, cutoff: int)
    requires InOrder(all) && KeepsSince(all, kept, cutoff)
    ensures kept == Since(all, cutoff)
  {
    var d := |all| - |kept|;
    assert all == all[..d] + kept;
    SinceNone(all[..d], cutoff);
    forall i | 0 <= i < |kept|
      ensures kept[i].ts >= cutoff
    {
      assert kept[i] == all[d + i] && kept[0] == all[d];
    }
    SinceAll(kept, cutoff);
    SinceAppend(all[..d], kept, cutoff);
  }

  lemma {:induction false} SinceTwice(samples: seq<Sample>, early: int, late: int)
    requires early <= late
    ensures Since(Since(samples, early), late) == Since(samples, late)
  {
    if samples != [] {
      var init, s := samples[..|samples| - 1], samples[|samples| - 1];
      SinceTwice(init, early, late);
      SinceAppend(Since(init, early), if s.ts >= early then [s] else [], late);
      SinceOne(s, late);
      assert Since([], late) == [];
    }
  }

  lemma SinceOne(s: Sample, cutoff: int)
    ensures Since([s], cutoff) == if s.ts >= cutoff then [s] else []
  {
    assert [s][..0] == [];
  }

  lemma {:induction false} SinceInOrder(samples: seq<Sample>, cutoff: int)
    requires InOrder(samples)
    ensures InOrder(Since(samples, cutoff))
    ensures forall i :: 0 <= i < |Since(samples, cutoff)| ==> samples != [] && Since(samples, cutoff)[i].ts <= samples[|samples| - 1].ts
  {
    if samples != [] {
      SinceInOrder(samples[..|samples| - 1], cutoff);
    }
  }

  // ---------------------------------------------------------------- runs

  function Cutoff(cfg: Config, ts: int): int { ts - cfg.windowSeconds * 1000 }

  /** What the strategy remembers of a market whose history is `h`. */
  predicate Remembers(cfg: Config, st: State, h: seq<Sample>, m: string) {
    if h == [] then m !in st.prices
    else m in st.prices && st.prices[m] == Since(h, Cutoff(cfg, h[|h| - 1].ts))
  }

  /** What was within an earlier window and is within a later one is all that is. */
  lemma NextWindow(h: seq<Sample>, s: Sample, early: int, late: int)
    requires early <= late
    ensures Since(Since(h, early) + [s], late) == Since(h + [s], late)
  {
    hide Since;
    SinceTwice(h, early, late);
    SinceAppend(Since(h, early), [s], late);
    SinceAppend(h, [s], late);
  }

  lemma StillInOrder(h: seq<Sample>, s: Sample, early: int)
    requires InOrder(h + [s])
    ensures InOrder(h) && InOrder(Since(h, early) + [s])
    ensures h != [] ==> h[|h| - 1].ts <= s.ts
  {
    assert forall i :: 0 <= i < |h| ==> (h + [s])[i] == h[i];
    assert (h + [s])[|h|] == s;
    SinceInOrder(h, early);
    hide Since;
  }

  /** A price in time order: the window is the history's within it. */
  lemma WindowIs(cfg: Config, st: State, h: seq<Sample>, t: Tick)
    requires Remembers(cfg, st, h, t.market) && InOrder(h + [Sample(t.ts, t.price)])
    ensures Window(cfg, st, t) == Since(h + [Sample(t.ts, t.price)], Cutoff(cfg, t.ts))
  {
    hide Since, Trim, InOrder, KeepsSince;
    var s, kept := Sample(t.ts, t.price), Seen(st.prices, t.market);
    TrimKeeps(kept + [s], Cutoff(cfg, t.ts));
    if h == [] {
      KeptIsSince(kept + [s], Window(cfg, st, t), Cutoff(cfg, t.ts));
    } else {
      var early := Cutoff(cfg, h[|h| - 1].ts);
      StillInOrder(h, s, early);
      NextWindow(h, s, early, Cutoff(cfg, t.ts));
      KeptIsSince(kept + [s], Window(cfg, st, t), Cutoff(cfg, t.ts));
    }
  }

  lemma HistoryNext(cfg: Config, sizing: Sizing, calls: seq<Call>, call: Call, m: string)
    ensures History(cfg, sizing, calls + [call], m) ==
            Sees(Play(cfg, sizing, calls).world, History(cfg, sizing, calls, m), call, m)
  {
    hide Play;
    assert (calls + [call])[..|calls|] == calls;
  }

  /** The times of every market's prices never go back. */
  predicate Timely(cfg: Config, sizing: Sizing, calls: seq<Call>, m: string) {
    InOrder(History(cfg, sizing, calls, m)) && (calls != [] ==> Timely(cfg, sizing, calls[..|calls| - 1], m))
  }

  lemma RemembersNext(cfg: Config, sizing: Sizing, calls: seq<Call>, call: Call, m: string)
    requires Remembers(cfg, Play(cfg, sizing, calls).world.state, History(cfg, sizing, calls, m), m)
    requires InOrder(History(cfg, sizing, calls + [call], m))
    ensures Remembers(cfg, Play(cfg, sizing, calls + [call]).world.state, History(cfg, sizing, calls + [call], m), m)
  {
    hide Play, History, Since, Window, Held;
    HistoryNext(cfg, sizing, calls, call, m);
    PlayNext(cfg, sizing, calls, call);
    var w := Play(cfg, sizing, calls).world;
    if call.Price? && call.market == m {
      WindowIs(cfg, w.state, History(cfg, sizing, calls, m), TickOf(w, call));
    }
  }

  /** Over every run in which a market's times never go back, the strategy remembers exactly
      the market's prices within the window. */
  lemma {:induction false} WindowExactly(cfg: Config, sizing: Sizing, calls: seq<Call>, m: string)
    requires Timely(cfg, sizing, calls, m)
    ensures Remembers(cfg, Play(cfg, sizing, calls).world.state, History(cfg, sizing, calls, m), m)
  {
    if calls != [] {
      hide Play, History, Remembers, InOrder;
      var init, call := calls[..|calls| - 1], calls[|calls| - 1];
      assert calls == init + [call];
      WindowExactly(cfg, sizing, init, m);
      RemembersNext(cfg, sizing, init, call, m);
    } else {
      hide InOrder;
    }
  }

  lemma AcceptedBuy(cfg: Config, sizing: Sizing, w: World, call: Call)
    requires call.Price?
    ensures var s := Accepted(cfg, sizing, w, call);
            s.Some? && !IsSell(s.value.order) ==> s == Entry(cfg, sizing, Window(cfg, w.state, TickOf(w, call)), TickOf(w, call))
  {
    hide Entry, Window, ExitOf;
  }

  /** An accepted buy's dip is the earliest price within the window less its own price, and
      there is an earlier price than its own. */
  lemma DipFromEarliest(cfg: Config, sizing: Sizing, calls: seq<Call>, call: Call)
    requires call.Price? && Timely(cfg, sizing, calls + [call], call.market)
    requires var s := Accepted(cfg, sizing, Play(cfg, sizing, calls).world, call); s.Some? && !IsSell(s.value.order)
    ensures var s := Accepted(cfg, sizing, Play(cfg, sizing, calls).world, call).value;
            var seen := Since(History(cfg, sizing, calls + [call], call.market), call.ts - cfg.windowSeconds * 1000);
            |seen| >= 2 && s.dipSize == seen[0].price - s.order.price && s.order.price == call.price
  {
    hide Play, History, Since, Window, Accepted, Entry, Remembers;
    var w, m := Play(cfg, sizing, calls).world, call.market;
    assert (calls + [call])[..|calls|] == calls;
    AcceptedBuy(cfg, sizing, w, call);
    WindowExactly(cfg, sizing, calls, m);
    HistoryNext(cfg, sizing, calls, call, m);
    WindowIs(cfg, w.state, History(cfg, sizing, calls, m), TickOf(w, call));
    EntryExactly(cfg, sizing, Window(cfg, w.state, TickOf(w, call)), TickOf(w, call));
  }

  // ---------------------------------------------------------------- when it buys and sells

  /** A buy is offered exactly when there is an earlier price in the window, the market is
      registered and its event at no set or match point, the drop from the window's first
      price reaches the threshold in whole cents, that price was high enough, and the price is
      tradeable.  It buys at that price with the edge, at least a cent, up to the window's
      first price or 99 cents, and at least one contract. */
  lemma EntryExactly(cfg: Config, sizing: Sizing, samples: seq<Sample>, t: Tick)
    ensures var s := Entry(cfg, sizing, samples, t);
            && (s.Some? <==>
                  && |samples| >= 2 && t.event != "" && !t.blocked
                  && Truncate((samples[0].price - t.price) * 100.0) >= cfg.dipThresholdCents
                  && samples[0].price >= cfg.minPreDipPrice && cfg.minEntryPrice <= t.price <= cfg.maxEntryPrice)
            && (s.Some? ==>
                  var conv := if samples[0].price > 0.99 then 0.99 else samples[0].price;
                  var edge, kelly := Truncate((conv - t.price) * 100.0 + 0.000000001), KellySize(conv, t.price, sizing);
                  && s.value.order.action == "buy" && s.value.order.side == "open"
                  && s.value.order.ts == t.ts && s.value.order.matchTicker == t.event && s.value.order.market == t.market
                  && s.value.order.price == t.price == s.value.entryPrice && s.value.dipSize == samples[0].price - t.price
                  && s.value.order.edgeCents == (if edge < 1 then 1 else edge)
                  && s.value.order.size == if kelly < 1.0 then 1.0 else kelly)
  {
    hide KellySize, Truncate;
  }

  /** A threshold of whole cents, at least one, is reached exactly by a drop of that much. */
  lemma ThresholdExactly(drop: real, cents: int)
    requires cents >= 1
    ensures Truncate(drop * 100.0) >= cents <==> drop * 100.0 >= cents as real
  {
    Truncates(drop * 100.0, Truncate(drop * 100.0));
  }

  /** A held position is offered for sale exactly when its market is registered and the price
      has recovered the take-profit share of the dip, or fallen by the stop loss, or the
      position is old enough; at the limit price in the first two cases, in that order, else at
      the market's. */
  lemma ExitExactly(cfg: Config, sizing: Sizing, st: State, t: Tick)
    requires t.market in st.positions
    ensures var pos, s := st.positions[t.market], Offered(cfg, sizing, st, t);
            var up, down := pos.entryPrice + cfg.takeProfitFrac * pos.dipSize, pos.entryPrice - cfg.stopLossCents as real / 100.0;
            && (s.Some? <==>
                  t.event != "" && (t.price >= up || t.price <= down || t.ts - pos.entryTS >= cfg.maxHoldSeconds * 1000))
            && (s.Some? ==>
                  && s.value.order.action == "sell" && s.value.order.side == "close"
                  && s.value.order.ts == t.ts && s.value.order.matchTicker == t.event && s.value.order.market == t.market
                  && s.value.order.price == (if t.price >= up then up else if t.price <= down then down else t.price)
                  && s.value.order.edgeCents == Truncate((s.value.order.price - pos.entryPrice) * 100.0 + 0.5)
                  && s.value.order.size == if pos.buySize < 1.0 then 1.0 else pos.buySize)
  {
    hide Truncate;
  }
}
