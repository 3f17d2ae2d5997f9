/** Markets do not interfere: resolving one list and keeping some markets' rows is the same
    as resolving those markets' orders alone.  Index back-references differ between the two
    runs, so the proof relates queue entries through their rank among the rows kept.
 */
module ResolverIsolation {
  import opened Resolver
  import opened ResolverFifo

  function Only(orders: seq<Order>, keep: set<string>): seq<Order> {
    if orders == [] then []
    else
      var init, o := orders[..|orders| - 1], orders[|orders| - 1];
      if o.market in keep then Only(init, keep) + [o] else Only(init, keep)
  }

  function OnlyRaw(raw: seq<RawOrder>, keep: set<string>): seq<RawOrder> {
    if raw == [] then []
    else
      var init, o := raw[..|raw| - 1], raw[|raw| - 1];
      if o.market in keep then OnlyRaw(init, keep) + [o] else OnlyRaw(init, keep)
  }

  /** Where row `i` lands among the rows kept. */
  function Rank(orders: seq<Order>, keep: set<string>, i: nat): nat
    requires i <= |orders|
  {
    |Only(orders[..i], keep)|
  }

  function Reindex(buys: seq<BuyEntry>, orders: seq<Order>, keep: set<string>): (r: seq<BuyEntry>)
    requires InRange(orders, buys)
    ensures |r| == |buys|
  {
    seq(|buys|, i requires 0 <= i < |buys| => buys[i].(orderIdx := Rank(orders, keep, buys[i].orderIdx)))
  }

  // ---------------------------------------------------------------- ranks

  lemma {:induction false} OnlyAt(orders: seq<Order>, keep: set<string>, i: nat)
    requires i < |orders| && orders[i].market in keep
    ensures Rank(orders, keep, i) < |Only(orders, keep)| && Only(orders, keep)[Rank(orders, keep, i)] == orders[i]
  {
    var init := orders[..|orders| - 1];
    if i < |orders| - 1 {
      assert init[..i] == orders[..i];
      OnlyAt(init, keep, i);
    }
  }

  lemma {:induction false} OnlyUpdate(orders: seq<Order>, keep: set<string>, i: nat, x: Order)
    requires i < |orders| && x.market == orders[i].market
    ensures orders[i].market in keep ==>
              Rank(orders, keep, i) < |Only(orders, keep)|
              && Only(orders[i := x], keep) == Only(orders, keep)[Rank(orders, keep, i) := x]
    ensures orders[i].market !in keep ==> Only(orders[i := x], keep) == Only(orders, keep)
  {
    var init := orders[..|orders| - 1];
    if i < |orders| - 1 {
      assert orders[i := x][..|orders| - 1] == init[i := x];
      assert init[..i] == orders[..i];
      OnlyUpdate(init, keep, i, x);
    } else {
      assert orders[i := x][..i] == init;
    }
  }

  predicate SameMarkets(xs: seq<Order>, ys: seq<Order>) {
    |xs| == |ys| && forall i :: 0 <= i < |xs| ==> xs[i].market == ys[i].market
  }

  lemma {:induction false} RankSame(xs: seq<Order>, ys: seq<Order>, keep: set<string>, i: nat)
    requires SameMarkets(xs, ys) && i <= |xs|
    ensures Rank(xs, keep, i) == Rank(ys, keep, i)
  {
    if i > 0 {
      assert xs[..i][..i - 1] == xs[..i - 1] && ys[..i][..i - 1] == ys[..i - 1];
      RankSame(xs, ys, keep, i - 1);
    }
  }

  lemma ReindexSame(buys: seq<BuyEntry>, xs: seq<Order>, ys: seq<Order>, keep: set<string>)
    requires SameMarkets(xs, ys) && InRange(xs, buys)
    ensures Reindex(buys, xs, keep) == Reindex(buys, ys, keep)
  {
    forall i | 0 <= i < |buys|
      ensures Reindex(buys, xs, keep)[i] == Reindex(buys, ys, keep)[i]
    {
      RankSame(xs, ys, keep, buys[i].orderIdx);
    }
  }

  lemma ReindexInRange(buys: seq<BuyEntry>, orders: seq<Order>, keep: set<string>, t: string)
    requires PointsAt(orders, buys, t) && t in keep
    ensures InRange(Only(orders, keep), Reindex(buys, orders, keep))
  {
    forall i | 0 <= i < |buys|
      ensures Reindex(buys, orders, keep)[i].orderIdx < |Only(orders, keep)|
    {
      OnlyAt(orders, keep, buys[i].orderIdx);
    }
  }

  lemma ReindexAppend(buys: seq<BuyEntry>, orders: seq<Order>, o: Order, keep: set<string>)
    requires InRange(orders, buys)
    ensures Reindex(buys, orders + [o], keep) == Reindex(buys, orders, keep)
  {
    forall i | 0 <= i < |buys|
      ensures Reindex(buys, orders + [o], keep)[i] == Reindex(buys, orders, keep)[i]
    {
      assert (orders + [o])[..buys[i].orderIdx] == orders[..buys[i].orderIdx];
    }
  }

  lemma OnlyAppend(orders: seq<Order>, o: Order, keep: set<string>)
    ensures Only(orders + [o], keep) == if o.market in keep then Only(orders, keep) + [o] else Only(orders, keep)
    ensures Rank(orders + [o], keep, |orders|) == |Only(orders, keep)|
  {
    assert (orders + [o])[..|orders|] == orders;
  }

  // ---------------------------------------------------------------- one sell

  lemma ReindexConsume(buys: seq<BuyEntry>, orders: seq<Order>, keep: set<string>, m: real)
    requires InRange(orders, buys) && buys != []
    ensures Consume(Reindex(buys, orders, keep), m) == Reindex(Consume(buys, m), orders, keep)
  {
  }

  lemma ClearedMarket(orders: seq<Order>, i: nat)
    requires i < |orders|
    ensures SameMarkets(orders, ClearRow(orders, i)) && Cleared(orders[i]).market == orders[i].market
  {
  }

  /** The outcome `r'` is what `r` looks like among the rows kept. */
  predicate SameMatch(r: Matched, r': Matched, keep: set<string>) {
    && InRange(r.orders, r.buys)
    && r'.orders == Only(r.orders, keep)
    && r'.buys == Reindex(r.buys, r.orders, keep)
    && r'.pnl == r.pnl
  }

  lemma SameMatchAdd(r: Matched, r': Matched, x: real, keep: set<string>)
    requires SameMatch(r, r', keep)
    ensures SameMatch(Matched(r.orders, r.buys, x + r.pnl), Matched(r'.orders, r'.buys, x + r'.pnl), keep)
  {
  }

  /** The first slice, seen from both sides. */
  lemma FirstSlice(orders: seq<Order>, buys: seq<BuyEntry>, t: string, m: real, keep: set<string>)
    requires PointsAt(orders, buys, t) && t in keep && buys != []
    ensures var kept := Reindex(buys, orders, keep);
            var rows, next := ClearRow(orders, buys[0].orderIdx), Consume(buys, m);
            && kept[0].size == buys[0].size && kept[0].price == buys[0].price
            && kept[0].orderIdx < |Only(orders, keep)|
            && SameMarkets(orders, rows) && PointsAt(rows, next, t)
            && ClearRow(Only(orders, keep), kept[0].orderIdx) == Only(rows, keep)
            && Consume(kept, m) == Reindex(next, rows, keep)
  {
    hide Cleared, Rank, Only;
    var i := buys[0].orderIdx;
    ClearedMarket(orders, i);
    OnlyAt(orders, keep, i);
    OnlyUpdate(orders, keep, i, Cleared(orders[i]));
    ReindexSame(Consume(buys, m), orders, ClearRow(orders, i), keep);
    ReindexConsume(buys, orders, keep, m);
  }

  lemma SameMarketsTrans(xs: seq<Order>, ys: seq<Order>, zs: seq<Order>)
    requires SameMarkets(xs, ys) && SameMarkets(ys, zs)
    ensures SameMarkets(xs, zs)
  {
  }

  lemma ConsumeShrinks(buys: seq<BuyEntry>, size: real)
    requires buys != []
    ensures var m := Min(size, buys[0].size);
            |Consume(buys, m)| < |buys| || (|Consume(buys, m)| == |buys| && size - m <= 0.0)
  {
  }

  lemma MatchNothing(orders: seq<Order>, buys: seq<BuyEntry>, size: real, price: real, keep: set<string>)
    requires InRange(orders, buys) && InRange(Only(orders, keep), Reindex(buys, orders, keep))
    requires size <= 0.0 || buys == []
    ensures SameMarkets(orders, MatchSell(orders, buys, size, price).orders)
    ensures SameMatch(MatchSell(orders, buys, size, price),
                      MatchSell(Only(orders, keep), Reindex(buys, orders, keep), size, price), keep)
  {
    hide Only, Rank;
  }

  lemma {:induction false} MatchKept(orders: seq<Order>, buys: seq<BuyEntry>, t: string, size: real, price: real, keep: set<string>)
    requires PointsAt(orders, buys, t) && t in keep
    ensures InRange(Only(orders, keep), Reindex(buys, orders, keep))
    ensures SameMarkets(orders, MatchSell(orders, buys, size, price).orders)
    ensures SameMatch(MatchSell(orders, buys, size, price),
                      MatchSell(Only(orders, keep), Reindex(buys, orders, keep), size, price), keep)
    decreases |buys|, size > 0.0
  {
    hide MatchSell, Only, Reindex, Rank, RoundTrip, SameMatch, SameMarkets, ClearRow, Consume;
    ReindexInRange(buys, orders, keep, t);
    if size <= 0.0 || buys == [] {
      MatchNothing(orders, buys, size, price, keep);
    } else {
      var i, m := buys[0].orderIdx, Min(size, buys[0].size);
      var rows, next := ClearRow(orders, i), Consume(buys, m);
      FirstSlice(orders, buys, t, m, keep);
      MatchUnfold(orders, buys, size, price);
      MatchUnfold(Only(orders, keep), Reindex(buys, orders, keep), size, price);
      ConsumeShrinks(buys, size);
      MatchKept(rows, next, t, size - m, price, keep);
      SameMatchAdd(MatchSell(rows, next, size - m, price),
                   MatchSell(Only(rows, keep), Reindex(next, rows, keep), size - m, price),
                   RoundTrip(price, buys[0].price, m), keep);
      SameMarketsTrans(orders, rows, MatchSell(rows, next, size - m, price).orders);
    }
  }

  lemma {:induction false} MatchDropped(orders: seq<Order>, buys: seq<BuyEntry>, t: string, size: real, price: real, keep: set<string>)
    requires PointsAt(orders, buys, t) && t !in keep
    ensures var r := MatchSell(orders, buys, size, price);
            SameMarkets(orders, r.orders) && Only(r.orders, keep) == Only(orders, keep)
    decreases |buys|, size > 0.0
  {
    hide RoundTrip, Cleared;
    if size > 0.0 && buys != [] {
      var i, m := buys[0].orderIdx, Min(size, buys[0].size);
      ClearedMarket(orders, i);
      OnlyUpdate(orders, keep, i, Cleared(orders[i]));
      assert PointsAt(ClearRow(orders, i), Consume(buys, m), t);
      MatchDropped(ClearRow(orders, i), Consume(buys, m), t, size - m, price, keep);
    }
  }

  // ---------------------------------------------------------------- whole runs

  lemma OpenPoints(b: Book, t: string)
    requires WellFormed(b)
    ensures PointsAt(b.orders, OpenOn(b, t), t) && InRange(b.orders, OpenOn(b, t))
  {
  }

  /** `b'` is what `b` looks like to someone who sees only the markets kept. */
  predicate Seen(b: Book, b': Book, keep: set<string>)
    requires WellFormed(b)
  {
    && b'.orders == Only(b.orders, keep)
    && forall t <- keep :: InRange(b.orders, OpenOn(b, t)) && OpenOn(b', t) == Reindex(OpenOn(b, t), b.orders, keep)
  }

  /** Rows rewritten in place and one row more: the other queues look the same. */
  lemma QueuesSeen(buys: seq<BuyEntry>, orders: seq<Order>, rows: seq<Order>, o: Order, keep: set<string>)
    requires InRange(orders, buys) && SameMarkets(orders, rows)
    ensures InRange(rows + [o], buys) && Reindex(buys, rows + [o], keep) == Reindex(buys, orders, keep)
  {
    ReindexSame(buys, orders, rows, keep);
    ReindexAppend(buys, rows, o, keep);
  }

  lemma TakeSell(b: Book, b': Book, keep: set<string>, o: RawOrder, result: string)
    requires WellFormed(b) && WellFormed(b') && Seen(b, b', keep) && o.market in keep && OpenOn(b, o.market) != []
    ensures InRange(b.orders, OpenOn(b, o.market)) && InRange(b'.orders, OpenOn(b', o.market))
    ensures var r := MatchSell(b.orders, OpenOn(b, o.market), o.size, o.price);
            var r' := MatchSell(b'.orders, OpenOn(b', o.market), o.size, o.price);
            var c := Book(r.orders + [SellOrder(o, result, r.pnl)], b.open[o.market := r.buys]);
            var c' := Book(r'.orders + [SellOrder(o, result, r'.pnl)], b'.open[o.market := r'.buys]);
            WellFormed(c) ==> Seen(c, c', keep)
  {
    var t := o.market;
    OpenPoints(b, t);
    OpenPoints(b', t);
    MatchKept(b.orders, OpenOn(b, t), t, o.size, o.price, keep);
    var r := MatchSell(b.orders, OpenOn(b, t), o.size, o.price);
    var row := SellOrder(o, result, r.pnl);
    var c := Book(r.orders + [row], b.open[t := r.buys]);
    OnlyAppend(r.orders, row, keep);
    ReindexAppend(r.buys, r.orders, row, keep);
    hide Reindex, MatchSell, Only;
    forall u | u in keep && u != t
      ensures InRange(c.orders, OpenOn(b, u)) && Reindex(OpenOn(b, u), c.orders, keep) == Reindex(OpenOn(b, u), b.orders, keep)
    {
      QueuesSeen(OpenOn(b, u), b.orders, r.orders, row, keep);
    }
  }

  lemma TakeBuy(b: Book, b': Book, keep: set<string>, t: string, row: Order, x: BuyEntry)
    requires WellFormed(b) && Seen(b, b', keep) && row.market == t && x.orderIdx == |b.orders|
    ensures var c := Book(b.orders + [row], b.open[t := OpenOn(b, t) + [x]]);
            var y := x.(orderIdx := |b'.orders|);
            WellFormed(c) ==>
              Seen(c, if t in keep then Book(b'.orders + [row], b'.open[t := OpenOn(b', t) + [y]]) else b', keep)
  {
    hide Rank, Only;
    var c := Book(b.orders + [row], b.open[t := OpenOn(b, t) + [x]]);
    OnlyAppend(b.orders, row, keep);
    OpenPoints(b, t);
    ReindexAppend(OpenOn(b, t), b.orders, row, keep);
    if t in keep {
      assert Reindex(OpenOn(b, t) + [x], c.orders, keep) ==
             Reindex(OpenOn(b, t), c.orders, keep) + [x.(orderIdx := |b'.orders|)];
    }
    hide Reindex;
    forall u | u in keep && u != t
      ensures InRange(c.orders, OpenOn(b, u)) && Reindex(OpenOn(b, u), c.orders, keep) == Reindex(OpenOn(b, u), b.orders, keep)
    {
      OpenPoints(b, u);
      ReindexAppend(OpenOn(b, u), b.orders, row, keep);
    }
  }

  lemma TakeElsewhere(b: Book, b': Book, keep: set<string>, o: RawOrder, result: string)
    requires WellFormed(b) && Seen(b, b', keep) && o.market !in keep
    ensures InRange(b.orders, OpenOn(b, o.market))
    ensures var r := MatchSell(b.orders, OpenOn(b, o.market), o.size, o.price);
            var c := Book(r.orders + [SellOrder(o, result, r.pnl)], b.open[o.market := r.buys]);
            WellFormed(c) ==> Seen(c, b', keep)
  {
    var t := o.market;
    OpenPoints(b, t);
    MatchDropped(b.orders, OpenOn(b, t), t, o.size, o.price, keep);
    var r := MatchSell(b.orders, OpenOn(b, t), o.size, o.price);
    var row := SellOrder(o, result, r.pnl);
    OnlyAppend(r.orders, row, keep);
    hide Reindex, MatchSell, Only;
    forall u | u in keep
      ensures InRange(r.orders + [row], OpenOn(b, u)) && Reindex(OpenOn(b, u), r.orders + [row], keep) == Reindex(OpenOn(b, u), b.orders, keep)
    {
      QueuesSeen(OpenOn(b, u), b.orders, r.orders, row, keep);
    }
  }

  lemma TakeSeen(results: map<string, string>, results': map<string, string>, minPrice: real,
                 b: Book, b': Book, keep: set<string>, o: RawOrder)
    requires WellFormed(b) && WellFormed(b') && Seen(b, b', keep)
    requires o.market in keep ==> ResultOf(results, o.market) == ResultOf(results', o.market)
    ensures WellFormed(Take(results, minPrice, b, o))
    ensures Seen(Take(results, minPrice, b, o), if o.market in keep then Take(results', minPrice, b', o) else b', keep)
  {
    var t, result := o.market, ResultOf(results, o.market);
    TakeWellFormed(results, minPrice, b, o);
    if Kept(results, minPrice, o) {
      if !IsSell(o) {
        TakeBuy(b, b', keep, t, BuyOrder(o, result), BuyEntry(o.price, o.size, |b.orders|));
      } else if OpenOn(b, t) != [] {
        if t in keep {
          TakeSell(b, b', keep, o, result);
        } else {
          TakeElsewhere(b, b', keep, o, result);
        }
      }
    }
  }

  lemma {:induction false} ResolveSeen(results: map<string, string>, results': map<string, string>, minPrice: real,
                                       raw: seq<RawOrder>, keep: set<string>)
    requires forall t <- keep :: ResultOf(results, t) == ResultOf(results', t)
    ensures Seen(Resolve(results, minPrice, raw), Resolve(results', minPrice, OnlyRaw(raw, keep)), keep)
  {
    if raw != [] {
      var init, o := raw[..|raw| - 1], raw[|raw| - 1];
      ResolveSeen(results, results', minPrice, init, keep);
      var b, b' := Resolve(results, minPrice, init), Resolve(results', minPrice, OnlyRaw(init, keep));
      TakeSeen(results, results', minPrice, b, b', keep, o);
      if o.market in keep {
        ResolveStep(results', minPrice, OnlyRaw(init, keep), o);
      }
    }
  }

  /** The rows of any set of markets are those of resolving their orders alone, under any
      results that agree on them. */
  lemma MarketsDoNotInterfere(results: map<string, string>, results': map<string, string>, minPrice: real,
                              raw: seq<RawOrder>, keep: set<string>)
    requires forall t <- keep :: ResultOf(results, t) == ResultOf(results', t)
    ensures Only(Resolve(results, minPrice, raw).orders, keep) == Resolve(results', minPrice, OnlyRaw(raw, keep)).orders
  {
    ResolveSeen(results, results', minPrice, raw, keep);
  }

  // ---------------------------------------------------------------- one match at a time

  function Tickers(mkts: seq<MarketRow>): set<string> {
    set m | m in mkts :: m.ticker
  }

  lemma {:induction false} ResultsKeys(mkts: seq<MarketRow>)
    ensures Results(mkts).Keys == Tickers(mkts)
  {
    if mkts != [] {
      var init, m := mkts[..|mkts| - 1], mkts[|mkts| - 1];
      ResultsKeys(init);
      assert mkts == init + [m];
      assert Tickers(mkts) == Tickers(init) + {m.ticker};
    }
  }

  lemma {:induction false} ResultsConcat(xs: seq<MarketRow>, ys: seq<MarketRow>)
    ensures Results(xs + ys) == Results(xs) + Results(ys)
  {
    if ys == [] {
      assert xs + ys == xs;
    } else {
      var init := ys[..|ys| - 1];
      assert (xs + ys)[..|xs + ys| - 1] == xs + init;
      ResultsConcat(xs, init);
    }
  }

  /** Resolving every match's orders in one list, against all market rows, gives each match
      the rows it gets on its own, when later matches do not reuse its tickers. */
  lemma OneListOrMany(before: seq<MarketRow>, mine: seq<MarketRow>, after: seq<MarketRow>, minPrice: real, raw: seq<RawOrder>)
    requires Tickers(mine) !! Tickers(after)
    ensures Only(Resolve(Results(before + mine + after), minPrice, raw).orders, Tickers(mine))
         == Resolve(Results(mine), minPrice, OnlyRaw(raw, Tickers(mine))).orders
  {
    ResultsConcat(before + mine, after);
    ResultsConcat(before, mine);
    ResultsKeys(mine);
    ResultsKeys(after);
    MarketsDoNotInterfere(Results(before + mine + after), Results(mine), minPrice, raw, Tickers(mine));
  }
}
