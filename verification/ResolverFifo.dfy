/** First-in first-out matching against a simple picture: the contracts bought on a market
    form one stream, and sells take them from its front.
 */
module ResolverFifo {
  import opened Resolver

  // ---------------------------------------------------------------- the stream

  predicate PositiveSizes(buys: seq<BuyEntry>) {
    forall i :: 0 <= i < |buys| ==> buys[i].size > 0.0
  }

  predicate PositiveOrders(raw: seq<RawOrder>) {
    forall i :: 0 <= i < |raw| ==> raw[i].size > 0.0
  }

  function Total(buys: seq<BuyEntry>): real {
    if buys == [] then 0.0 else buys[0].size + Total(buys[1..])
  }

  /** The stream without its first `m` contracts. */
  function Drop(buys: seq<BuyEntry>, m: real): seq<BuyEntry> {
    if buys == [] || m <= 0.0 then buys
    else if m >= buys[0].size then Drop(buys[1..], m - buys[0].size)
    else buys[0 := buys[0].(size := buys[0].size - m)]
  }

  function Worth(price: real, m: real): real { price * m }

  /** A NO contract pays a dollar if the market resolves to no, any other if it resolves to yes. */
  predicate PaysOut(action: string, result: string) {
    (action == "buy_no" && result == "no") || (action != "buy_no" && result == "yes")
  }

  /** What the first `m` contracts of the stream cost. */
  function CostOfFirst(buys: seq<BuyEntry>, m: real): real {
    if buys == [] || m <= 0.0 then 0.0
    else if m >= buys[0].size then Worth(buys[0].price, buys[0].size) + CostOfFirst(buys[1..], m - buys[0].size)
    else Worth(buys[0].price, m)
  }

  /** The stream bought on market `t`, each lot with the index of its output row. */
  function Lots(results: map<string, string>, minPrice: real, raw: seq<RawOrder>, t: string): seq<BuyEntry> {
    if raw == [] then []
    else
      var init, o := raw[..|raw| - 1], raw[|raw| - 1];
      var before := Lots(results, minPrice, init, t);
      if Kept(results, minPrice, o) && !IsSell(o) && o.market == t
      then before + [BuyEntry(o.price, o.size, |Resolve(results, minPrice, init).orders|)]
      else before
  }

  /** Contracts sold out of the stream: each sell takes its size, or what is left. */
  function Taken(results: map<string, string>, minPrice: real, raw: seq<RawOrder>, t: string): real {
    if raw == [] then 0.0
    else
      var init, o := raw[..|raw| - 1], raw[|raw| - 1];
      var before := Taken(results, minPrice, init, t);
      if Kept(results, minPrice, o) && IsSell(o) && o.market == t
      then before + Min(o.size, Total(Lots(results, minPrice, init, t)) - before)
      else before
  }

  // ---------------------------------------------------------------- stream algebra

  lemma {:induction false} TotalNonNegative(buys: seq<BuyEntry>)
    requires PositiveSizes(buys)
    ensures Total(buys) >= 0.0 && (Total(buys) == 0.0 <==> buys == [])
  {
    if buys != [] {
      TotalNonNegative(buys[1..]);
    }
  }

  lemma {:induction false} DropTotal(buys: seq<BuyEntry>, m: real)
    requires PositiveSizes(buys) && 0.0 <= m <= Total(buys)
    ensures PositiveSizes(Drop(buys, m)) && Total(Drop(buys, m)) == Total(buys) - m
  {
    if buys != [] && m > 0.0 {
      if m >= buys[0].size {
        DropTotal(buys[1..], m - buys[0].size);
      } else {
        assert Drop(buys, m)[1..] == buys[1..];
      }
    }
  }

  lemma {:induction false} DropDrop(buys: seq<BuyEntry>, m: real, k: real)
    requires PositiveSizes(buys) && 0.0 <= m && 0.0 <= k && m + k <= Total(buys)
    ensures Drop(Drop(buys, m), k) == Drop(buys, m + k)
    ensures CostOfFirst(Drop(buys, m), k) == CostOfFirst(buys, m + k) - CostOfFirst(buys, m)
  {
    if buys == [] || m == 0.0 || k == 0.0 {
    } else if m >= buys[0].size {
      hide Worth;
      DropDrop(buys[1..], m - buys[0].size, k);
      assert (m - buys[0].size) + k == m + k - buys[0].size;
    } else {
      var rest := Drop(buys, m);
      assert rest[1..] == buys[1..] && rest[0].price == buys[0].price;
      assert m + k >= buys[0].size <==> k >= rest[0].size;
      assert k - rest[0].size == m + k - buys[0].size;
    }
  }

  lemma {:induction false} DropAppend(buys: seq<BuyEntry>, x: BuyEntry, m: real)
    requires PositiveSizes(buys) && x.size > 0.0 && 0.0 <= m <= Total(buys)
    ensures Drop(buys + [x], m) == Drop(buys, m) + [x]
    ensures CostOfFirst(buys + [x], m) == CostOfFirst(buys, m)
    ensures Total(buys + [x]) == Total(buys) + x.size
  {
    hide Worth;
    if buys == [] {
      assert buys + [x] == [x] && [x][1..] == [];
    } else {
      assert (buys + [x])[1..] == buys[1..] + [x];
      TotalNonNegative(buys[1..]);
      if m >= buys[0].size {
        DropAppend(buys[1..], x, m - buys[0].size);
      } else {
        DropAppend(buys[1..], x, 0.0);
      }
    }
  }

  // ---------------------------------------------------------------- matching is dropping

  lemma WorthSplit(price: real, cost: real, m: real, rest: real)
    ensures RoundTrip(price, cost, m) + Worth(price, rest) == Worth(price, m + rest) - Worth(cost, m)
    ensures Worth(price, 0.0) == 0.0
  {
  }

  function ClearRow(orders: seq<Order>, i: nat): seq<Order>
    requires i < |orders|
  {
    orders[i := Cleared(orders[i])]
  }

  lemma MatchUnfold(orders: seq<Order>, buys: seq<BuyEntry>, size: real, price: real)
    requires InRange(orders, buys) && size > 0.0 && buys != []
    ensures var m := Min(size, buys[0].size);
            var rest := MatchSell(ClearRow(orders, buys[0].orderIdx), Consume(buys, m), size - m, price);
            MatchSell(orders, buys, size, price) ==
              Matched(rest.orders, rest.buys, RoundTrip(price, buys[0].price, m) + rest.pnl)
  {
    hide RoundTrip, Cleared;
  }

  /** A sell that uses up the oldest lot. */
  lemma MatchWhole(orders: seq<Order>, buys: seq<BuyEntry>, size: real, price: real)
    requires InRange(orders, buys) && buys != [] && 0.0 < buys[0].size <= size
    ensures var rest := MatchSell(ClearRow(orders, buys[0].orderIdx), buys[1..], size - buys[0].size, price);
            MatchSell(orders, buys, size, price) ==
              Matched(rest.orders, rest.buys, RoundTrip(price, buys[0].price, buys[0].size) + rest.pnl)
  {
    assert Consume(buys, buys[0].size) == buys[1..];
  }

  /** A sell that ends within the oldest lot. */
  lemma MatchPart(orders: seq<Order>, buys: seq<BuyEntry>, size: real, price: real)
    requires InRange(orders, buys) && buys != [] && 0.0 < size < buys[0].size
    ensures MatchSell(orders, buys, size, price) ==
              Matched(ClearRow(orders, buys[0].orderIdx), buys[0 := buys[0].(size := buys[0].size - size)],
                      RoundTrip(price, buys[0].price, size))
  {
    hide RoundTrip;
    assert size - size == 0.0;
  }

  lemma MatchNone(orders: seq<Order>, buys: seq<BuyEntry>, size: real, price: real)
    requires InRange(orders, buys) && (size <= 0.0 || buys == [])
    ensures MatchSell(orders, buys, size, price) == Matched(orders, buys, 0.0)
  {
  }

  /** One sell: it takes its size or what is left, off the front, and earns its price on
      them less what exactly those contracts cost. */
  lemma {:induction false} MatchIsDrop(orders: seq<Order>, buys: seq<BuyEntry>, size: real, price: real)
    requires InRange(orders, buys) && PositiveSizes(buys) && size >= 0.0
    ensures var r, k := MatchSell(orders, buys, size, price), Min(size, Total(buys));
            && r.buys == Drop(buys, k)
            && r.pnl == Worth(price, k) - CostOfFirst(buys, k)
    decreases |buys|
  {
    hide Worth, RoundTrip, MatchSell, ClearRow;
    TotalNonNegative(buys);
    if size == 0.0 || buys == [] {
      MatchNone(orders, buys, size, price);
      WorthSplit(price, 0.0, 0.0, 0.0);
    } else {
      var buy := buys[0];
      TotalNonNegative(buys[1..]);
      if size >= buy.size {
        var k := Min(size - buy.size, Total(buys[1..]));
        MatchWhole(orders, buys, size, price);
        MatchIsDrop(ClearRow(orders, buy.orderIdx), buys[1..], size - buy.size, price);
        WorthSplit(price, buy.price, buy.size, k);
        assert Min(size, Total(buys)) == buy.size + k;
      } else {
        MatchPart(orders, buys, size, price);
        WorthSplit(price, buy.price, size, 0.0);
      }
    }
  }

  // ---------------------------------------------------------------- whole runs

  lemma ResolveStep(results: map<string, string>, minPrice: real, raw: seq<RawOrder>, o: RawOrder)
    ensures Resolve(results, minPrice, raw + [o]) == Take(results, minPrice, Resolve(results, minPrice, raw), o)
  {
    assert (raw + [o])[..|raw|] == raw;
  }

  lemma TakeElsewhere(results: map<string, string>, minPrice: real, b: Book, o: RawOrder, t: string)
    requires WellFormed(b) && (o.market != t || !Kept(results, minPrice, o))
    ensures OpenOn(Take(results, minPrice, b, o), t) == OpenOn(b, t)
  {
    hide MatchSell;
  }

  /** Of the stream `lots`, `m` contracts have gone and the rest is the queue. */
  predicate Queued(lots: seq<BuyEntry>, m: real, queue: seq<BuyEntry>) {
    PositiveSizes(lots) && 0.0 <= m <= Total(lots) && queue == Drop(lots, m)
  }

  /** A sell takes `k` contracts more off the front of the stream ... */
  lemma QueuedSell(results: map<string, string>, minPrice: real, b: Book, o: RawOrder, lots: seq<BuyEntry>, m: real)
    requires WellFormed(b) && Kept(results, minPrice, o) && IsSell(o) && o.size > 0.0
    requires Queued(lots, m, OpenOn(b, o.market))
    ensures var k := Min(o.size, Total(lots) - m);
            Queued(lots, m + k, OpenOn(Take(results, minPrice, b, o), o.market))
  {
    hide MatchSell, Take, WellFormed, CostOfFirst, PositiveSizes;
    var queue := OpenOn(b, o.market);
    TakeSell(results, minPrice, b, o);
    DropTotal(lots, m);
    TotalNonNegative(queue);
    MatchIsDrop(b.orders, queue, o.size, o.price);
    DropDrop(lots, m, Min(o.size, Total(lots) - m));
  }

  /** ... and a buy adds its lot at the end. */
  lemma QueuedBuy(results: map<string, string>, minPrice: real, b: Book, o: RawOrder, lots: seq<BuyEntry>, m: real)
    requires WellFormed(b) && Kept(results, minPrice, o) && !IsSell(o) && o.size > 0.0
    requires Queued(lots, m, OpenOn(b, o.market))
    ensures Queued(lots + [BuyEntry(o.price, o.size, |b.orders|)], m, OpenOn(Take(results, minPrice, b, o), o.market))
  {
    hide MatchSell, CostOfFirst, WellFormed, Drop, Total;
    DropAppend(lots, BuyEntry(o.price, o.size, |b.orders|), m);
  }

  /** What one more order on market `t` does to the stream and to what is taken of it. */
  lemma LotsStep(results: map<string, string>, minPrice: real, raw: seq<RawOrder>, o: RawOrder, t: string)
    ensures var lots, m := Lots(results, minPrice, raw, t), Taken(results, minPrice, raw, t);
            var lots', m' := Lots(results, minPrice, raw + [o], t), Taken(results, minPrice, raw + [o], t);
            if !Kept(results, minPrice, o) || o.market != t then lots' == lots && m' == m
            else if IsSell(o) then lots' == lots && m' == m + Min(o.size, Total(lots) - m)
            else lots' == lots + [BuyEntry(o.price, o.size, |Resolve(results, minPrice, raw).orders|)] && m' == m
  {
    hide Resolve, Total, Kept;
    assert (raw + [o])[..|raw|] == raw;
  }

  lemma QueuedKept(results: map<string, string>, minPrice: real, raw: seq<RawOrder>, o: RawOrder)
    requires Kept(results, minPrice, o) && o.size > 0.0
    requires var t := o.market;
             Queued(Lots(results, minPrice, raw, t), Taken(results, minPrice, raw, t), OpenOn(Resolve(results, minPrice, raw), t))
    ensures var t := o.market;
            Queued(Lots(results, minPrice, raw + [o], t), Taken(results, minPrice, raw + [o], t),
                   OpenOn(Resolve(results, minPrice, raw + [o]), t))
  {
    hide Take, OpenOn, Resolve, Queued, Lots, Taken, Total, Kept, WellFormed;
    var b, lots, m := Resolve(results, minPrice, raw), Lots(results, minPrice, raw, o.market), Taken(results, minPrice, raw, o.market);
    ResolveStep(results, minPrice, raw, o);
    LotsStep(results, minPrice, raw, o, o.market);
    if IsSell(o) {
      QueuedSell(results, minPrice, b, o, lots, m);
    } else {
      QueuedBuy(results, minPrice, b, o, lots, m);
    }
  }

  lemma QueuedElsewhere(results: map<string, string>, minPrice: real, raw: seq<RawOrder>, o: RawOrder, t: string)
    requires o.market != t || !Kept(results, minPrice, o)
    requires Queued(Lots(results, minPrice, raw, t), Taken(results, minPrice, raw, t), OpenOn(Resolve(results, minPrice, raw), t))
    ensures Queued(Lots(results, minPrice, raw + [o], t), Taken(results, minPrice, raw + [o], t),
                   OpenOn(Resolve(results, minPrice, raw + [o]), t))
  {
    hide Take, OpenOn, Resolve, Queued, Lots, Taken, Total, Kept, WellFormed;
    ResolveStep(results, minPrice, raw, o);
    LotsStep(results, minPrice, raw, o, t);
    TakeElsewhere(results, minPrice, Resolve(results, minPrice, raw), o, t);
  }

  lemma EmptyQueue(results: map<string, string>, minPrice: real, t: string)
    ensures Queued(Lots(results, minPrice, [], t), Taken(results, minPrice, [], t), OpenOn(Resolve(results, minPrice, []), t))
  {
  }

  /** After any orders, each market's queue is its stream without the contracts taken. */
  lemma {:induction false} FifoQueue(results: map<string, string>, minPrice: real, raw: seq<RawOrder>, t: string)
    requires PositiveOrders(raw)
    ensures Queued(Lots(results, minPrice, raw, t), Taken(results, minPrice, raw, t), OpenOn(Resolve(results, minPrice, raw), t))
  {
    hide Queued, Lots, Taken, OpenOn, Resolve, Kept;
    if raw == [] {
      EmptyQueue(results, minPrice, t);
    } else {
      var init, o := raw[..|raw| - 1], raw[|raw| - 1];
      assert raw == init + [o];
      FifoQueue(results, minPrice, init, t);
      if o.market == t && Kept(results, minPrice, o) {
        QueuedKept(results, minPrice, init, o);
      } else {
        QueuedElsewhere(results, minPrice, init, o, t);
      }
    }
  }

  /** Taking a sell: no row without open buys, else the match and one row. */
  lemma TakeSell(results: map<string, string>, minPrice: real, b: Book, o: RawOrder)
    requires WellFormed(b) && Kept(results, minPrice, o) && IsSell(o)
    ensures InRange(b.orders, OpenOn(b, o.market))
    ensures var queue := OpenOn(b, o.market);
            var r := MatchSell(b.orders, queue, o.size, o.price);
            Take(results, minPrice, b, o) ==
              if queue == [] then b
              else Book(r.orders + [SellOrder(o, ResultOf(results, o.market), r.pnl)], b.open[o.market := r.buys])
  {
    hide MatchSell;
    assert o.market in b.open ==> PointsAt(b.orders, b.open[o.market], o.market);
  }

  lemma SellOrderFields(o: RawOrder, result: string, pnl: real)
    ensures var row := SellOrder(o, result, pnl); row.pnl == pnl && row.market == o.market && row.side == "close"
  {
  }

  /** The row of a sell: with `m` contracts of the stream already gone it sells `k` more,
      and its P&L is its price on those `k` less the cost of exactly the contracts from
      `m` to `m + k`.  With nothing left it leaves no row. */
  lemma SellRow(results: map<string, string>, minPrice: real, raw: seq<RawOrder>, o: RawOrder)
    requires PositiveOrders(raw + [o]) && Kept(results, minPrice, o) && IsSell(o)
    ensures var b, b' := Resolve(results, minPrice, raw), Resolve(results, minPrice, raw + [o]);
            var lots, m := Lots(results, minPrice, raw, o.market), Taken(results, minPrice, raw, o.market);
            var k := Min(o.size, Total(lots) - m);
            && Taken(results, minPrice, raw + [o], o.market) == m + k
            && (k == 0.0 ==> b' == b)
            && (k > 0.0 ==>
                 && |b'.orders| == |b.orders| + 1
                 && b'.orders[|b.orders|].pnl ==
                      Worth(o.price, k) - (CostOfFirst(lots, m + k) - CostOfFirst(lots, m))
                 && b'.orders[|b.orders|].side == "close")
  {
    hide Worth, MatchSell, CostOfFirst, Drop, Total, Resolve, Lots, Taken, Take, WellFormed, OpenOn, Kept,
         PositiveSizes, InRange, SellOrder, ResultOf;
    assert PositiveOrders(raw) && o.size > 0.0 by {
      assert forall i :: 0 <= i < |raw| ==> raw[i] == (raw + [o])[i];
      assert (raw + [o])[|raw|] == o;
    }
    var b := Resolve(results, minPrice, raw);
    FifoQueue(results, minPrice, raw, o.market);
    ResolveStep(results, minPrice, raw, o);
    LotsStep(results, minPrice, raw, o, o.market);
    TakeSell(results, minPrice, b, o);
    SellAgainst(b, o, Lots(results, minPrice, raw, o.market), Taken(results, minPrice, raw, o.market));
    SellOrderFields(o, ResultOf(results, o.market), MatchSell(b.orders, OpenOn(b, o.market), o.size, o.price).pnl);
  }

  lemma SellAgainst(b: Book, o: RawOrder, lots: seq<BuyEntry>, m: real)
    requires WellFormed(b) && o.size > 0.0
    requires PositiveSizes(lots) && 0.0 <= m <= Total(lots) && OpenOn(b, o.market) == Drop(lots, m)
    ensures InRange(b.orders, OpenOn(b, o.market))
    ensures var k := Min(o.size, Total(lots) - m);
            && (k == 0.0 <==> OpenOn(b, o.market) == [])
            && MatchSell(b.orders, OpenOn(b, o.market), o.size, o.price).pnl ==
                 Worth(o.price, k) - (CostOfFirst(lots, m + k) - CostOfFirst(lots, m))
  {
    hide Worth, MatchSell, CostOfFirst, Drop, Total, WellFormed, PositiveSizes, InRange, OpenOn;
    OpenInRange(b, o.market);
    DropTotal(lots, m);
    TotalNonNegative(Drop(lots, m));
    MatchIsDrop(b.orders, Drop(lots, m), o.size, o.price);
    DropDrop(lots, m, Min(o.size, Total(lots) - m));
  }

  lemma OpenInRange(b: Book, t: string)
    requires WellFormed(b)
    ensures InRange(b.orders, OpenOn(b, t))
  {
    assert t in b.open ==> PointsAt(b.orders, b.open[t], t);
  }
}
