/** What each raw order does to the output, row by row, and how contracts settle. */
module ResolverRows {
  import opened Resolver
  import opened ResolverFifo

  /** A market's result is the one in its last row, and none for a market without a row. */
  lemma {:induction false} LastRowDecides(mkts: seq<MarketRow>, i: nat)
    requires i < |mkts| && forall j :: i < j < |mkts| ==> mkts[j].ticker != mkts[i].ticker
    ensures ResultOf(Results(mkts), mkts[i].ticker) == mkts[i].result
  {
    var init := mkts[..|mkts| - 1];
    if i < |mkts| - 1 {
      LastRowDecides(init, i);
    }
  }

  lemma {:induction false} NoRowNoResult(mkts: seq<MarketRow>, ticker: string)
    requires forall j :: 0 <= j < |mkts| ==> mkts[j].ticker != ticker
    ensures ResultOf(Results(mkts), ticker) == ""
  {
    if mkts != [] {
      NoRowNoResult(mkts[..|mkts| - 1], ticker);
    }
  }

  /** An order that leaves no trace: its market is unresolved, or its price is under the
      filter, or it is a sell with nothing open. */
  predicate Traceless(results: map<string, string>, minPrice: real, b: Book, o: RawOrder) {
    || o.market !in results || results[o.market] == ""
    || (minPrice > 0.0 && o.price < minPrice)
    || ((o.action == "sell" || o.side == "close") && (o.market !in b.open || b.open[o.market] == []))
  }

  /** The parts of a row that are copied from its order. */
  predicate Copies(row: Order, o: RawOrder, result: string) {
    && row.matchTicker == o.matchTicker && row.market == o.market && row.context == o.context && row.setNum == o.setNumber
    && row.price == o.price && row.edgeCents == o.edgeCents && row.size == o.size && row.ts == o.ts && row.result == result
  }

  /** Every order leaves no trace or one row of its own, the last.  A buy's row is its
      settlement: a dollar less its price per contract if it pays, else minus its price; a
      sell's is won exactly if it earns something. */
  lemma OneOrder(results: map<string, string>, minPrice: real, raw: seq<RawOrder>, o: RawOrder)
    ensures var b, b' := Resolve(results, minPrice, raw), Resolve(results, minPrice, raw + [o]);
            if Traceless(results, minPrice, b, o) then b' == b
            else
              && |b'.orders| == |b.orders| + 1
              && var row := b'.orders[|b.orders|];
                 && Copies(row, o, results[o.market])
                 && if o.action == "sell" || o.side == "close" then row.side == "close" && (row.won <==> row.pnl > 0.0)
                    else
                      && b'.orders == b.orders + [row] && row.side == "open"
                      && (row.won <==> if o.action == "buy_no" then results[o.market] == "no" else results[o.market] == "yes")
                      && row.pnl == if row.won then o.size * (1.0 - o.price) else -o.size * o.price
  {
    ResolveStep(results, minPrice, raw, o);
    var b := Resolve(results, minPrice, raw);
    if o.market in b.open {
      assert PointsAt(b.orders, b.open[o.market], o.market);
    }
    hide Resolve, MatchSell;
  }

  /** A hedge settles to nothing: a YES buy and a NO buy of the same size on one market, at
      prices that add to a dollar.  Exactly one of them wins, the YES buy if the market
      resolves to yes and the NO buy if to no. */
  lemma HedgeSettles(results: map<string, string>, minPrice: real, raw: seq<RawOrder>, yes: RawOrder, no: RawOrder)
    requires yes.market == no.market && yes.market in results && results[yes.market] in {"yes", "no"}
    requires yes.action == "buy" && no.action == "buy_no" && yes.side != "close" && no.side != "close"
    requires yes.size == no.size && yes.price + no.price == 1.0
    requires minPrice > 0.0 ==> yes.price >= minPrice && no.price >= minPrice
    ensures var before, rows := Resolve(results, minPrice, raw).orders, Resolve(results, minPrice, raw + [yes] + [no]).orders;
            && |rows| == |before| + 2 && rows[..|before|] == before
            && rows[|before|].pnl + rows[|before| + 1].pnl == 0.0
            && (rows[|before|].won <==> results[yes.market] == "yes")
            && (rows[|before| + 1].won <==> results[yes.market] == "no")
  {
    hide Resolve;
    OneOrder(results, minPrice, raw, yes);
    OneOrder(results, minPrice, raw + [yes], no);
    HedgePays(yes.size, yes.price, no.price);
  }

  lemma HedgePays(n: real, p: real, q: real)
    requires p + q == 1.0
    ensures n * (1.0 - p) + -n * q == 0.0 && -n * p + n * (1.0 - q) == 0.0
  {
    assert 1.0 - p == q && 1.0 - q == p;
  }

  /** Ten NO contracts at 40 cents on a market that resolves to no: six dollars, won. */
  lemma NoBuyWins(ticker: string)
    ensures var o := RawOrder(0, "", ticker, "buy_no", "open", "", 0, 0.4, 0, 10.0);
            var rows := Resolve(map[ticker := "no"], 0.0, [o]).orders;
            |rows| == 1 && rows[0].pnl == 6.0 && rows[0].won
  {
    var o := RawOrder(0, "", ticker, "buy_no", "open", "", 0, 0.4, 0, 10.0);
    OneOrder(map[ticker := "no"], 0.0, [], o);
    assert [] + [o] == [o];
  }

  // ---------------------------------------------------------------- rows a sell touches

  /** The row as it was, or wiped: no P&L, not won, and its context marked. */
  predicate KeptOrWiped(was: Order, row: Order) {
    || row == was
    || (&& row == was.(pnl := 0.0, won := false, context := row.context)
        && |row.context| > |was.context| && row.context[..|was.context|] == was.context)
  }

  lemma {:induction false} MatchWipes(orders: seq<Order>, buys: seq<BuyEntry>, size: real, price: real)
    requires InRange(orders, buys)
    ensures forall i :: 0 <= i < |orders| ==> KeptOrWiped(orders[i], MatchSell(orders, buys, size, price).orders[i])
    decreases |buys|, size > 0.0
  {
    hide MatchSell, RoundTrip;
    if size > 0.0 && buys != [] {
      var m := Min(size, buys[0].size);
      var rows := ClearRow(orders, buys[0].orderIdx);
      MatchUnfold(orders, buys, size, price);
      ConsumeSmaller(buys, size, m);
      MatchWipes(rows, Consume(buys, m), size - m, price);
      forall i | 0 <= i < |orders|
        ensures KeptOrWiped(orders[i], MatchSell(orders, buys, size, price).orders[i])
      {
        WipedTwice(orders[i], rows[i], MatchSell(rows, Consume(buys, m), size - m, price).orders[i]);
      }
    } else {
      MatchNone(orders, buys, size, price);
    }
  }

  lemma ConsumeSmaller(buys: seq<BuyEntry>, size: real, m: real)
    requires buys != [] && m == Min(size, buys[0].size)
    ensures |Consume(buys, m)| < |buys| || (|Consume(buys, m)| == |buys| && size - m <= 0.0)
    ensures forall i :: 0 <= i < |Consume(buys, m)| ==> exists j :: 0 <= j < |buys| && buys[j].orderIdx == Consume(buys, m)[i].orderIdx
  {
    var rest := Consume(buys, m);
    var d := |buys| - |rest|;
    forall i | 0 <= i < |rest|
      ensures exists j :: 0 <= j < |buys| && buys[j].orderIdx == rest[i].orderIdx
    {
      assert buys[i + d].orderIdx == rest[i].orderIdx;
    }
  }

  lemma WipedTwice(x: Order, y: Order, z: Order)
    requires (y == x || y == Cleared(x)) && KeptOrWiped(y, z)
    ensures KeptOrWiped(x, z)
  {
    if y != x && z != y {
      assert z.context[..|x.context|] == z.context[..|y.context|][..|x.context|];
    }
  }

  /** An order never does more to the rows before its own than wipe some, and a buy or an
      order without a trace does nothing to them. */
  lemma EarlierRows(results: map<string, string>, minPrice: real, raw: seq<RawOrder>, o: RawOrder, i: nat)
    requires i < |Resolve(results, minPrice, raw).orders|
    ensures i < |Resolve(results, minPrice, raw + [o]).orders|
    ensures KeptOrWiped(Resolve(results, minPrice, raw).orders[i], Resolve(results, minPrice, raw + [o]).orders[i])
  {
    ResolveStep(results, minPrice, raw, o);
    var b := Resolve(results, minPrice, raw);
    OpenInRange(b, o.market);
    MatchWipes(b.orders, OpenOn(b, o.market), o.size, o.price);
    hide Resolve, MatchSell, KeptOrWiped, WellFormed;
    assert KeptOrWiped(b.orders[i], b.orders[i]) by { WipedSame(b.orders[i]); }
  }

  lemma WipedSame(x: Order)
    ensures KeptOrWiped(x, x)
  {
  }
}
