/** The resolver's rows against the cash flow of each market.  Rows and cash differ by the
    open part of a lot that was sold in part, and agree exactly when there is none.
 */
module ResolverCash {
  import opened Resolver
  import opened ResolverFifo
  import opened CashFlow

  /** P&L in the rows of some markets. */
  function PnlOn(orders: seq<Order>, keep: set<string>): real {
    if orders == [] then 0.0
    else
      var init, o := orders[..|orders| - 1], orders[|orders| - 1];
      PnlOn(init, keep) + if o.market in keep then o.pnl else 0.0
  }

  lemma {:induction false} PnlOnSame(xs: seq<Order>, ys: seq<Order>, keep: set<string>)
    requires |xs| == |ys| && forall i :: 0 <= i < |xs| ==> xs[i].market == ys[i].market
    requires forall i :: 0 <= i < |xs| && xs[i].market in keep ==> xs[i].pnl == ys[i].pnl
    ensures PnlOn(xs, keep) == PnlOn(ys, keep)
  {
    if xs != [] {
      PnlOnSame(xs[..|xs| - 1], ys[..|ys| - 1], keep);
    }
  }

  lemma {:induction false} PnlOnUpdate(orders: seq<Order>, i: nat, o: Order, keep: set<string>)
    requires i < |orders| && o.market == orders[i].market && o.market in keep
    ensures PnlOn(orders[i := o], keep) == PnlOn(orders, keep) - orders[i].pnl + o.pnl
  {
    var init := orders[..|orders| - 1];
    if i == |orders| - 1 {
      assert orders[i := o][..i] == init;
    } else {
      assert orders[i := o][..|orders| - 1] == init[i := o];
      PnlOnUpdate(init, i, o, keep);
    }
  }

  lemma PnlOnAppend(orders: seq<Order>, o: Order, keep: set<string>)
    ensures PnlOn(orders + [o], keep) == PnlOn(orders, keep) + if o.market in keep then o.pnl else 0.0
  {
    assert (orders + [o])[..|orders|] == orders;
  }

  // ---------------------------------------------------------------- two views of the stream

  predicate SameStream(entries: seq<BuyEntry>, lots: seq<Lot>) {
    && |entries| == |lots|
    && forall j :: 0 <= j < |lots| ==> entries[j].price == lots[j].price && entries[j].size == lots[j].size
  }

  lemma {:induction false} TotalLast(entries: seq<BuyEntry>)
    requires entries != []
    ensures Total(entries) == Total(entries[..|entries| - 1]) + entries[|entries| - 1].size
  {
    if |entries| > 1 {
      TotalLast(entries[1..]);
      assert entries[1..][..|entries| - 2] == entries[..|entries| - 1][1..];
    }
  }

  lemma {:induction false} SameTotal(entries: seq<BuyEntry>, lots: seq<Lot>)
    requires SameStream(entries, lots)
    ensures Total(entries) == Contracts(lots)
  {
    if lots != [] {
      TotalLast(entries);
      SameTotal(entries[..|entries| - 1], lots[..|lots| - 1]);
    }
  }

  lemma {:induction false} CostLast(entries: seq<BuyEntry>, m: real)
    requires PositiveSizes(entries) && entries != [] && m >= 0.0
    ensures var init, x := entries[..|entries| - 1], entries[|entries| - 1];
            CostOfFirst(entries, m) == CostOfFirst(init, m) + Worth(x.price, x.size - Held(Total(init), x.size, m))
  {
    hide Worth;
    var init, x := entries[..|entries| - 1], entries[|entries| - 1];
    WorthLess(x.price, 0.0, 0.0);
    TotalNonNegative(init);
    if |entries| > 1 {
      var rest := entries[1..];
      assert rest[..|rest| - 1] == init[1..];
      TotalNonNegative(init[1..]);
      if m >= entries[0].size {
        CostLast(rest, m - entries[0].size);
      }
    }
  }

  lemma {:induction false} SameCost(entries: seq<BuyEntry>, lots: seq<Lot>, m: real)
    requires SameStream(entries, lots) && PositiveSizes(entries) && m >= 0.0
    ensures CostOfFirst(entries, m) == CostTo(lots, m)
  {
    hide Worth, Held;
    if lots != [] {
      CostLast(entries, m);
      SameCost(entries[..|entries| - 1], lots[..|lots| - 1], m);
      SameTotal(entries[..|entries| - 1], lots[..|lots| - 1]);
    }
  }

  lemma {:induction false} Streams(results: map<string, string>, minPrice: real, raw: seq<RawOrder>, t: string)
    ensures SameStream(Lots(results, minPrice, raw, t), Bought(results, minPrice, raw, t))
    ensures Taken(results, minPrice, raw, t) == Sold(results, minPrice, raw, t)
  {
    hide Resolve, Kept, Total, Contracts;
    if raw != [] {
      var init := raw[..|raw| - 1];
      Streams(results, minPrice, init, t);
      SameTotal(Lots(results, minPrice, init, t), Bought(results, minPrice, init, t));
    }
  }

  // ---------------------------------------------------------------- rows of a market

  /** The row of each lot: nothing, and not won, once any of it is among the first `m`
      contracts; its settlement, won if it pays, until then. */
  predicate Rows(orders: seq<Order>, entries: seq<BuyEntry>, lots: seq<Lot>, m: real, t: string) {
    && SameStream(entries, lots)
    && (forall j :: 0 <= j < |lots| ==> entries[j].orderIdx < |orders| && RowOf(orders[entries[j].orderIdx], lots, j, m, t))
    && (forall i, j :: 0 <= i < j < |entries| ==> entries[i].orderIdx < entries[j].orderIdx)
  }

  predicate RowOf(row: Order, lots: seq<Lot>, j: nat, m: real, t: string)
    requires j < |lots|
  {
    var untouched := Contracts(lots[..j]) >= m;
    && row.market == t && row.price == lots[j].price && row.size == lots[j].size
    && row.pnl == (if untouched then Settles(lots[j]) else 0.0)
    && row.won == (untouched && lots[j].wins)
  }

  /** The lot at the front of the queue once `m` contracts are gone. */
  lemma {:induction false} FrontLot(entries: seq<BuyEntry>, lots: seq<Lot>, m: real) returns (j: nat)
    requires SameStream(entries, lots) && PositiveSizes(entries) && 0.0 <= m < Total(entries)
    ensures j < |lots| && Contracts(lots[..j]) <= m < Contracts(lots[..j + 1])
    ensures Drop(entries, m) ==
            [entries[j].(size := Contracts(lots[..j + 1]) - m)] + entries[j + 1..]
  {
    hide Drop, Total, Contracts;
    TotalNonNegative(entries);
    var init, x := entries[..|entries| - 1], entries[|entries| - 1];
    SameTotal(entries, lots);
    SameTotal(init, lots[..|lots| - 1]);
    assert entries == init + [x] && lots[..|lots|] == lots;
    if m < Total(init) {
      j := FrontLot(init, lots[..|lots| - 1], m);
      DropAppend(init, x, m);
      assert lots[..|lots| - 1][..j] == lots[..j] && lots[..|lots| - 1][..j + 1] == lots[..j + 1];
    } else {
      j := |lots| - 1;
      DropLast(entries, m);
      assert entries[j + 1..] == [];
    }
  }

  lemma {:induction false} DropLast(entries: seq<BuyEntry>, m: real)
    requires PositiveSizes(entries) && entries != [] && Total(entries[..|entries| - 1]) <= m < Total(entries)
    ensures Drop(entries, m) == [entries[|entries| - 1].(size := Total(entries) - m)]
  {
    TotalLast(entries);
    if |entries| > 1 {
      TotalNonNegative(entries[..|entries| - 1][1..]);
      assert entries[1..][..|entries| - 2] == entries[..|entries| - 1][1..];
      DropLast(entries[1..], m - entries[0].size);
    } else {
      assert entries[..0] == [];
    }
  }

  /** Taking `d` more contracts, all of lot `j`, touches that lot only. */
  lemma {:induction false} SettleSlice(lots: seq<Lot>, m: real, d: real, j: nat)
    requires PositiveLots(lots) && j < |lots| && d > 0.0
    requires Contracts(lots[..j]) <= m && m + d <= Contracts(lots[..j + 1])
    ensures SettleFrom(lots, m + d) == SettleFrom(lots, m) - if Contracts(lots[..j]) < m then 0.0 else Settles(lots[j])
  {
    hide Settles;
    var init := lots[..|lots| - 1];
    if j == |lots| - 1 {
      assert lots[..j + 1] == lots;
      SettlePast(init, m);
      SettlePast(init, m + d);
    } else {
      assert init[..j] == lots[..j] && init[..j + 1] == lots[..j + 1];
      SettleSlice(init, m, d, j);
      ContractsGrow(init, j + 1);
    }
  }

  lemma {:induction false} SettlePast(lots: seq<Lot>, m: real)
    requires PositiveLots(lots) && Contracts(lots) <= m
    ensures SettleFrom(lots, m) == 0.0
  {
    if lots != [] {
      SettlePast(lots[..|lots| - 1], m);
    }
  }

  lemma RowsSlice(orders: seq<Order>, entries: seq<BuyEntry>, lots: seq<Lot>, m: real, d: real, t: string, j: nat)
    requires Rows(orders, entries, lots, m, t) && PositiveLots(lots) && j < |lots| && d > 0.0
    requires Contracts(lots[..j]) <= m && m + d <= Contracts(lots[..j + 1])
    ensures Rows(ClearRow(orders, entries[j].orderIdx), entries, lots, m + d, t)
    ensures PnlOn(ClearRow(orders, entries[j].orderIdx), {t}) - SettleFrom(lots, m + d) == PnlOn(orders, {t}) - SettleFrom(lots, m)
  {
    var k := entries[j].orderIdx;
    var rows := ClearRow(orders, k);
    assert RowOf(orders[k], lots, j, m, t);
    PnlOnUpdate(orders, k, Cleared(orders[k]), {t});
    SettleSlice(lots, m, d, j);
    forall i | 0 <= i < |lots|
      ensures RowOf(rows[entries[i].orderIdx], lots, i, m + d, t)
    {
      assert RowOf(orders[entries[i].orderIdx], lots, i, m, t);
      if i < j {
        StartsBefore(lots, i, j);
      } else if i > j {
        assert entries[j].orderIdx < entries[i].orderIdx;
        StartsBefore(lots, j + 1, i);
      }
    }
  }

  lemma StartsBefore(lots: seq<Lot>, i: nat, j: nat)
    requires PositiveLots(lots) && i <= j <= |lots|
    ensures Contracts(lots[..i]) <= Contracts(lots[..j]) && (i < j ==> Contracts(lots[..i]) < Contracts(lots[..j]))
  {
    ContractsGrow(lots[..j], i);
    assert lots[..j][..i] == lots[..i];
  }

  /** From `m` contracts gone to `m'`, rows and their sum follow the lots. */
  predicate Moved(orders: seq<Order>, rows: seq<Order>, entries: seq<BuyEntry>, lots: seq<Lot>, m: real, m': real, t: string) {
    && Rows(rows, entries, lots, m', t)
    && PnlOn(rows, {t}) - SettleFrom(lots, m') == PnlOn(orders, {t}) - SettleFrom(lots, m)
  }

  /** The first slice of a sell. */
  lemma OneSlice(orders: seq<Order>, entries: seq<BuyEntry>, lots: seq<Lot>, m: real, t: string, d: real)
    requires Rows(orders, entries, lots, m, t) && Queued(entries, m, Drop(entries, m)) && Drop(entries, m) != []
    requires 0.0 < d <= Drop(entries, m)[0].size
    ensures var queue := Drop(entries, m);
            && queue[0].orderIdx < |orders|
            && Moved(orders, ClearRow(orders, queue[0].orderIdx), entries, lots, m, m + d, t)
            && Consume(queue, d) == Drop(entries, m + d) && Queued(entries, m + d, Drop(entries, m + d))
            && (|Consume(queue, d)| < |queue| || (|Consume(queue, d)| == |queue| && d < queue[0].size))
  {
    hide Rows, Total, PnlOn, SettleFrom, ClearRow, PositiveSizes, PositiveLots, Drop, Contracts;
    var queue := Drop(entries, m);
    DropTotal(entries, m);
    TotalNonNegative(queue);
    RowsStream(orders, entries, lots, m, t);
    var j := FrontLot(entries, lots, m);
    RowsSlice(orders, entries, lots, m, d, t, j);
    ConsumeDrop(queue, d);
    DropDrop(entries, m, d);
  }

  lemma RowsStream(orders: seq<Order>, entries: seq<BuyEntry>, lots: seq<Lot>, m: real, t: string)
    requires Rows(orders, entries, lots, m, t) && PositiveSizes(entries)
    ensures SameStream(entries, lots) && PositiveLots(lots)
    ensures forall j :: 0 <= j < |entries| ==> entries[j].orderIdx < |orders|
  {
  }

  /** A sell of `size` contracts, slice by slice. */
  lemma {:induction false} MatchRows(orders: seq<Order>, entries: seq<BuyEntry>, lots: seq<Lot>, m: real, t: string, size: real, price: real)
    requires Rows(orders, entries, lots, m, t) && Queued(entries, m, Drop(entries, m)) && size >= 0.0
    ensures InRange(orders, Drop(entries, m))
    ensures Moved(orders, MatchSell(orders, Drop(entries, m), size, price).orders, entries, lots,
                  m, m + Min(size, Total(entries) - m), t)
    decreases |Drop(entries, m)|, size > 0.0
  {
    hide Rows, Drop, Total, MatchSell, ClearRow, PnlOn, SettleFrom, InRange, Consume, PositiveSizes;
    var queue := Drop(entries, m);
    DropTotal(entries, m);
    TotalNonNegative(queue);
    DropInRange(orders, entries, lots, m, t);
    if size == 0.0 || queue == [] {
      MatchNone(orders, queue, size, price);
      assert m + Min(size, Total(entries) - m) == m;
    } else {
      var d := Min(size, queue[0].size);
      FrontPositive(queue);
      OneSlice(orders, entries, lots, m, t, d);
      MatchUnfold(orders, queue, size, price);
      MatchRows(ClearRow(orders, queue[0].orderIdx), entries, lots, m + d, t, size - d, price);
      assert m + d + Min(size - d, Total(entries) - (m + d)) == m + Min(size, Total(entries) - m);
    }
  }

  lemma FrontPositive(queue: seq<BuyEntry>)
    requires PositiveSizes(queue) && queue != []
    ensures 0.0 < queue[0].size <= Total(queue)
  {
    TotalNonNegative(queue[1..]);
  }

  lemma ConsumeDrop(queue: seq<BuyEntry>, d: real)
    requires PositiveSizes(queue) && queue != [] && 0.0 < d <= queue[0].size
    ensures Consume(queue, d) == Drop(queue, d)
    ensures |Consume(queue, d)| < |queue| || (|Consume(queue, d)| == |queue| && d < queue[0].size)
    ensures d <= Total(queue)
  {
    TotalNonNegative(queue[1..]);
  }

  lemma DropInRange(orders: seq<Order>, entries: seq<BuyEntry>, lots: seq<Lot>, m: real, t: string)
    requires Rows(orders, entries, lots, m, t) && PositiveSizes(entries) && 0.0 <= m <= Total(entries)
    ensures InRange(orders, Drop(entries, m))
  {
    DropTotal(entries, m);
    if m < Total(entries) {
      var j := FrontLot(entries, lots, m);
    } else {
      TotalNonNegative(Drop(entries, m));
    }
  }

  // ---------------------------------------------------------------- whole runs

  /** What the rows of market `t` hold and add up to after some orders. */
  predicate Booked(results: map<string, string>, minPrice: real, raw: seq<RawOrder>, orders: seq<Order>, t: string) {
    var lots, m := Bought(results, minPrice, raw, t), Taken(results, minPrice, raw, t);
    && Rows(orders, Lots(results, minPrice, raw, t), lots, m, t)
    && PnlOn(orders, {t}) == Proceeds(results, minPrice, raw, t) - CostTo(lots, m) + SettleFrom(lots, m)
  }

  /** Matching on one market leaves the rows of the others as they are. */
  lemma {:induction false} MatchElsewhere(orders: seq<Order>, buys: seq<BuyEntry>, u: string, size: real, price: real)
    requires PointsAt(orders, buys, u)
    ensures var r := MatchSell(orders, buys, size, price);
            forall i :: 0 <= i < |orders| ==>
              r.orders[i].market == orders[i].market && (orders[i].market != u ==> r.orders[i] == orders[i])
    decreases |buys|, size > 0.0
  {
    hide MatchSell, RoundTrip;
    if size > 0.0 && buys != [] {
      var m := Min(size, buys[0].size);
      MatchUnfold(orders, buys, size, price);
      ConsumePoints(orders, buys, u, m);
      MatchElsewhere(ClearRow(orders, buys[0].orderIdx), Consume(buys, m), u, size - m, price);
    } else {
      MatchNone(orders, buys, size, price);
    }
  }

  lemma ConsumePoints(orders: seq<Order>, buys: seq<BuyEntry>, u: string, m: real)
    requires PointsAt(orders, buys, u) && buys != []
    ensures PointsAt(ClearRow(orders, buys[0].orderIdx), Consume(buys, m), u)
    ensures m == buys[0].size ==> |Consume(buys, m)| < |buys|
    ensures |Consume(buys, m)| <= |buys|
  {
  }

  /** An order that is filtered out or on another market: rows and sum of `t` stay. */
  lemma TakeElsewhereRows(results: map<string, string>, minPrice: real, b: Book, o: RawOrder, t: string)
    requires WellFormed(b) && !On(results, minPrice, o, t)
    ensures var rows := Take(results, minPrice, b, o).orders;
            && |b.orders| <= |rows|
            && (forall i :: 0 <= i < |b.orders| && b.orders[i].market == t ==> rows[i] == b.orders[i])
            && PnlOn(rows, {t}) == PnlOn(b.orders, {t})
  {
    hide PnlOn, MatchSell;
    if Kept(results, minPrice, o) {
      var result := ResultOf(results, o.market);
      if !IsSell(o) {
        PnlOnAppend(b.orders, BuyOrder(o, result), {t});
      } else if OpenOn(b, o.market) != [] {
        MatchElsewhere(b.orders, OpenOn(b, o.market), o.market, o.size, o.price);
        var r := MatchSell(b.orders, OpenOn(b, o.market), o.size, o.price);
        PnlOnSame(b.orders, r.orders, {t});
        PnlOnAppend(r.orders, SellOrder(o, result, r.pnl), {t});
      }
    }
  }

  lemma RowsStay(orders: seq<Order>, rows: seq<Order>, entries: seq<BuyEntry>, lots: seq<Lot>, m: real, t: string)
    requires Rows(orders, entries, lots, m, t) && |orders| <= |rows|
    requires forall i :: 0 <= i < |orders| && orders[i].market == t ==> rows[i] == orders[i]
    ensures Rows(rows, entries, lots, m, t)
  {
    hide Contracts, Settles;
    forall j | 0 <= j < |lots|
      ensures RowOf(rows[entries[j].orderIdx], lots, j, m, t)
    {
      assert RowOf(orders[entries[j].orderIdx], lots, j, m, t);
    }
  }

  lemma CashStep(results: map<string, string>, minPrice: real, raw: seq<RawOrder>, o: RawOrder, t: string)
    ensures Bought(results, minPrice, raw + [o], t) ==
              if On(results, minPrice, o, t) && !IsSell(o) then Bought(results, minPrice, raw, t) + [LotOf(results, o)]
              else Bought(results, minPrice, raw, t)
    ensures Sold(results, minPrice, raw + [o], t) == Sold(results, minPrice, raw, t)
              + if On(results, minPrice, o, t) && IsSell(o) then Sells(results, minPrice, raw, o) else 0.0
    ensures Proceeds(results, minPrice, raw + [o], t) == Proceeds(results, minPrice, raw, t)
              + if On(results, minPrice, o, t) && IsSell(o) then Worth(o.price, Sells(results, minPrice, raw, o)) else 0.0
  {
    hide Kept, Worth, Contracts;
    assert (raw + [o])[..|raw|] == raw;
  }

  lemma BookedElsewhere(results: map<string, string>, minPrice: real, raw: seq<RawOrder>, o: RawOrder, t: string)
    requires !On(results, minPrice, o, t) && Booked(results, minPrice, raw, Resolve(results, minPrice, raw).orders, t)
    ensures Booked(results, minPrice, raw + [o], Resolve(results, minPrice, raw + [o]).orders, t)
  {
    hide Resolve, Take, Lots, Taken, Bought, Proceeds, Rows, PnlOn, CostTo, SettleFrom, Kept, WellFormed;
    var b := Resolve(results, minPrice, raw);
    ResolveStep(results, minPrice, raw, o);
    LotsStep(results, minPrice, raw, o, t);
    CashStep(results, minPrice, raw, o, t);
    TakeElsewhereRows(results, minPrice, b, o, t);
    RowsStay(b.orders, Take(results, minPrice, b, o).orders, Lots(results, minPrice, raw, t),
             Bought(results, minPrice, raw, t), Taken(results, minPrice, raw, t), t);
  }

  // A buy: one row more, worth its settlement.

  lemma SettlesBuy(results: map<string, string>, o: RawOrder)
    ensures BuyOrder(o, ResultOf(results, o.market)).pnl == Settles(LotOf(results, o))
  {
    assert o.size * (1.0 - o.price) == o.size - o.price * o.size;
  }

  lemma LotAppend(lots: seq<Lot>, lot: Lot, m: real)
    requires m <= Contracts(lots)
    ensures SettleFrom(lots + [lot], m) == SettleFrom(lots, m) + Settles(lot)
    ensures CostTo(lots + [lot], m) == CostTo(lots, m)
  {
    assert (lots + [lot])[..|lots|] == lots;
    assert Worth(lot.price, 0.0) == 0.0;
  }

  lemma RowsAppend(orders: seq<Order>, row: Order, entries: seq<BuyEntry>, x: BuyEntry, lots: seq<Lot>, lot: Lot, m: real, t: string)
    requires Rows(orders, entries, lots, m, t) && m <= Contracts(lots) && row.market == t && row.pnl == Settles(lot)
    requires row.price == lot.price && row.size == lot.size && row.won == lot.wins
    requires x == BuyEntry(lot.price, lot.size, |orders|)
    ensures Rows(orders + [row], entries + [x], lots + [lot], m, t)
  {
    hide Contracts, Settles;
    var lots' := lots + [lot];
    forall j | 0 <= j < |lots'|
      ensures RowOf((orders + [row])[(entries + [x])[j].orderIdx], lots', j, m, t)
    {
      assert lots'[..j] == lots[..j];
      if j < |lots| {
        assert RowOf(orders[entries[j].orderIdx], lots, j, m, t);
      } else {
        assert lots[..j] == lots;
      }
    }
  }

  lemma BookedBuy(results: map<string, string>, minPrice: real, raw: seq<RawOrder>, o: RawOrder)
    requires var t := o.market;
             && On(results, minPrice, o, t) && !IsSell(o)
             && Booked(results, minPrice, raw, Resolve(results, minPrice, raw).orders, t)
             && Taken(results, minPrice, raw, t) <= Contracts(Bought(results, minPrice, raw, t))
    ensures Booked(results, minPrice, raw + [o], Resolve(results, minPrice, raw + [o]).orders, o.market)
  {
    hide Resolve, Take, Lots, Taken, Bought, Proceeds, Rows, PnlOn, CostTo, SettleFrom, Kept, WellFormed, Settles, Contracts,
         BuyOrder, LotOf, Worth, IsSell;
    var t, b, row := o.market, Resolve(results, minPrice, raw), BuyOrder(o, ResultOf(results, o.market));
    var lots, lot, m := Bought(results, minPrice, raw, t), LotOf(results, o), Taken(results, minPrice, raw, t);
    BuyFields(results, minPrice, b, o);
    ResolveStep(results, minPrice, raw, o);
    LotsStep(results, minPrice, raw, o, t);
    CashStep(results, minPrice, raw, o, t);
    LotAppend(lots, lot, m);
    RowsAppend(b.orders, row, Lots(results, minPrice, raw, t), BuyEntry(o.price, o.size, |b.orders|), lots, lot, m, t);
    PnlOnAppend(b.orders, row, {t});
  }

  lemma BuyFields(results: map<string, string>, minPrice: real, b: Book, o: RawOrder)
    requires WellFormed(b) && Kept(results, minPrice, o) && !IsSell(o)
    ensures var row, lot := BuyOrder(o, ResultOf(results, o.market)), LotOf(results, o);
            && Take(results, minPrice, b, o).orders == b.orders + [row]
            && row.market == o.market && row.pnl == Settles(lot) && lot.price == o.price && lot.size == o.size
            && row.price == o.price && row.size == o.size && row.won == lot.wins
  {
    SettlesBuy(results, o);
    hide MatchSell, Settlement, Settles;
  }

  // A sell: slices of the stream move from the lots' rows to its own.

  lemma BookedSell(results: map<string, string>, minPrice: real, raw: seq<RawOrder>, o: RawOrder)
    requires var t := o.market;
             && On(results, minPrice, o, t) && IsSell(o) && o.size > 0.0
             && Booked(results, minPrice, raw, Resolve(results, minPrice, raw).orders, t)
             && Queued(Lots(results, minPrice, raw, t), Taken(results, minPrice, raw, t), OpenOn(Resolve(results, minPrice, raw), t))
    ensures Booked(results, minPrice, raw + [o], Resolve(results, minPrice, raw + [o]).orders, o.market)
  {
    hide Resolve, Take, Lots, Taken, Bought, Proceeds, Rows, PnlOn, CostTo, SettleFrom, Kept, WellFormed, OpenOn, Drop, Total,
         CostOfFirst, Contracts, Worth, MatchSell, PositiveSizes, SellOrder;
    var t, b := o.market, Resolve(results, minPrice, raw);
    var entries, lots, m := Lots(results, minPrice, raw, t), Bought(results, minPrice, raw, t), Taken(results, minPrice, raw, t);
    var k := Min(o.size, Total(entries) - m);
    ResolveStep(results, minPrice, raw, o);
    LotsStep(results, minPrice, raw, o, t);
    CashStep(results, minPrice, raw, o, t);
    Streams(results, minPrice, raw, t);
    SameTotal(entries, lots);
    SameCost(entries, lots, m);
    SameCost(entries, lots, m + k);
    TakeSell(results, minPrice, b, o);
    SellAgainst(b, o, entries, m);
    MatchRows(b.orders, entries, lots, m, t, o.size, o.price);
    WorthLess(o.price, 0.0, 0.0);
    if OpenOn(b, t) != [] {
      var r := MatchSell(b.orders, OpenOn(b, t), o.size, o.price);
      var row := SellOrder(o, ResultOf(results, t), r.pnl);
      SellOrderFields(o, ResultOf(results, t), r.pnl);
      PnlOnAppend(r.orders, row, {t});
      RowsStay(r.orders, r.orders + [row], entries, lots, m + k, t);
    }
  }

  lemma {:induction false} AllBooked(results: map<string, string>, minPrice: real, raw: seq<RawOrder>, t: string)
    requires PositiveOrders(raw)
    ensures Booked(results, minPrice, raw, Resolve(results, minPrice, raw).orders, t)
  {
    hide Resolve, Lots, Taken, Bought, Booked, Kept, OpenOn, Total, Contracts;
    if raw == [] {
      NothingBooked(results, minPrice, t);
    } else {
      var init, o := raw[..|raw| - 1], raw[|raw| - 1];
      assert raw == init + [o];
      AllBooked(results, minPrice, init, t);
      if !On(results, minPrice, o, t) {
        BookedElsewhere(results, minPrice, init, o, t);
      } else {
        FifoQueue(results, minPrice, init, t);
        Streams(results, minPrice, init, t);
        SameTotal(Lots(results, minPrice, init, t), Bought(results, minPrice, init, t));
        if IsSell(o) {
          BookedSell(results, minPrice, init, o);
        } else {
          BookedBuy(results, minPrice, init, o);
        }
      }
    }
  }

  lemma NothingBooked(results: map<string, string>, minPrice: real, t: string)
    ensures Booked(results, minPrice, [], Resolve(results, minPrice, []).orders, t)
  {
  }

  // ---------------------------------------------------------------- rows against cash

  /** In every market, rows add up to the cash flow plus the cost, less the payout, of the
      open part of a lot that was sold in part. */
  lemma MarketIdentity(results: map<string, string>, minPrice: real, raw: seq<RawOrder>, t: string)
    requires PositiveOrders(raw)
    ensures PnlOn(Resolve(results, minPrice, raw).orders, {t})
         == MarketCash(results, minPrice, raw, t)
            + Stranded(Bought(results, minPrice, raw, t), Sold(results, minPrice, raw, t))
  {
    hide Resolve, Lots, Taken, Bought, Sold, Proceeds, PnlOn, CostTo, SettleFrom, Cost, Payout, Stranded, Rows;
    AllBooked(results, minPrice, raw, t);
    Streams(results, minPrice, raw, t);
    RowsVersusCash(Bought(results, minPrice, raw, t), Sold(results, minPrice, raw, t));
  }

  predicate ProperOrders(raw: seq<RawOrder>) {
    forall i :: 0 <= i < |raw| ==> raw[i].size > 0.0 && 0.0 < raw[i].price < 1.0
  }

  lemma {:induction false} ProperLots(results: map<string, string>, minPrice: real, raw: seq<RawOrder>, t: string)
    requires ProperOrders(raw)
    ensures PositiveLots(Bought(results, minPrice, raw, t)) && ProperPrices(Bought(results, minPrice, raw, t))
  {
    if raw != [] {
      ProperLots(results, minPrice, raw[..|raw| - 1], t);
    }
  }

  /** For contracts priced between nothing and a dollar, a market's rows add up to its cash
      flow exactly when its sells end between two lots. */
  lemma MarketCashExactly(results: map<string, string>, minPrice: real, raw: seq<RawOrder>, t: string)
    requires ProperOrders(raw)
    ensures PnlOn(Resolve(results, minPrice, raw).orders, {t}) == MarketCash(results, minPrice, raw, t)
            <==> AtLot(Bought(results, minPrice, raw, t), Sold(results, minPrice, raw, t))
  {
    hide Resolve, Lots, Taken, Bought, Sold, PnlOn, MarketCash, Stranded, Total, Contracts, OpenOn;
    MarketIdentity(results, minPrice, raw, t);
    ProperLots(results, minPrice, raw, t);
    FifoQueue(results, minPrice, raw, t);
    Streams(results, minPrice, raw, t);
    SameTotal(Lots(results, minPrice, raw, t), Bought(results, minPrice, raw, t));
    StrandedNone(Bought(results, minPrice, raw, t), Sold(results, minPrice, raw, t));
  }

  /** Otherwise some lot `j` is cut: rows exceed cash if it loses and fall short if it wins. */
  lemma CutLotDecides(results: map<string, string>, minPrice: real, raw: seq<RawOrder>, t: string, j: nat)
    requires ProperOrders(raw)
    requires var lots, m := Bought(results, minPrice, raw, t), Sold(results, minPrice, raw, t);
             j < |lots| && Contracts(lots[..j]) < m < Contracts(lots[..j + 1])
    ensures var rows, cash := PnlOn(Resolve(results, minPrice, raw).orders, {t}), MarketCash(results, minPrice, raw, t);
            if Bought(results, minPrice, raw, t)[j].wins then rows < cash else rows > cash
  {
    var lots, m := Bought(results, minPrice, raw, t), Sold(results, minPrice, raw, t);
    hide Resolve, Bought, Sold, PnlOn, MarketCash, Stranded, StrandedOf;
    MarketIdentity(results, minPrice, raw, t);
    ProperLots(results, minPrice, raw, t);
    StrandedAt(lots, m, j);
    assert lots[..j + 1][..j] == lots[..j];
    CutLot(Contracts(lots[..j]), lots[j], m);
  }

  // ---------------------------------------------------------------- a lot sold in part

  function TenBought(t: string): RawOrder { RawOrder(0, "", t, "buy", "open", "", 0, 0.4, 0, 10.0) }
  function OneSold(t: string): RawOrder { RawOrder(1, "", t, "sell", "close", "", 0, 0.5, 0, 1.0) }

  /** The two orders as a stream: one lot of ten, one contract of it sold for 50 cents. */
  lemma SoldInPartStream(results: map<string, string>, t: string)
    requires ResultOf(results, t) in {"yes", "no"}
    ensures var raw := [TenBought(t), OneSold(t)];
            && Bought(results, 0.0, raw, t) == [Lot(0.4, 10.0, results[t] == "yes")]
            && Sold(results, 0.0, raw, t) == 1.0
            && Proceeds(results, 0.0, raw, t) == 0.5
  {
    var raw, one, lot := [TenBought(t), OneSold(t)], [TenBought(t)], Lot(0.4, 10.0, results[t] == "yes");
    assert Bought(results, 0.0, [], t) == [] && Sold(results, 0.0, [], t) == 0.0 && Proceeds(results, 0.0, [], t) == 0.0;
    OneLot(lot);
    assert On(results, 0.0, TenBought(t), t) && !IsSell(TenBought(t)) && LotOf(results, TenBought(t)) == lot;
    assert On(results, 0.0, OneSold(t), t) && IsSell(OneSold(t)) && Worth(0.5, 1.0) == 0.5;
    hide Bought, Sold, Proceeds, Contracts, On, IsSell, LotOf, Worth;
    CashStep(results, 0.0, [], TenBought(t), t);
    CashStep(results, 0.0, one, OneSold(t), t);
    assert raw == one + [OneSold(t)] && one == [] + [TenBought(t)] && [] + [lot] == [lot];
  }

  lemma OneLot(lot: Lot)
    ensures Contracts([lot]) == lot.size
  {
    assert [lot][..0] == [];
  }

  /** Ten contracts bought at 40 cents, one sold at 50: the rows hold ten cents either way,
      while the nine contracts left are worth nine dollars or nothing. */
  lemma SoldInPart(results: map<string, string>, t: string)
    requires ResultOf(results, t) in {"yes", "no"}
    ensures var raw := [TenBought(t), OneSold(t)];
            && PnlOn(Resolve(results, 0.0, raw).orders, {t}) == 0.1
            && MarketCash(results, 0.0, raw, t) == if results[t] == "yes" then 5.5 else -3.5
  {
    hide Resolve, PnlOn, Bought, Sold, Proceeds;
    var raw, lots := [TenBought(t), OneSold(t)], [Lot(0.4, 10.0, results[t] == "yes")];
    SoldInPartStream(results, t);
    assert lots[..0] == [] && Worth(0.4, 9.0) == 3.6 && Worth(0.4, 10.0) == 4.0;
    assert Stranded(lots, 1.0) == if results[t] == "yes" then -5.4 else 3.6;
    assert Payout(lots, 1.0) == if results[t] == "yes" then 9.0 else 0.0;
    assert Cost(lots) == 4.0;
    MarketIdentity(results, 0.0, raw, t);
  }
}
