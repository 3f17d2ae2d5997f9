/** Orders that alternate buy and sell with equal sizes on a market, and their cash flow as
    the resolver sees it.
 */
module RoundTrips {
  import opened Wrappers
  import opened Resolver
  import opened ResolverFifo
  import opened CashFlow
  import opened ResolverCash

  /** The last order on market `m`. */
  function LastOn(raw: seq<RawOrder>, m: string): Option<RawOrder> {
    if raw == [] then None
    else if raw[|raw| - 1].market == m then Some(raw[|raw| - 1])
    else LastOn(raw[..|raw| - 1], m)
  }

  /** The buy still open on market `m`: its last order, if that is a buy. */
  function OpenBuy(raw: seq<RawOrder>, m: string): Option<RawOrder> {
    var last := LastOn(raw, m);
    if last.Some? && IsSell(last.value) then None else last
  }

  /** On market `m` orders are a buy, a sell of the same size, a buy, and so on. */
  predicate Alternates(raw: seq<RawOrder>, m: string) {
    raw == [] ||
    var init, o := raw[..|raw| - 1], raw[|raw| - 1];
    && Alternates(init, m)
    && (o.market == m ==>
          var open := OpenBuy(init, m);
          if IsSell(o) then open.Some? && open.value.size == o.size else open.None?)
  }

  lemma LastOnAppend(raw: seq<RawOrder>, o: RawOrder, m: string)
    ensures LastOn(raw + [o], m) == if o.market == m then Some(o) else LastOn(raw, m)
  {
    assert (raw + [o])[..|raw|] == raw;
  }

  // ---------------------------------------------------------------- cash, from the orders alone

  /** Price times size of the sells, less that of the buys, on market `m`. */
  function Flow(raw: seq<RawOrder>, m: string): real {
    if raw == [] then 0.0
    else
      var init, o := raw[..|raw| - 1], raw[|raw| - 1];
      Flow(init, m)
      + if o.market != m then 0.0 else if IsSell(o) then Worth(o.price, o.size) else -Worth(o.price, o.size)
  }

  /** The flow on a resolved market and, for an open buy that wins, a dollar per contract. */
  function OrderCash(results: map<string, string>, raw: seq<RawOrder>, m: string): real {
    var result, open := ResultOf(results, m), OpenBuy(raw, m);
    if result == "" then 0.0
    else Flow(raw, m) + if open.Some? && PaysOut(open.value.action, result) then open.value.size else 0.0
  }

  /** The same over several markets. */
  function TotalCash(results: map<string, string>, raw: seq<RawOrder>, ms: seq<string>): real {
    if ms == [] then 0.0
    else TotalCash(results, raw, ms[..|ms| - 1]) + OrderCash(results, raw, ms[|ms| - 1])
  }

  // ---------------------------------------------------------------- the stream of round trips

  /** Everything is sold, but for the open buy, which is the last lot, whole. */
  predicate SoldUp(results: map<string, string>, raw: seq<RawOrder>, m: string, lots: seq<Lot>, sold: real) {
    var open := OpenBuy(raw, m);
    if open.None? then sold == Contracts(lots)
    else lots != [] && lots[|lots| - 1] == LotOf(results, open.value) && sold == Contracts(lots[..|lots| - 1])
  }

  lemma SoldUpStep(results: map<string, string>, raw: seq<RawOrder>, o: RawOrder, m: string)
    requires ResultOf(results, m) != "" && Alternates(raw + [o], m) && o.size > 0.0
    requires SoldUp(results, raw, m, Bought(results, 0.0, raw, m), Sold(results, 0.0, raw, m))
    requires Proceeds(results, 0.0, raw, m) - Cost(Bought(results, 0.0, raw, m)) == Flow(raw, m)
    ensures SoldUp(results, raw + [o], m, Bought(results, 0.0, raw + [o], m), Sold(results, 0.0, raw + [o], m))
    ensures Proceeds(results, 0.0, raw + [o], m) - Cost(Bought(results, 0.0, raw + [o], m)) == Flow(raw + [o], m)
  {
    hide Bought, Sold, Proceeds, Worth, LastOn, Flow, Contracts, Cost, Alternates, LotOf;
    LastOnAppend(raw, o, m);
    AlternatesAppend(raw, o, m);
    FlowAppend(raw, o, m);
    CashStep(results, 0.0, raw, o, m);
    var lots := Bought(results, 0.0, raw, m);
    LotsAppend(lots, LotOf(results, o));
    LotFields(results, o);
    if o.market == m && IsSell(o) && lots != [] {
      LotsAppend(lots[..|lots| - 1], lots[|lots| - 1]);
      assert lots == lots[..|lots| - 1] + [lots[|lots| - 1]];
      LotFields(results, OpenBuy(raw, m).value);
    }
  }

  lemma AlternatesAppend(raw: seq<RawOrder>, o: RawOrder, m: string)
    ensures Alternates(raw + [o], m) <==>
            && Alternates(raw, m)
            && (o.market == m ==>
                  var open := OpenBuy(raw, m);
                  if IsSell(o) then open.Some? && open.value.size == o.size else open.None?)
  {
    assert (raw + [o])[..|raw|] == raw;
  }

  lemma FlowAppend(raw: seq<RawOrder>, o: RawOrder, m: string)
    ensures Flow(raw + [o], m) == Flow(raw, m)
            + if o.market != m then 0.0 else if IsSell(o) then Worth(o.price, o.size) else -Worth(o.price, o.size)
  {
    assert (raw + [o])[..|raw|] == raw;
  }

  lemma LotsAppend(lots: seq<Lot>, lot: Lot)
    ensures (lots + [lot])[..|lots|] == lots
    ensures Contracts(lots + [lot]) == Contracts(lots) + lot.size && Cost(lots + [lot]) == Cost(lots) + Worth(lot.price, lot.size)
  {
    assert (lots + [lot])[..|lots|] == lots;
  }

  lemma LotFields(results: map<string, string>, o: RawOrder)
    ensures LotOf(results, o).price == o.price && LotOf(results, o).size == o.size
  {
  }

  lemma {:induction false} RunSoldUp(results: map<string, string>, raw: seq<RawOrder>, m: string)
    requires ResultOf(results, m) != "" && Alternates(raw, m) && PositiveOrders(raw)
    ensures SoldUp(results, raw, m, Bought(results, 0.0, raw, m), Sold(results, 0.0, raw, m))
    ensures Proceeds(results, 0.0, raw, m) - Cost(Bought(results, 0.0, raw, m)) == Flow(raw, m)
  {
    if raw != [] {
      var init, o := raw[..|raw| - 1], raw[|raw| - 1];
      RunSoldUp(results, init, m);
      assert raw == init + [o];
      hide Bought, Sold, Proceeds, Flow, SoldUp, Cost;
      SoldUpStep(results, init, o, m);
    }
  }

  lemma {:induction false} PayoutPast(lots: seq<Lot>, sold: real)
    requires PositiveLots(lots) && sold >= Contracts(lots)
    ensures Payout(lots, sold) == 0.0
  {
    if lots != [] {
      PayoutPast(lots[..|lots| - 1], sold);
    }
  }

  lemma {:induction false} BoughtPositive(results: map<string, string>, raw: seq<RawOrder>, m: string)
    requires PositiveOrders(raw)
    ensures PositiveLots(Bought(results, 0.0, raw, m))
  {
    if raw != [] {
      BoughtPositive(results, raw[..|raw| - 1], m);
    }
  }

  lemma {:induction false} Unresolved(results: map<string, string>, raw: seq<RawOrder>, m: string)
    requires ResultOf(results, m) == ""
    ensures Bought(results, 0.0, raw, m) == [] && Sold(results, 0.0, raw, m) == 0.0 == Proceeds(results, 0.0, raw, m)
  {
    if raw != [] {
      Unresolved(results, raw[..|raw| - 1], m);
    }
  }

  /** What is held at the end pays, and nothing is stranded. */
  lemma HeldAtEnd(results: map<string, string>, raw: seq<RawOrder>, m: string, lots: seq<Lot>, sold: real)
    requires PositiveLots(lots) && SoldUp(results, raw, m, lots, sold)
    requires OpenBuy(raw, m).Some? ==> OpenBuy(raw, m).value.market == m
    ensures Stranded(lots, sold) == 0.0
    ensures var open := OpenBuy(raw, m);
            Payout(lots, sold) == if open.Some? && PaysOut(open.value.action, ResultOf(results, m)) then open.value.size else 0.0
  {
    hide OpenBuy, Worth;
    if OpenBuy(raw, m).None? {
      PayoutPast(lots, sold);
      StrandedPast(lots, sold);
    } else {
      PayoutPast(lots[..|lots| - 1], sold);
      StrandedPast(lots[..|lots| - 1], sold);
    }
  }

  lemma {:induction false} LastOnMarket(raw: seq<RawOrder>, m: string)
    ensures LastOn(raw, m).Some? ==> LastOn(raw, m).value.market == m
  {
    if raw != [] {
      LastOnMarket(raw[..|raw| - 1], m);
    }
  }

  /** Without a price filter, the rows of a market whose orders are round trips add up to
      exactly their cash flow. */
  lemma RoundTripCash(results: map<string, string>, raw: seq<RawOrder>, m: string)
    requires PositiveOrders(raw) && Alternates(raw, m)
    ensures PnlOn(Resolve(results, 0.0, raw).orders, {m}) == OrderCash(results, raw, m)
  {
    hide Resolve, PnlOn, Bought, Sold, Proceeds, Flow, LastOn, SoldUp, Alternates;
    MarketIdentity(results, 0.0, raw, m);
    if ResultOf(results, m) == "" {
      Unresolved(results, raw, m);
    } else {
      RunSoldUp(results, raw, m);
      BoughtPositive(results, raw, m);
      LastOnMarket(raw, m);
      HeldAtEnd(results, raw, m, Bought(results, 0.0, raw, m), Sold(results, 0.0, raw, m));
    }
  }

  // ---------------------------------------------------------------- several markets

  predicate Distinct(ms: seq<string>) {
    forall i, j :: 0 <= i < j < |ms| ==> ms[i] != ms[j]
  }

  lemma {:induction false} PnlOnSplit(orders: seq<Order>, keep: set<string>, m: string)
    requires m !in keep
    ensures PnlOn(orders, keep + {m}) == PnlOn(orders, keep) + PnlOn(orders, {m})
  {
    if orders != [] {
      PnlOnSplit(orders[..|orders| - 1], keep, m);
    }
  }

  lemma {:induction false} PnlOnNone(orders: seq<Order>)
    ensures PnlOn(orders, {}) == 0.0
  {
    if orders != [] {
      PnlOnNone(orders[..|orders| - 1]);
    }
  }

  /** The same for any markets together. */
  lemma {:induction false} RoundTripsCash(results: map<string, string>, raw: seq<RawOrder>, ms: seq<string>)
    requires PositiveOrders(raw) && Distinct(ms) && forall i :: 0 <= i < |ms| ==> Alternates(raw, ms[i])
    ensures PnlOn(Resolve(results, 0.0, raw).orders, ToSet(ms)) == TotalCash(results, raw, ms)
  {
    hide Resolve, PnlOn, OrderCash, Alternates;
    var orders := Resolve(results, 0.0, raw).orders;
    if ms == [] {
      PnlOnNone(orders);
      assert ToSet(ms) == {};
    } else {
      var init, m := ms[..|ms| - 1], ms[|ms| - 1];
      RoundTripsCash(results, raw, init);
      RoundTripCash(results, raw, m);
      assert ToSet(ms) == ToSet(init) + {m} by { assert ms == init + [m]; }
      PnlOnSplit(orders, ToSet(init), m);
    }
  }
}
