/** Conservation of money in the resolver: total output P&L against an account of every
    leg, kept beside the output rows.
 */
module ResolverPnl {
  import opened Resolver
  import opened ResolverFifo

  /** One leg per output row.  `wins` says how a buy's contracts settle, `rem` is the part
      of it still open, `touched` whether any part of it was matched. */
  datatype Leg =
    | BuyLeg(market: string, price: real, size: real, wins: bool, rem: real, touched: bool)
    | SellLeg(market: string, price: real, taken: real)

  predicate Legged(legs: seq<Leg>, buys: seq<BuyEntry>) {
    forall i :: 0 <= i < |buys| ==> buys[i].orderIdx < |legs| && legs[buys[i].orderIdx].BuyLeg?
  }

  function Reduce(legs: seq<Leg>, i: nat, m: real): seq<Leg>
    requires i < |legs| && legs[i].BuyLeg?
  {
    legs[i := legs[i].(rem := legs[i].rem - m, touched := true)]
  }

  /** The legs after a sell of `size` contracts. */
  function MatchLegs(legs: seq<Leg>, buys: seq<BuyEntry>, size: real): (r: seq<Leg>)
    requires Legged(legs, buys)
    ensures |r| == |legs| && forall i :: 0 <= i < |legs| ==> (r[i].BuyLeg? <==> legs[i].BuyLeg?)
    decreases |buys|, size > 0.0
  {
    if size <= 0.0 || buys == [] then legs
    else
      var m := Min(size, buys[0].size);
      MatchLegs(Reduce(legs, buys[0].orderIdx, m), Consume(buys, m), size - m)
  }

  /** Contracts a sell of `size` takes. */
  function MatchTaken(buys: seq<BuyEntry>, size: real): real
    decreases |buys|, size > 0.0
  {
    if size <= 0.0 || buys == [] then 0.0
    else
      var m := Min(size, buys[0].size);
      m + MatchTaken(Consume(buys, m), size - m)
  }

  function TakeLegs(results: map<string, string>, minPrice: real, b: Book, legs: seq<Leg>, o: RawOrder): seq<Leg>
    requires WellFormed(b) && forall t <- b.open :: Legged(legs, b.open[t])
  {
    var buys := OpenOn(b, o.market);
    if !Kept(results, minPrice, o) then legs
    else if IsSell(o) then
      if buys == [] then legs
      else MatchLegs(legs, buys, o.size) + [SellLeg(o.market, o.price, MatchTaken(buys, o.size))]
    else
      legs + [BuyLeg(o.market, o.price, o.size, PaysOut(o.action, ResultOf(results, o.market)), o.size, false)]
  }

  // ---------------------------------------------------------------- sums

  function SumPnl(orders: seq<Order>): real {
    if orders == [] then 0.0 else SumPnl(orders[..|orders| - 1]) + orders[|orders| - 1].pnl
  }

  /** What `size` contracts pay at settlement, less what they cost. */
  function LegSettle(leg: Leg): real
    requires leg.BuyLeg?
  {
    (if leg.wins then leg.size else 0.0) - Worth(leg.price, leg.size)
  }

  /** What a leg contributes: a sell its proceeds; a touched buy minus the cost of the part
      matched; an untouched buy its settlement. */
  function LegValue(leg: Leg): real {
    match leg
    case BuyLeg(_, price, size, _, rem, touched) => if touched then -Worth(price, size - rem) else LegSettle(leg)
    case SellLeg(_, price, taken) => Worth(price, taken)
  }

  function SumLegs(legs: seq<Leg>): real {
    if legs == [] then 0.0 else SumLegs(legs[..|legs| - 1]) + LegValue(legs[|legs| - 1])
  }

  lemma {:induction false} SumPnlUpdate(orders: seq<Order>, i: nat, o: Order)
    requires i < |orders|
    ensures SumPnl(orders[i := o]) == SumPnl(orders) - orders[i].pnl + o.pnl
  {
    var init := orders[..|orders| - 1];
    if i == |orders| - 1 {
      assert orders[i := o][..i] == init;
    } else {
      assert orders[i := o][..|orders| - 1] == init[i := o];
      SumPnlUpdate(init, i, o);
    }
  }

  lemma {:induction false} SumLegsUpdate(legs: seq<Leg>, i: nat, leg: Leg)
    requires i < |legs|
    ensures SumLegs(legs[i := leg]) == SumLegs(legs) - LegValue(legs[i]) + LegValue(leg)
  {
    hide LegValue;
    var init := legs[..|legs| - 1];
    if i == |legs| - 1 {
      assert legs[i := leg][..i] == init;
    } else {
      assert legs[i := leg][..|legs| - 1] == init[i := leg];
      SumLegsUpdate(init, i, leg);
    }
  }

  // ---------------------------------------------------------------- the invariant

  /** Rows and legs agree: a touched buy's row is zero, an untouched one's its settlement. */
  predicate Aligned(orders: seq<Order>, legs: seq<Leg>) {
    && |orders| == |legs|
    && forall i :: 0 <= i < |legs| ==> legs[i].BuyLeg? ==>
         orders[i].pnl == if legs[i].touched then 0.0 else LegSettle(legs[i])
  }

  /** A queue against its legs: in output order, each entry the open part of its leg. */
  predicate Backed(legs: seq<Leg>, buys: seq<BuyEntry>, t: string) {
    && Legged(legs, buys)
    && (forall i :: 0 <= i < |buys| ==>
          var leg := legs[buys[i].orderIdx];
          leg.market == t && leg.price == buys[i].price && leg.rem == buys[i].size
          && (!leg.touched ==> leg.rem == leg.size))
    && (forall i, j :: 0 <= i < j < |buys| ==> buys[i].orderIdx < buys[j].orderIdx)
  }

  /** A buy of market `t` that is in no queue entry has nothing open. */
  predicate Spent(legs: seq<Leg>, buys: seq<BuyEntry>, t: string) {
    forall k :: 0 <= k < |legs| && legs[k].BuyLeg? && legs[k].market == t && legs[k].rem != 0.0 ==>
      exists i :: 0 <= i < |buys| && buys[i].orderIdx == k
  }

  lemma MatchStepConserves(sold: real, price: real, size: real, rem: real, m: real)
    ensures RoundTrip(sold, price, m) == Worth(sold, m) - Worth(price, m)
    ensures Worth(price, size - (rem - m)) == Worth(price, size - rem) + Worth(price, m)
    ensures Worth(price, size - size) == 0.0
  {
    assert Worth(price, size - (rem - m)) == price * size - price * rem + price * m;
  }

  lemma WorthAdd(price: real, m: real, n: real)
    ensures Worth(price, m + n) == Worth(price, m) + Worth(price, n) && Worth(price, 0.0) == 0.0
  {
  }

  /** One matched slice keeps the rows in step with the legs ... */
  lemma SliceAligned(orders: seq<Order>, legs: seq<Leg>, i: nat, m: real)
    requires Aligned(orders, legs) && i < |legs| && legs[i].BuyLeg?
    ensures Aligned(ClearRow(orders, i), Reduce(legs, i, m))
  {
    hide Cleared;
    ClearedPnl(orders[i]);
  }

  /** ... and the queue ... */
  lemma SliceBacked(legs: seq<Leg>, buys: seq<BuyEntry>, t: string, m: real)
    requires buys != [] && Backed(legs, buys, t)
    ensures Legged(Reduce(legs, buys[0].orderIdx, m), Consume(buys, m))
    ensures Backed(Reduce(legs, buys[0].orderIdx, m), Consume(buys, m), t)
  {
    var buys', d := Consume(buys, m), if |Consume(buys, m)| == |buys| then 0 else 1;
    assert forall j :: 0 <= j < |buys'| ==> buys'[j].orderIdx == buys[j + d].orderIdx && buys'[j].price == buys[j + d].price;
  }

  /** ... and moves money only between the buy's row, its leg and the sell. */
  lemma SliceMoney(orders: seq<Order>, legs: seq<Leg>, i: nat, m: real, sold: real)
    requires Aligned(orders, legs) && i < |legs| && legs[i].BuyLeg?
    requires !legs[i].touched ==> legs[i].rem == legs[i].size
    ensures SumPnl(ClearRow(orders, i)) + RoundTrip(sold, legs[i].price, m) - SumPnl(orders)
         == SumLegs(Reduce(legs, i, m)) + Worth(sold, m) - SumLegs(legs)
  {
    hide Worth, RoundTrip, Cleared;
    var leg := legs[i];
    ClearedPnl(orders[i]);
    SumPnlUpdate(orders, i, Cleared(orders[i]));
    SumLegsUpdate(legs, i, leg.(rem := leg.rem - m, touched := true));
    MatchStepConserves(sold, leg.price, leg.size, leg.rem, m);
  }

  lemma ClearedPnl(o: Order)
    ensures Cleared(o).pnl == 0.0
  {
  }

  lemma BackedFirst(legs: seq<Leg>, buys: seq<BuyEntry>, t: string)
    requires buys != [] && Backed(legs, buys, t)
    ensures var leg := legs[buys[0].orderIdx]; leg.price == buys[0].price && (!leg.touched ==> leg.rem == leg.size)
  {
  }

  lemma {:induction false} MatchConserves(orders: seq<Order>, legs: seq<Leg>, buys: seq<BuyEntry>, t: string, size: real, sold: real)
    requires Aligned(orders, legs) && Backed(legs, buys, t) && InRange(orders, buys) && Legged(legs, buys)
    ensures var r, legs' := MatchSell(orders, buys, size, sold), MatchLegs(legs, buys, size);
            && Aligned(r.orders, legs')
            && Backed(legs', r.buys, t)
            && SumPnl(r.orders) + r.pnl - SumPnl(orders) == SumLegs(legs') + Worth(sold, MatchTaken(buys, size)) - SumLegs(legs)
    decreases |buys|, size > 0.0
  {
    hide Worth, RoundTrip, Cleared, Aligned, Backed, SumPnl, SumLegs;
    if size <= 0.0 || buys == [] {
      WorthAdd(sold, 0.0, 0.0);
    } else {
      var i, m := buys[0].orderIdx, Min(size, buys[0].size);
      assert legs[i].price == buys[0].price && (!legs[i].touched ==> legs[i].rem == legs[i].size) by { BackedFirst(legs, buys, t); }
      SliceAligned(orders, legs, i, m);
      SliceBacked(legs, buys, t, m);
      SliceMoney(orders, legs, i, m, sold);
      MatchConserves(ClearRow(orders, i), Reduce(legs, i, m), Consume(buys, m), t, size - m, sold);
      WorthAdd(sold, m, MatchTaken(Consume(buys, m), size - m));
    }
  }

  // ---------------------------------------------------------------- nothing open goes missing

  lemma SliceSpent(legs: seq<Leg>, buys: seq<BuyEntry>, t: string, m: real)
    requires buys != [] && Backed(legs, buys, t) && Spent(legs, buys, t) && m <= buys[0].size
    ensures Spent(Reduce(legs, buys[0].orderIdx, m), Consume(buys, m), t)
  {
    var legs', buys' := Reduce(legs, buys[0].orderIdx, m), Consume(buys, m);
    var d := if |buys'| == |buys| then 0 else 1;
    forall k | 0 <= k < |legs'| && legs'[k].BuyLeg? && legs'[k].market == t && legs'[k].rem != 0.0
      ensures exists i :: 0 <= i < |buys'| && buys'[i].orderIdx == k
    {
      var i :| 0 <= i < |buys| && buys[i].orderIdx == k;
      assert i != 0 || d == 0;
      assert buys'[i - d].orderIdx == k;
    }
  }

  predicate OnMarket(legs: seq<Leg>, buys: seq<BuyEntry>, t: string) {
    Legged(legs, buys) && forall i :: 0 <= i < |buys| ==> legs[buys[i].orderIdx].market == t
  }

  /** A sell changes no leg of another market. */
  lemma {:induction false} MatchLegsFrame(legs: seq<Leg>, buys: seq<BuyEntry>, t: string, size: real)
    requires OnMarket(legs, buys, t)
    ensures var legs' := MatchLegs(legs, buys, size);
            && (forall k :: 0 <= k < |legs| ==> legs'[k].market == legs[k].market)
            && (forall k :: 0 <= k < |legs| && legs[k].market != t ==> legs'[k] == legs[k])
    decreases |buys|, size > 0.0
  {
    if size > 0.0 && buys != [] {
      var m := Min(size, buys[0].size);
      MatchLegsFrame(Reduce(legs, buys[0].orderIdx, m), Consume(buys, m), t, size - m);
    }
  }

  lemma {:induction false} MatchSpent(legs: seq<Leg>, buys: seq<BuyEntry>, t: string, size: real)
    requires Backed(legs, buys, t) && Legged(legs, buys) && Spent(legs, buys, t)
    ensures Spent(MatchLegs(legs, buys, size), MatchQueue(buys, size), t)
    decreases |buys|, size > 0.0
  {
    hide Backed, Spent;
    if size > 0.0 && buys != [] {
      var i, m := buys[0].orderIdx, Min(size, buys[0].size);
      SliceBacked(legs, buys, t, m);
      SliceSpent(legs, buys, t, m);
      MatchSpent(Reduce(legs, i, m), Consume(buys, m), t, size - m);
    }
  }

  /** The queue a sell leaves. */
  function MatchQueue(buys: seq<BuyEntry>, size: real): seq<BuyEntry>
    decreases |buys|, size > 0.0
  {
    if size <= 0.0 || buys == [] then buys
    else var m := Min(size, buys[0].size); MatchQueue(Consume(buys, m), size - m)
  }

  lemma {:induction false} MatchQueueSame(orders: seq<Order>, buys: seq<BuyEntry>, size: real, price: real)
    requires InRange(orders, buys)
    ensures MatchSell(orders, buys, size, price).buys == MatchQueue(buys, size)
    decreases |buys|, size > 0.0
  {
    hide RoundTrip, Cleared;
    if size > 0.0 && buys != [] {
      var m := Min(size, buys[0].size);
      MatchQueueSame(ClearRow(orders, buys[0].orderIdx), Consume(buys, m), size - m, price);
    }
  }

  // ---------------------------------------------------------------- whole runs

  predicate AllBacked(b: Book, legs: seq<Leg>) {
    forall t <- b.open :: Backed(legs, b.open[t], t)
  }

  predicate AllSpent(b: Book, legs: seq<Leg>) {
    forall k :: 0 <= k < |legs| ==> Spent(legs, OpenOn(b, legs[k].market), legs[k].market)
  }

  predicate Sound(b: Book, legs: seq<Leg>) {
    && Aligned(b.orders, legs) && AllBacked(b, legs) && AllSpent(b, legs)
    && SumPnl(b.orders) == SumLegs(legs)
  }

  lemma SumAppend(orders: seq<Order>, o: Order, legs: seq<Leg>, leg: Leg)
    ensures SumPnl(orders + [o]) == SumPnl(orders) + o.pnl
    ensures SumLegs(legs + [leg]) == SumLegs(legs) + LegValue(leg)
  {
    assert (orders + [o])[..|orders|] == orders;
    assert (legs + [leg])[..|legs|] == legs;
  }

  // A buy: one row, one leg and one queue entry more.

  lemma BuyAligned(orders: seq<Order>, legs: seq<Leg>, row: Order, leg: Leg)
    requires Aligned(orders, legs) && leg.BuyLeg? && !leg.touched && row.pnl == LegSettle(leg)
    requires SumPnl(orders) == SumLegs(legs)
    ensures Aligned(orders + [row], legs + [leg]) && SumPnl(orders + [row]) == SumLegs(legs + [leg])
  {
    SumAppend(orders, row, legs, leg);
  }

  lemma BuyBacked(legs: seq<Leg>, leg: Leg, buys: seq<BuyEntry>, t: string, x: BuyEntry)
    requires Backed(legs, buys, t) && leg.BuyLeg? && leg.market == t && !leg.touched
    requires x == BuyEntry(leg.price, leg.rem, |legs|) && leg.rem == leg.size
    ensures Backed(legs + [leg], buys + [x], t)
  {
  }

  lemma BuySpent(legs: seq<Leg>, leg: Leg, buys: seq<BuyEntry>, t: string, x: BuyEntry)
    requires (exists k :: 0 <= k < |legs| && legs[k].market == t) ==> Spent(legs, buys, t)
    requires x.orderIdx == |legs|
    ensures Spent(legs + [leg], buys + [x], t)
  {
    forall k | 0 <= k < |legs + [leg]| && (legs + [leg])[k].BuyLeg? && (legs + [leg])[k].market == t && (legs + [leg])[k].rem != 0.0
      ensures exists i :: 0 <= i < |buys + [x]| && (buys + [x])[i].orderIdx == k
    {
      if k < |legs| {
        assert legs[k].market == t;
        var i :| 0 <= i < |buys| && buys[i].orderIdx == k;
        assert (buys + [x])[i].orderIdx == k;
      } else {
        assert (buys + [x])[|buys|].orderIdx == k;
      }
    }
  }

  /** Queues of the other markets need not look at a new book's changes. */
  lemma AllBackedUpdate(b: Book, legs: seq<Leg>, legs': seq<Leg>, rows: seq<Order>, t: string, queue: seq<BuyEntry>)
    requires AllBacked(b, legs) && |legs| <= |legs'| && Backed(legs', queue, t)
    requires forall k :: 0 <= k < |legs| && legs[k].market != t ==> legs'[k] == legs[k]
    ensures AllBacked(Book(rows, b.open[t := queue]), legs')
  {
    hide Backed;
    var open' := b.open[t := queue];
    forall u | u in open'
      ensures Backed(legs', open'[u], u)
    {
      if u != t {
        BackedElsewhere(legs, legs', b.open[u], u);
      }
    }
  }

  lemma AllSpentUpdate(b: Book, legs: seq<Leg>, legs': seq<Leg>, rows: seq<Order>, t: string, queue: seq<BuyEntry>)
    requires AllSpent(b, legs) && |legs'| == |legs| + 1 && Spent(legs', queue, t) && legs'[|legs|].market == t
    requires forall k :: 0 <= k < |legs| ==> legs'[k].market == legs[k].market
    requires forall k :: 0 <= k < |legs| && legs[k].market != t ==> legs'[k] == legs[k]
    ensures AllSpent(Book(rows, b.open[t := queue]), legs')
  {
    hide Spent;
    var b' := Book(rows, b.open[t := queue]);
    forall k | 0 <= k < |legs'|
      ensures Spent(legs', OpenOn(b', legs'[k].market), legs'[k].market)
    {
      var u := legs'[k].market;
      if u != t {
        assert Spent(legs, OpenOn(b, legs[k].market), legs[k].market);
        SpentElsewhere(legs, legs', OpenOn(b, u), u);
      }
    }
  }

  lemma BuyAllBacked(b: Book, legs: seq<Leg>, rows: seq<Order>, leg: Leg)
    requires AllBacked(b, legs) && leg.BuyLeg? && !leg.touched && leg.rem == leg.size
    ensures var x := BuyEntry(leg.price, leg.rem, |legs|);
            AllBacked(Book(rows, b.open[leg.market := OpenOn(b, leg.market) + [x]]), legs + [leg])
  {
    var x, t := BuyEntry(leg.price, leg.rem, |legs|), leg.market;
    assert Backed(legs, OpenOn(b, t), t);
    hide Backed, AllBacked;
    BuyBacked(legs, leg, OpenOn(b, t), t, x);
    AllBackedUpdate(b, legs, legs + [leg], rows, t, OpenOn(b, t) + [x]);
  }

  lemma BuyAllSpent(b: Book, legs: seq<Leg>, rows: seq<Order>, leg: Leg)
    requires AllSpent(b, legs) && leg.BuyLeg?
    ensures var x := BuyEntry(leg.price, leg.rem, |legs|);
            AllSpent(Book(rows, b.open[leg.market := OpenOn(b, leg.market) + [x]]), legs + [leg])
  {
    var x, t := BuyEntry(leg.price, leg.rem, |legs|), leg.market;
    assert (exists k :: 0 <= k < |legs| && legs[k].market == t) ==> Spent(legs, OpenOn(b, t), t);
    hide Spent, AllSpent;
    BuySpent(legs, leg, OpenOn(b, t), t, x);
    AllSpentUpdate(b, legs, legs + [leg], rows, t, OpenOn(b, t) + [x]);
  }

  lemma BuySound(b: Book, legs: seq<Leg>, row: Order, leg: Leg)
    requires Sound(b, legs) && leg.BuyLeg? && !leg.touched && row.pnl == LegSettle(leg) && leg.rem == leg.size
    ensures var x := BuyEntry(leg.price, leg.rem, |legs|);
            Sound(Book(b.orders + [row], b.open[leg.market := OpenOn(b, leg.market) + [x]]), legs + [leg])
  {
    hide SumPnl, SumLegs, Aligned, AllBacked, AllSpent, OpenOn;
    BuyAligned(b.orders, legs, row, leg);
    BuyAllBacked(b, legs, b.orders + [row], leg);
    BuyAllSpent(b, legs, b.orders + [row], leg);
  }

  // A sell: its market's legs and queue move, one row and one leg more.

  lemma SellSound(b: Book, legs: seq<Leg>, mid: seq<Leg>, leg: Leg, t: string, rows: seq<Order>, row: Order, queue: seq<BuyEntry>)
    requires AllBacked(b, legs) && AllSpent(b, legs) && leg.SellLeg? && |mid| == |legs|
    requires Aligned(rows, mid) && Backed(mid, queue, t) && Spent(mid, queue, t)
    requires forall k :: 0 <= k < |legs| ==> mid[k].market == legs[k].market
    requires forall k :: 0 <= k < |legs| && legs[k].market != t ==> mid[k] == legs[k]
    requires SumPnl(rows) + row.pnl == SumLegs(mid) + LegValue(leg) && leg.market == t
    ensures Sound(Book(rows + [row], b.open[t := queue]), mid + [leg])
  {
    var legs' := mid + [leg];
    SumAppend(rows, row, mid, leg);
    assert Aligned(rows + [row], legs');
    hide SumPnl, SumLegs, Aligned, Spent, Backed, AllBacked, AllSpent, LegValue;
    BackedElsewhere(mid, legs', queue, t);
    SpentElsewhere(mid, legs', queue, t);
    AllBackedUpdate(b, legs, legs', rows + [row], t, queue);
    AllSpentUpdate(b, legs, legs', rows + [row], t, queue);
  }

  /** Legs added or changed on other markets leave a market's account as it was. */
  lemma SpentElsewhere(legs: seq<Leg>, legs': seq<Leg>, buys: seq<BuyEntry>, t: string)
    requires Spent(legs, buys, t) && |legs'| == |legs| + 1
    requires legs'[|legs|].market != t || legs'[|legs|].SellLeg?
    requires forall k :: 0 <= k < |legs| && (legs[k].market == t || legs'[k].market == t) ==> legs'[k] == legs[k]
    ensures Spent(legs', buys, t)
  {
    forall k | 0 <= k < |legs'| && legs'[k].BuyLeg? && legs'[k].market == t && legs'[k].rem != 0.0
      ensures exists i :: 0 <= i < |buys| && buys[i].orderIdx == k
    {
      assert legs'[k] == legs[k];
    }
  }

  lemma BackedElsewhere(legs: seq<Leg>, legs': seq<Leg>, buys: seq<BuyEntry>, t: string)
    requires Backed(legs, buys, t) && |legs| <= |legs'|
    requires forall k :: 0 <= k < |legs| && legs[k].market == t ==> legs'[k] == legs[k]
    ensures Backed(legs', buys, t)
  {
    assert forall i :: 0 <= i < |buys| ==> legs'[buys[i].orderIdx] == legs[buys[i].orderIdx];
  }

  lemma TakeSound(results: map<string, string>, minPrice: real, b: Book, legs: seq<Leg>, o: RawOrder)
    requires WellFormed(b) && Sound(b, legs) && forall t <- b.open :: Legged(legs, b.open[t])
    ensures Sound(Take(results, minPrice, b, o), TakeLegs(results, minPrice, b, legs, o))
  {
    var t, buys := o.market, OpenOn(b, o.market);
    var result := ResultOf(results, t);
    if Kept(results, minPrice, o) && !IsSell(o) {
      var leg := BuyLeg(t, o.price, o.size, PaysOut(o.action, result), o.size, false);
      SettlementSplit(o, result, leg);
      hide Settlement, LegSettle;
      BuySound(b, legs, BuyOrder(o, result), leg);
    } else if Kept(results, minPrice, o) && buys != [] {
      var r, mid := MatchSell(b.orders, buys, o.size, o.price), MatchLegs(legs, buys, o.size);
      var leg := SellLeg(t, o.price, MatchTaken(buys, o.size));
      SellReady(b, legs, t);
      MatchConserves(b.orders, legs, buys, t, o.size, o.price);
      MatchQueueSame(b.orders, buys, o.size, o.price);
      MatchLegsFrame(legs, buys, t, o.size);
      MatchSpent(legs, buys, t, o.size);
      hide Worth, SumPnl, SumLegs, Aligned, Backed, Spent, MatchSell, MatchLegs, MatchQueue, MatchTaken;
      SellSound(b, legs, mid, leg, t, r.orders, SellOrder(o, result, r.pnl), r.buys);
    }
  }

  lemma SettlementSplit(o: RawOrder, result: string, leg: Leg)
    requires leg.BuyLeg? && leg.price == o.price && leg.size == o.size && leg.wins == PaysOut(o.action, result)
    ensures Settlement(o, result) == LegSettle(leg)
  {
    assert o.size * (1.0 - o.price) == o.size - o.price * o.size;
  }

  lemma SellReady(b: Book, legs: seq<Leg>, t: string)
    requires AllBacked(b, legs) && AllSpent(b, legs) && OpenOn(b, t) != []
    ensures Backed(legs, OpenOn(b, t), t) && Spent(legs, OpenOn(b, t), t) && OnMarket(legs, OpenOn(b, t), t)
  {
    assert legs[OpenOn(b, t)[0].orderIdx].market == t;
  }

  /** The legs behind the resolved output. */
  function Legs(results: map<string, string>, minPrice: real, raw: seq<RawOrder>): (legs: seq<Leg>)
    ensures Sound(Resolve(results, minPrice, raw), legs)
  {
    if raw == [] then []
    else
      var init := raw[..|raw| - 1];
      var b, legs := Resolve(results, minPrice, init), Legs(results, minPrice, init);
      TakeSound(results, minPrice, b, legs, raw[|raw| - 1]);
      TakeLegs(results, minPrice, b, legs, raw[|raw| - 1])
  }

  // ---------------------------------------------------------------- the identities

  /** The size open on output row `k`, read off its market's queue. */
  function OpenSize(buys: seq<BuyEntry>, k: nat): real {
    if buys == [] then 0.0
    else if buys[0].orderIdx == k then buys[0].size
    else OpenSize(buys[1..], k)
  }

  lemma {:induction false} OpenSizeAt(buys: seq<BuyEntry>, i: nat)
    requires i < |buys| && forall m, n :: 0 <= m < n < |buys| ==> buys[m].orderIdx < buys[n].orderIdx
    ensures OpenSize(buys, buys[i].orderIdx) == buys[i].size
  {
    if i > 0 {
      assert buys[0].orderIdx < buys[i].orderIdx && buys[1..][i - 1] == buys[i];
      OpenSizeAt(buys[1..], i - 1);
    }
  }

  lemma {:induction false} OpenSizeNone(buys: seq<BuyEntry>, k: nat)
    requires forall i :: 0 <= i < |buys| ==> buys[i].orderIdx != k
    ensures OpenSize(buys, k) == 0.0
  {
    if buys != [] {
      OpenSizeNone(buys[1..], k);
    }
  }

  /** Total P&L is the sum over the legs: sells' proceeds, less the cost of what they
      matched, plus the settlement of buys with no matched part.  The open part of each
      leg is what its market's queue still holds. */
  lemma ResolverConservation(results: map<string, string>, minPrice: real, raw: seq<RawOrder>)
    ensures var b, legs := Resolve(results, minPrice, raw), Legs(results, minPrice, raw);
            && |legs| == |b.orders|
            && SumPnl(b.orders) == SumLegs(legs)
            && forall k :: 0 <= k < |legs| && legs[k].BuyLeg? ==>
                 && legs[k].rem == OpenSize(OpenOn(b, legs[k].market), k)
                 && b.orders[k].pnl == if legs[k].touched then 0.0 else LegSettle(legs[k])
  {
    var b, legs := Resolve(results, minPrice, raw), Legs(results, minPrice, raw);
    hide Resolve, Legs, SumPnl, SumLegs, LegSettle;
    forall k | 0 <= k < |legs| && legs[k].BuyLeg?
      ensures legs[k].rem == OpenSize(OpenOn(b, legs[k].market), k)
    {
      var buys := OpenOn(b, legs[k].market);
      assert Spent(legs, buys, legs[k].market);
      if i :| 0 <= i < |buys| && buys[i].orderIdx == k {
        OpenSizeAt(buys, i);
      } else {
        OpenSizeNone(buys, k);
      }
    }
  }

  /** The part of a buy that is still held at settlement. */
  function LegHeld(leg: Leg): real
    requires leg.BuyLeg?
  {
    if leg.touched then leg.rem else leg.size
  }

  function LegPays(leg: Leg): real
    requires leg.BuyLeg?
  {
    if leg.wins then LegHeld(leg) else 0.0
  }

  /** Cash in less cash out: proceeds of sells and payouts of what is held at settlement,
      less the full cost of every buy. */
  function LegCash(leg: Leg): real {
    match leg
    case BuyLeg(_, price, size, _, _, _) => LegPays(leg) - Worth(price, size)
    case SellLeg(_, price, taken) => Worth(price, taken)
  }

  function LegsCash(legs: seq<Leg>): real {
    if legs == [] then 0.0 else LegsCash(legs[..|legs| - 1]) + LegCash(legs[|legs| - 1])
  }

  /** Cost less payout of the open part of a partly matched buy, which the output leaves out
      of account. */
  function LegStranded(leg: Leg): real {
    if leg.BuyLeg? && leg.touched then Worth(leg.price, leg.rem) - LegPays(leg) else 0.0
  }

  function LegsStranded(legs: seq<Leg>): real {
    if legs == [] then 0.0 else LegsStranded(legs[..|legs| - 1]) + LegStranded(legs[|legs| - 1])
  }

  lemma {:induction false} LegsVersusCash(legs: seq<Leg>)
    ensures SumLegs(legs) == LegsCash(legs) + LegsStranded(legs)
  {
    if legs != [] {
      LegsVersusCash(legs[..|legs| - 1]);
      LegVersusCash(legs[|legs| - 1]);
    }
  }

  lemma LegVersusCash(leg: Leg)
    ensures LegValue(leg) == LegCash(leg) + LegStranded(leg)
  {
    if leg.BuyLeg? {
      assert Worth(leg.price, leg.size - leg.rem) == leg.price * leg.size - leg.price * leg.rem;
    }
  }

  predicate NoPartialMatch(legs: seq<Leg>) {
    forall k :: 0 <= k < |legs| && legs[k].BuyLeg? && legs[k].touched ==> legs[k].rem == 0.0
  }

  lemma {:induction false} NoneStranded(legs: seq<Leg>)
    requires NoPartialMatch(legs)
    ensures LegsStranded(legs) == 0.0
  {
    if legs != [] {
      NoneStranded(legs[..|legs| - 1]);
      WorthAdd(if legs[|legs| - 1].BuyLeg? then legs[|legs| - 1].price else 0.0, 0.0, 0.0);
    }
  }

  /** Over all markets, for any prices and sizes, total P&L is cash in less cash out plus what
      partly matched buys strand; so exactly the cash flow if no buy ends partly matched. */
  lemma CashIdentity(results: map<string, string>, minPrice: real, raw: seq<RawOrder>)
    ensures var b, legs := Resolve(results, minPrice, raw), Legs(results, minPrice, raw);
            && SumPnl(b.orders) == LegsCash(legs) + LegsStranded(legs)
            && (NoPartialMatch(legs) ==> SumPnl(b.orders) == LegsCash(legs))
  {
    var legs := Legs(results, minPrice, raw);
    LegsVersusCash(legs);
    if NoPartialMatch(legs) {
      NoneStranded(legs);
    }
  }

  /** A sell takes its size or what is open, whichever is less. */
  lemma {:induction false} TakenIsMin(buys: seq<BuyEntry>, size: real)
    requires PositiveSizes(buys) && size >= 0.0
    ensures MatchTaken(buys, size) == Min(size, Total(buys))
    decreases |buys|
  {
    TotalNonNegative(buys);
    if size > 0.0 && buys != [] {
      TotalNonNegative(buys[1..]);
      if size >= buys[0].size {
        assert Consume(buys, buys[0].size) == buys[1..];
        TakenIsMin(buys[1..], size - buys[0].size);
      } else {
        assert MatchTaken(Consume(buys, size), size - size) == 0.0;
      }
    }
  }

  /** Settlement row by row, for the orders the filter keeps. */
  function SettledRows(results: map<string, string>, minPrice: real, raw: seq<RawOrder>): seq<Order> {
    if raw == [] then []
    else
      var init, o := raw[..|raw| - 1], raw[|raw| - 1];
      var rows := SettledRows(results, minPrice, init);
      if Kept(results, minPrice, o) then rows + [BuyOrder(o, ResultOf(results, o.market))] else rows
  }

  /** Without sells the resolver is plain per-order settlement. */
  lemma {:induction false} BuyOnlySettles(results: map<string, string>, minPrice: real, raw: seq<RawOrder>)
    requires forall i :: 0 <= i < |raw| ==> !IsSell(raw[i])
    ensures Resolve(results, minPrice, raw).orders == SettledRows(results, minPrice, raw)
  {
    if raw != [] {
      BuyOnlySettles(results, minPrice, raw[..|raw| - 1]);
    }
  }
}
