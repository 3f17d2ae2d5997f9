/** Resolution of a backtest's raw orders: sells are matched first-in first-out to earlier
    buys on their market, unmatched buys settle at the market's result.  A matched buy's
    own row is zeroed, wholly, and the sell carries the round trip.
 */
module Resolver {

  datatype RawOrder = RawOrder(
    ts: int, matchTicker: string, market: string, action: string, side: string,
    context: string, setNumber: int, price: real, edgeCents: int, size: real)

  datatype MarketRow = MarketRow(ticker: string, result: string)

  datatype Order = Order(
    matchTicker: string, market: string, context: string, setNum: int,
    price: real, edgeCents: int, size: real, won: bool, pnl: real,
    result: string, ts: int, side: string)

  /** An unmatched or partly matched buy, with the index of its row in the output. */
  datatype BuyEntry = BuyEntry(price: real, size: real, orderIdx: nat)

  /** Output so far, and per market the queue of open buys. */
  datatype Book = Book(orders: seq<Order>, open: map<string, seq<BuyEntry>>)

  const EmptyBook := Book([], map[])

  // ---------------------------------------------------------------- inputs

  function Results(mkts: seq<MarketRow>): map<string, string> {
    if mkts == [] then map[]
    else var m := mkts[|mkts| - 1]; Results(mkts[..|mkts| - 1])[m.ticker := m.result]
  }

  /** Empty for a market that is unknown or unresolved. */
  function ResultOf(results: map<string, string>, market: string): string {
    if market in results then results[market] else ""
  }

  predicate Kept(results: map<string, string>, minPrice: real, o: RawOrder) {
    !(minPrice > 0.0 && o.price < minPrice) && ResultOf(results, o.market) != ""
  }

  predicate IsSell(o: RawOrder) { o.action == "sell" || o.side == "close" }

  predicate BuyWins(o: RawOrder, result: string) {
    if o.action == "buy_no" then result == "no" else result == "yes"
  }

  /** P&L of a buy held to settlement. */
  function Settlement(o: RawOrder, result: string): real {
    if BuyWins(o, result) then o.size * (1.0 - o.price) else -o.size * o.price
  }

  function BuyOrder(o: RawOrder, result: string): Order {
    Order(o.matchTicker, o.market, o.context, o.setNumber, o.price, o.edgeCents, o.size,
          BuyWins(o, result), Settlement(o, result), result, o.ts, "open")
  }

  function SellOrder(o: RawOrder, result: string, pnl: real): Order {
    Order(o.matchTicker, o.market, o.context, o.setNumber, o.price, o.edgeCents, o.size,
          pnl > 0.0, pnl, result, o.ts, "close")
  }

  // ---------------------------------------------------------------- matching

  function OpenOn(b: Book, market: string): seq<BuyEntry> {
    if market in b.open then b.open[market] else []
  }

  predicate InRange(orders: seq<Order>, buys: seq<BuyEntry>) {
    forall i :: 0 <= i < |buys| ==> buys[i].orderIdx < |orders|
  }

  /** The entries point at rows of market `t`. */
  predicate PointsAt(orders: seq<Order>, buys: seq<BuyEntry>, t: string) {
    forall i :: 0 <= i < |buys| ==> buys[i].orderIdx < |orders| && orders[buys[i].orderIdx].market == t
  }

  predicate WellFormed(b: Book) {
    forall t <- b.open :: PointsAt(b.orders, b.open[t], t)
  }

  function Min(x: real, y: real): real { if x > y then y else x }

  /** A buy's row once any part of it is matched. */
  function Cleared(o: Order): Order {
    o.(pnl := 0.0, won := false, context := o.context + " [matched]")
  }

  /** The queue after `m` contracts of its first entry are matched. */
  function Consume(buys: seq<BuyEntry>, m: real): seq<BuyEntry>
    requires buys != []
  {
    var left := buys[0].size - m;
    if left <= 0.0 then buys[1..] else buys[0 := buys[0].(size := left)]
  }

  function RoundTrip(sold: real, bought: real, m: real): real { (sold - bought) * m }

  datatype Matched = Matched(orders: seq<Order>, buys: seq<BuyEntry>, pnl: real)

  /** Match up to `size` contracts sold at `price` against the queue, oldest first. */
  function MatchSell(orders: seq<Order>, buys: seq<BuyEntry>, size: real, price: real): (r: Matched)
    requires InRange(orders, buys)
    ensures |r.orders| == |orders| && InRange(r.orders, r.buys)
    decreases |buys|, size > 0.0
  {
    if size <= 0.0 || buys == [] then Matched(orders, buys, 0.0)
    else
      var buy := buys[0];
      var m := Min(size, buy.size);
      var rest := MatchSell(orders[buy.orderIdx := Cleared(orders[buy.orderIdx])], Consume(buys, m), size - m, price);
      Matched(rest.orders, rest.buys, RoundTrip(price, buy.price, m) + rest.pnl)
  }

  /** One raw order. */
  function Take(results: map<string, string>, minPrice: real, b: Book, o: RawOrder): Book
    requires WellFormed(b)
  {
    var result := ResultOf(results, o.market);
    var buys := OpenOn(b, o.market);
    if !Kept(results, minPrice, o) then b
    else if IsSell(o) then
      if buys == [] then b
      else
        var r := MatchSell(b.orders, buys, o.size, o.price);
        Book(r.orders + [SellOrder(o, result, r.pnl)], b.open[o.market := r.buys])
    else
      Book(b.orders + [BuyOrder(o, result)],
           b.open[o.market := buys + [BuyEntry(o.price, o.size, |b.orders|)]])
  }

  lemma {:induction false} MatchKeepsMarkets(orders: seq<Order>, buys: seq<BuyEntry>, size: real, price: real, t: string)
    requires PointsAt(orders, buys, t)
    ensures var r := MatchSell(orders, buys, size, price);
            && (forall i :: 0 <= i < |orders| ==> r.orders[i].market == orders[i].market)
            && PointsAt(r.orders, r.buys, t)
    decreases |buys|, size > 0.0
  {
    if size > 0.0 && buys != [] {
      var buy := buys[0];
      var m := Min(size, buy.size);
      MatchKeepsMarkets(orders[buy.orderIdx := Cleared(orders[buy.orderIdx])], Consume(buys, m), size - m, price, t);
    }
  }

  lemma TakeWellFormed(results: map<string, string>, minPrice: real, b: Book, o: RawOrder)
    requires WellFormed(b)
    ensures WellFormed(Take(results, minPrice, b, o))
  {
    if Kept(results, minPrice, o) && IsSell(o) {
      MatchKeepsMarkets(b.orders, OpenOn(b, o.market), o.size, o.price, o.market);
    }
  }

  /** All raw orders, in order. */
  function Resolve(results: map<string, string>, minPrice: real, raw: seq<RawOrder>): (b: Book)
    ensures WellFormed(b)
  {
    if raw == [] then EmptyBook
    else
      var b := Resolve(results, minPrice, raw[..|raw| - 1]);
      TakeWellFormed(results, minPrice, b, raw[|raw| - 1]);
      Take(results, minPrice, b, raw[|raw| - 1])
  }

  // ---------------------------------------------------------------- the resolver

  /** The inner loop: match one sell against the oldest open buys, rewriting their rows. */
  method MatchOldest(rows: seq<Order>, queue: seq<BuyEntry>, size: real, price: real)
    returns (orders: seq<Order>, buys: seq<BuyEntry>, sellPnL: real)
    requires InRange(rows, queue)
    ensures Matched(orders, buys, sellPnL) == MatchSell(rows, queue, size, price)
  {
    hide RoundTrip;
    orders, buys, sellPnL := rows, queue, 0.0;
    var sellSize := size;
    while sellSize > 0.0 && |buys| > 0
      invariant InRange(orders, buys)
      invariant var r := MatchSell(orders, buys, sellSize, price);
                MatchSell(rows, queue, size, price) == Matched(r.orders, r.buys, sellPnL + r.pnl)
      decreases |buys|, sellSize > 0.0
    {
      var buy := buys[0];
      var matchSize := sellSize;
      if matchSize > buy.size {
        matchSize := buy.size;
      }
      sellPnL := sellPnL + RoundTrip(price, buy.price, matchSize);
      buy := buy.(size := buy.size - matchSize);
      sellSize := sellSize - matchSize;
      var row := orders[buy.orderIdx];
      orders := orders[buy.orderIdx := row.(pnl := 0.0, won := false, context := row.context + " [matched]")];
      if buy.size <= 0.0 {
        buys := buys[1..];
      } else {
        buys := buys[0 := buy];
      }
    }
  }

  method ResolveOrdersWithSells(rawOrders: seq<RawOrder>, mkts: seq<MarketRow>, minPrice: real)
    returns (orders: seq<Order>)
    ensures orders == Resolve(Results(mkts), minPrice, rawOrders).orders
  {
    var resultByMarket: map<string, string> := map[];
    for i := 0 to |mkts|
      invariant resultByMarket == Results(mkts[..i])
    {
      assert mkts[..i + 1][..i] == mkts[..i];
      resultByMarket := resultByMarket[mkts[i].ticker := mkts[i].result];
    }
    assert mkts[..|mkts|] == mkts;

    var openBuys: map<string, seq<BuyEntry>> := map[];
    orders := [];
    for i := 0 to |rawOrders|
      invariant Book(orders, openBuys) == Resolve(resultByMarket, minPrice, rawOrders[..i])
    {
      var o := rawOrders[i];
      ghost var before := Book(orders, openBuys);
      assert rawOrders[..i + 1][..i] == rawOrders[..i];
      assert Resolve(resultByMarket, minPrice, rawOrders[..i + 1]) == Take(resultByMarket, minPrice, before, o);
      var mktResult := if o.market in resultByMarket then resultByMarket[o.market] else "";
      if (minPrice > 0.0 && o.price < minPrice) || mktResult == "" {
        continue;
      }
      if o.action == "sell" || o.side == "close" {
        var buys := if o.market in openBuys then openBuys[o.market] else [];
        if |buys| == 0 {
          continue;
        }
        var sellPnL;
        orders, buys, sellPnL := MatchOldest(orders, buys, o.size, o.price);
        openBuys := openBuys[o.market := buys];
        orders := orders + [SellOrder(o, mktResult, sellPnL)];
      } else {
        var queue := if o.market in openBuys then openBuys[o.market] else [];
        openBuys := openBuys[o.market := queue + [BuyEntry(o.price, o.size, |orders|)]];
        orders := orders + [BuyOrder(o, mktResult)];
      }
    }
    assert rawOrders[..|rawOrders|] == rawOrders;
  }
}
