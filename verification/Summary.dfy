/** Aggregate statistics of resolved orders (the square-root ratios aside). */
module Summary {
  import opened Resolver
  import opened ResolverFifo
  import opened ResolverPnl

  /** `variance` and `downside` stand for the squares of the two deviations. */
  datatype Stats = Stats(
    totalSignals: nat, wins: nat, losses: nat, totalPayout: real, netPnl: real, totalInvested: real,
    winRate: real, roi: real, avgEdge: real, avgSize: real, avgPrice: real,
    variance: real, downside: real, maxDrawdown: real, profitFactor: real)

  const NoStats := Stats(0, 0, 0, 0.0, 0.0, 0.0, 0.0, 0.0, 0.0, 0.0, 0.0, 0.0, 0.0, 0.0, 0.0)

  // ---------------------------------------------------------------- sums over rows

  function SumBy(f: Order -> real, orders: seq<Order>): real {
    if orders == [] then 0.0 else SumBy(f, orders[..|orders| - 1]) + f(orders[|orders| - 1])
  }

  lemma SumByNext(f: Order -> real, orders: seq<Order>, n: nat)
    requires n < |orders|
    ensures SumBy(f, orders[..n + 1]) == SumBy(f, orders[..n]) + f(orders[n])
  {
    assert orders[..n + 1][..n] == orders[..n];
  }

  function PayoutOf(o: Order): real { if o.won then o.size else 0.0 }
  function InvestedIn(o: Order): real { o.size * o.price }
  function EdgeOf(o: Order): real { o.edgeCents as real }
  function SizeOf(o: Order): real { o.size }
  function PriceOf(o: Order): real { o.price }
  function Square(x: real): real { x * x }
  function SquareOf(o: Order): real { Square(o.pnl) }
  function LossSquareOf(o: Order): real { if o.pnl < 0.0 then Square(o.pnl) else 0.0 }

  function Deviation(orders: seq<Order>, mean: real): real {
    if orders == [] then 0.0
    else Deviation(orders[..|orders| - 1], mean) + Square(orders[|orders| - 1].pnl - mean)
  }

  lemma DeviationNext(orders: seq<Order>, mean: real, n: nat)
    requires n < |orders|
    ensures Deviation(orders[..n + 1], mean) == Deviation(orders[..n], mean) + Square(orders[n].pnl - mean)
  {
    assert orders[..n + 1][..n] == orders[..n];
  }

  lemma {:induction false} DeviationExpands(orders: seq<Order>, mean: real)
    ensures Deviation(orders, mean) ==
            SumBy(SquareOf, orders) - 2.0 * Worth(mean, SumPnl(orders)) + Worth(Square(mean), |orders| as real)
  {
    hide Worth, Square;
    WorthAdd(mean, 0.0, 0.0);
    WorthAdd(Square(mean), 0.0, 0.0);
    if orders != [] {
      var init, x := orders[..|orders| - 1], orders[|orders| - 1].pnl;
      DeviationExpands(init, mean);
      SquareOfDifference(x, mean);
      WorthAdd(mean, SumPnl(init), x);
      WorthAdd(Square(mean), |init| as real, 1.0);
    }
  }

  lemma SquareOfDifference(x: real, mean: real)
    ensures Square(x - mean) == Square(x) - 2.0 * Worth(mean, x) + Worth(Square(mean), 1.0)
  {
  }

  /** Squared deviations from the mean are the squares less the mean's share of the total. */
  lemma Variance(orders: seq<Order>, mean: real)
    requires mean * |orders| as real == SumPnl(orders)
    ensures Deviation(orders, mean) == SumBy(SquareOf, orders) - Worth(mean, SumPnl(orders))
  {
    hide Deviation, SumBy, SumPnl;
    DeviationExpands(orders, mean);
    MeanSquare(mean, |orders| as real, SumPnl(orders));
  }

  lemma MeanSquare(mean: real, n: real, total: real)
    requires mean * n == total
    ensures Worth(Square(mean), n) == Worth(mean, total)
  {
    assert mean * mean * n == mean * (mean * n);
  }

  // ---------------------------------------------------------------- running total

  /** Running total after the first `n` rows. */
  function Cumulative(orders: seq<Order>, n: nat): real
    requires n <= |orders|
  {
    SumPnl(orders[..n])
  }

  function Wins(orders: seq<Order>): set<nat> {
    set i: nat | i < |orders| && orders[i].won
  }

  /** `d` is the largest fall of the running total from any earlier point, its start included. */
  ghost predicate IsMaxDrawdown(orders: seq<Order>, n: nat, d: real)
    requires n <= |orders|
  {
    && (forall i: nat, j: nat | i <= j <= n :: Cumulative(orders, i) - Cumulative(orders, j) <= d)
    && (exists i: nat, j: nat | i <= j <= n :: Cumulative(orders, i) - Cumulative(orders, j) == d)
  }

  ghost predicate IsPeak(orders: seq<Order>, n: nat, peak: real)
    requires n <= |orders|
  {
    && (forall i: nat | i <= n :: Cumulative(orders, i) <= peak)
    && (exists i: nat | i <= n :: Cumulative(orders, i) == peak)
  }

  /** Sum of the winning rows' P&L. */
  function Gains(orders: seq<Order>): real {
    if orders == [] then 0.0
    else
      var x := orders[|orders| - 1].pnl;
      Gains(orders[..|orders| - 1]) + if x < 0.0 then 0.0 else x
  }

  lemma GainsStep(orders: seq<Order>, n: nat)
    requires n < |orders|
    ensures Gains(orders[..n + 1]) == Gains(orders[..n]) + if orders[n].pnl < 0.0 then 0.0 else orders[n].pnl
  {
    assert orders[..n + 1][..n] == orders[..n];
  }

  lemma CumulativeStep(orders: seq<Order>, n: nat)
    requires n < |orders|
    ensures Cumulative(orders, n + 1) == Cumulative(orders, n) + orders[n].pnl
  {
    assert orders[..n + 1][..n] == orders[..n];
  }

  lemma PeakStep(orders: seq<Order>, n: nat, peak: real, peak': real)
    requires n < |orders| && IsPeak(orders, n, peak)
    requires peak' == if Cumulative(orders, n + 1) > peak then Cumulative(orders, n + 1) else peak
    ensures IsPeak(orders, n + 1, peak')
  {
    hide Cumulative;
  }

  lemma DrawdownStep(orders: seq<Order>, n: nat, peak': real, d: real, d': real)
    requires n < |orders| && IsPeak(orders, n + 1, peak') && IsMaxDrawdown(orders, n, d)
    requires var dd := peak' - Cumulative(orders, n + 1); d' == if dd > d then dd else d
    ensures IsMaxDrawdown(orders, n + 1, d')
  {
    hide Cumulative;
    var i: nat :| i <= n + 1 && Cumulative(orders, i) == peak';
    var k: nat, j: nat :| k <= j <= n && Cumulative(orders, k) - Cumulative(orders, j) == d;
    if d' == d {
      assert k <= j <= n + 1 && Cumulative(orders, k) - Cumulative(orders, j) == d';
    } else {
      assert i <= n + 1 <= n + 1 && Cumulative(orders, i) - Cumulative(orders, n + 1) == d';
    }
  }

  lemma WinsStep(orders: seq<Order>, n: nat)
    requires n < |orders|
    ensures |Wins(orders[..n + 1])| == |Wins(orders[..n])| + if orders[n].won then 1 else 0
  {
    if orders[n].won {
      assert Wins(orders[..n + 1]) == Wins(orders[..n]) + {n};
    } else {
      assert Wins(orders[..n + 1]) == Wins(orders[..n]);
    }
  }

  datatype Sums = Sums(payout: real, pnl: real, invested: real, edge: real, size: real, price: real)

  predicate SumsOf(s: Sums, orders: seq<Order>) {
    && s.payout == SumBy(PayoutOf, orders) && s.pnl == SumPnl(orders) && s.invested == SumBy(InvestedIn, orders)
    && s.edge == SumBy(EdgeOf, orders) && s.size == SumBy(SizeOf, orders) && s.price == SumBy(PriceOf, orders)
  }

  lemma SumsNext(s: Sums, orders: seq<Order>, n: nat)
    requires n < |orders| && SumsOf(s, orders[..n])
    ensures var o := orders[n];
            SumsOf(Sums(s.payout + PayoutOf(o), s.pnl + o.pnl, s.invested + InvestedIn(o), s.edge + EdgeOf(o),
                        s.size + SizeOf(o), s.price + PriceOf(o)), orders[..n + 1])
  {
    SumByNext(PayoutOf, orders, n);
    SumByNext(InvestedIn, orders, n);
    SumByNext(EdgeOf, orders, n);
    SumByNext(SizeOf, orders, n);
    SumByNext(PriceOf, orders, n);
    CumulativeStep(orders, n);
    hide SumBy, SumPnl, PayoutOf, InvestedIn, EdgeOf, SizeOf, PriceOf;
  }

  /** First pass: counts and sums. */
  method Totals(orders: seq<Order>) returns (wins: nat, losses: nat, sums: Sums)
    ensures wins + losses == |orders| && wins == |Wins(orders)| && SumsOf(sums, orders)
  {
    wins, losses := 0, 0;
    var payout, pnl, invested, edge, size, price := 0.0, 0.0, 0.0, 0.0, 0.0, 0.0;
    assert Wins(orders[..0]) == {} by { NoWins(orders[..0]); }
    assert SumsOf(Sums(payout, pnl, invested, edge, size, price), orders[..0]);
    hide Wins, SumsOf;
    for n := 0 to |orders|
      invariant wins + losses == n && wins == |Wins(orders[..n])|
      invariant SumsOf(Sums(payout, pnl, invested, edge, size, price), orders[..n])
    {
      var o := orders[n];
      SumsNext(Sums(payout, pnl, invested, edge, size, price), orders, n);
      WinsStep(orders, n);
      if o.won {
        wins := wins + 1;
        payout := payout + o.size;
      } else {
        losses := losses + 1;
        assert payout == payout + PayoutOf(o);
      }
      pnl := pnl + o.pnl;
      invested := invested + o.size * o.price;
      edge := edge + o.edgeCents as real;
      size := size + o.size;
      price := price + o.price;
    }
    assert orders[..|orders|] == orders;
    sums := Sums(payout, pnl, invested, edge, size, price);
  }

  lemma NoWins(orders: seq<Order>)
    requires orders == []
    ensures Wins(orders) == {}
  {
  }

  /** The second pass's sums after `n` rows. */
  predicate RiskSums(orders: seq<Order>, mean: real, n: nat, sq: real, down: real, win: real, loss: real, cumulative: real)
    requires n <= |orders|
  {
    && sq == Deviation(orders[..n], mean) && down == SumBy(LossSquareOf, orders[..n])
    && win == Gains(orders[..n]) && cumulative == Cumulative(orders, n) == win - loss
  }

  lemma RiskNext(orders: seq<Order>, mean: real, n: nat, sq: real, down: real, win: real, loss: real, cumulative: real)
    requires n < |orders| && RiskSums(orders, mean, n, sq, down, win, loss, cumulative)
    ensures var x := orders[n].pnl;
            RiskSums(orders, mean, n + 1, sq + Square(x - mean),
                     if x < 0.0 then down + Square(x) else down, if x < 0.0 then win else win + x,
                     if x < 0.0 then loss + -x else loss, cumulative + x)
  {
    hide Deviation, SumBy, Gains, Cumulative, Square;
    CumulativeStep(orders, n);
    GainsStep(orders, n);
    DeviationNext(orders, mean, n);
    SumByNext(LossSquareOf, orders, n);
  }

  lemma RiskStart(orders: seq<Order>, mean: real)
    ensures RiskSums(orders, mean, 0, 0.0, 0.0, 0.0, 0.0, 0.0) && Cumulative(orders, 0) == 0.0 && IsPeak(orders, 0, 0.0) && IsMaxDrawdown(orders, 0, 0.0)
  {
    assert Cumulative(orders, 0) == 0.0 && Cumulative(orders, 0) - Cumulative(orders, 0) == 0.0;
    assert 0 <= 0 <= 0;
  }

  /** Second pass: squared deviations, gross win and loss, and the largest drawdown. */
  method Risk(orders: seq<Order>, mean: real)
    returns (sumSqDev: real, sumDownside: real, grossWin: real, grossLoss: real, maxDrawdown: real)
    ensures sumSqDev == Deviation(orders, mean) && sumDownside == SumBy(LossSquareOf, orders)
    ensures grossWin == Gains(orders) && grossWin - grossLoss == SumPnl(orders)
    ensures IsMaxDrawdown(orders, |orders|, maxDrawdown)
  {
    hide *;
    sumSqDev, sumDownside, grossWin, grossLoss, maxDrawdown := 0.0, 0.0, 0.0, 0.0, 0.0;
    var cumulative, peak := 0.0, 0.0;
    RiskStart(orders, mean);
    for n := 0 to |orders|
      invariant RiskSums(orders, mean, n, sumSqDev, sumDownside, grossWin, grossLoss, cumulative)
      invariant cumulative == Cumulative(orders, n)
      invariant IsPeak(orders, n, peak)
      invariant IsMaxDrawdown(orders, n, maxDrawdown)
    {
      var pnl := orders[n].pnl;
      RiskNext(orders, mean, n, sumSqDev, sumDownside, grossWin, grossLoss, cumulative);
      CumulativeStep(orders, n);
      sumSqDev := sumSqDev + Square(pnl - mean);
      if pnl < 0.0 {
        sumDownside := sumDownside + Square(pnl);
        grossLoss := grossLoss + -pnl;
      } else {
        grossWin := grossWin + pnl;
      }
      cumulative := cumulative + pnl;
      ghost var peak0, d0 := peak, maxDrawdown;
      if cumulative > peak {
        peak := cumulative;
      }
      PeakStep(orders, n, peak0, peak);
      var dd := peak - cumulative;
      if dd > maxDrawdown {
        maxDrawdown := dd;
      }
      DrawdownStep(orders, n, peak, d0, maxDrawdown);
    }
    RiskEnd(orders, mean, sumSqDev, sumDownside, grossWin, grossLoss, cumulative);
  }

  lemma RiskEnd(orders: seq<Order>, mean: real, sq: real, down: real, win: real, loss: real, cumulative: real)
    requires RiskSums(orders, mean, |orders|, sq, down, win, loss, cumulative)
    ensures sq == Deviation(orders, mean) && down == SumBy(LossSquareOf, orders)
    ensures win == Gains(orders) && win - loss == SumPnl(orders)
  {
    assert orders[..|orders|] == orders;
  }

  /** Times its divisor a quotient is its dividend, and nothing where that is not positive. */
  predicate IsQuotient(q: real, x: real, y: real) {
    if y > 0.0 then q * y == x else q == 0.0
  }

  function Quotient(x: real, y: real): (q: real)
    ensures IsQuotient(q, x, y)
  {
    if y > 0.0 then x / y else 0.0
  }

  /** Averages and ratios, each against the sums it is made of.  The variance is that of the
      rows' P&L about its mean. */
  predicate Averages(s: Stats, orders: seq<Order>) {
    var n, gains := |orders| as real, Gains(orders);
    && IsQuotient(s.winRate, 100.0 * |Wins(orders)| as real, n)
    && IsQuotient(s.roi, 100.0 * SumPnl(orders), SumBy(InvestedIn, orders))
    && IsQuotient(s.avgEdge, SumBy(EdgeOf, orders), n)
    && IsQuotient(s.avgSize, SumBy(SizeOf, orders), n)
    && IsQuotient(s.avgPrice, SumBy(PriceOf, orders), n)
    && IsQuotient(s.variance, SumBy(SquareOf, orders) - Worth(Quotient(SumPnl(orders), n), SumPnl(orders)), n)
    && IsQuotient(s.downside, SumBy(LossSquareOf, orders), n)
    && IsQuotient(s.profitFactor, gains, gains - SumPnl(orders))
  }

  lemma Hundredfold(q: real, x: real, y: real)
    requires IsQuotient(q, x, y)
    ensures IsQuotient(q * 100.0, 100.0 * x, y)
  {
    if y > 0.0 {
      assert q * 100.0 * y == 100.0 * (q * y);
    }
  }

  datatype Risks = Risks(sumSqDev: real, sumDownside: real, grossWin: real, grossLoss: real, maxDrawdown: real)

  function StatsOf(n: nat, wins: nat, losses: nat, sums: Sums, r: Risks): Stats {
    var rows := n as real;
    Stats(n, wins, losses, sums.payout, sums.pnl, sums.invested,
          Quotient(wins as real, rows) * 100.0, Quotient(sums.pnl, sums.invested) * 100.0,
          Quotient(sums.edge, rows), Quotient(sums.size, rows), Quotient(sums.price, rows),
          Quotient(r.sumSqDev, rows), Quotient(r.sumDownside, rows), r.maxDrawdown, Quotient(r.grossWin, r.grossLoss))
  }

  lemma StatsAverage(orders: seq<Order>, losses: nat, sums: Sums, r: Risks)
    requires orders != [] && SumsOf(sums, orders)
    requires r.sumSqDev == Deviation(orders, Quotient(sums.pnl, |orders| as real)) && r.sumDownside == SumBy(LossSquareOf, orders)
    requires r.grossWin == Gains(orders) && r.grossWin - r.grossLoss == SumPnl(orders)
    ensures Averages(StatsOf(|orders|, |Wins(orders)|, losses, sums, r), orders)
  {
    hide Wins, SumBy, SumPnl, Gains, Deviation, Worth;
    var n, wins := |orders| as real, |Wins(orders)| as real;
    assert IsQuotient(Quotient(sums.pnl, n), sums.pnl, n);
    Variance(orders, Quotient(sums.pnl, n));
    hide IsQuotient, Quotient;
    Hundredfold(Quotient(wins, n), wins, n);
    Hundredfold(Quotient(sums.pnl, sums.invested), sums.pnl, sums.invested);
  }

  method ComputeSummary(orders: seq<Order>) returns (s: Stats)
    ensures s.totalSignals == |orders| == s.wins + s.losses && s.wins == |Wins(orders)|
    ensures s.totalPayout == SumBy(PayoutOf, orders) && s.netPnl == SumPnl(orders) && s.totalInvested == SumBy(InvestedIn, orders)
    ensures Averages(s, orders)
    ensures IsMaxDrawdown(orders, |orders|, s.maxDrawdown)
  {
    if |orders| == 0 {
      NoRows(orders);
      return NoStats;
    }
    hide Averages, Quotient, IsMaxDrawdown, Wins, SumBy, SumPnl, Gains, Deviation;
    var wins, losses, sums := Totals(orders);
    var sumSqDev, sumDownside, grossWin, grossLoss, maxDrawdown := Risk(orders, Quotient(sums.pnl, |orders| as real));
    var risks := Risks(sumSqDev, sumDownside, grossWin, grossLoss, maxDrawdown);
    StatsAverage(orders, losses, sums, risks);
    s := StatsOf(|orders|, wins, losses, sums, risks);
  }

  lemma NoRows(orders: seq<Order>)
    requires orders == []
    ensures Wins(orders) == {} && IsMaxDrawdown(orders, 0, 0.0) && Averages(NoStats, orders)
  {
    RiskStart(orders, 0.0);
    assert IsQuotient(0.0, SumPnl(orders), 0.0);
  }

  // ---------------------------------------------------------------- what the sums are

  /** The sums over two rows, spelled out. */
  lemma TwoRows(x: Order, y: Order)
    ensures var rows := [x, y];
            && SumBy(PayoutOf, rows) == (if x.won then x.size else 0.0) + (if y.won then y.size else 0.0)
            && SumBy(InvestedIn, rows) == x.size * x.price + y.size * y.price
            && SumBy(EdgeOf, rows) == x.edgeCents as real + y.edgeCents as real
            && SumBy(SizeOf, rows) == x.size + y.size && SumBy(PriceOf, rows) == x.price + y.price
            && SumBy(SquareOf, rows) == x.pnl * x.pnl + y.pnl * y.pnl
            && SumPnl(rows) == x.pnl + y.pnl
  {
    assert [x, y][..1] == [x] && [x][..0] == [];
    assert SumPnl([x]) == x.pnl;
    PairSum(PayoutOf, x, y);
    PairSum(InvestedIn, x, y);
    PairSum(EdgeOf, x, y);
    PairSum(SizeOf, x, y);
    PairSum(PriceOf, x, y);
    PairSum(SquareOf, x, y);
  }

  lemma PairSum(f: Order -> real, x: Order, y: Order)
    ensures SumBy(f, [x, y]) == f(x) + f(y)
  {
    assert [x, y][..1] == [x] && [x][..0] == [];
    assert SumBy(f, [x]) == f(x);
  }

  function Winners(orders: seq<Order>): seq<Order> {
    if orders == [] then []
    else
      var o := orders[|orders| - 1];
      Winners(orders[..|orders| - 1]) + if o.pnl > 0.0 then [o] else []
  }

  /** Gross win is the net P&L of the rows that earned something. */
  lemma {:induction false} GainsAreWinners(orders: seq<Order>)
    ensures Gains(orders) == SumPnl(Winners(orders))
  {
    if orders != [] {
      var init, o := orders[..|orders| - 1], orders[|orders| - 1];
      GainsAreWinners(init);
      if o.pnl > 0.0 {
        assert (Winners(init) + [o])[..|Winners(init)|] == Winners(init);
      } else {
        assert Winners(init) + [] == Winners(init);
      }
    }
  }

  /** For buys held to settlement, payout less what was invested is the net P&L. */
  lemma {:induction false} SettledTotals(results: map<string, string>, minPrice: real, raw: seq<RawOrder>)
    requires forall i :: 0 <= i < |raw| ==> !IsSell(raw[i])
    ensures var rows := Resolve(results, minPrice, raw).orders;
            SumBy(PayoutOf, rows) - SumBy(InvestedIn, rows) == SumPnl(rows)
  {
    BuyOnlySettles(results, minPrice, raw);
    SettledSums(results, minPrice, raw);
  }

  lemma {:induction false} SettledSums(results: map<string, string>, minPrice: real, raw: seq<RawOrder>)
    ensures var rows := SettledRows(results, minPrice, raw);
            SumBy(PayoutOf, rows) - SumBy(InvestedIn, rows) == SumPnl(rows)
  {
    if raw != [] {
      var init, o := raw[..|raw| - 1], raw[|raw| - 1];
      SettledSums(results, minPrice, init);
      hide SumBy, SumPnl, Kept;
      if Kept(results, minPrice, o) {
        var row := BuyOrder(o, ResultOf(results, o.market));
        SumsAppend(SettledRows(results, minPrice, init), row);
        assert row.pnl == PayoutOf(row) - InvestedIn(row) by { SettledRow(o, ResultOf(results, o.market)); }
      }
    }
  }

  lemma SettledRow(o: RawOrder, result: string)
    ensures var row := BuyOrder(o, result); row.pnl == PayoutOf(row) - InvestedIn(row)
  {
    assert o.size * (1.0 - o.price) == o.size - o.size * o.price;
  }

  lemma SumsAppend(rows: seq<Order>, row: Order)
    ensures SumBy(PayoutOf, rows + [row]) == SumBy(PayoutOf, rows) + PayoutOf(row)
    ensures SumBy(InvestedIn, rows + [row]) == SumBy(InvestedIn, rows) + InvestedIn(row)
    ensures SumPnl(rows + [row]) == SumPnl(rows) + row.pnl
  {
    assert (rows + [row])[..|rows|] == rows;
  }
}
