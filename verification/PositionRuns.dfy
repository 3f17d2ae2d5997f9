/** Every run of operations on one position row, in any order and from any caller, beside
    the cash that the accepted operations moved.
 */
module PositionRuns {
  import opened Wrappers
  import opened Money
  import opened Positions
  import opened Fractions

  datatype Op =
    | Buy(count: real, price: real, now: int)
    | MarkNo
    | Sell(count: real, price: real, now: int)
    | Settle(won: bool, now: int)

  function Apply(row: Option<Position>, op: Op): Option<Position> {
    match op
    case Buy(n, price, now) => var r := BuyRow(row, n, price, now); if r.Ok? then Some(r.value) else row
    case MarkNo => if row.Some? then Some(row.value.(action := "buy_no")) else row
    case Sell(n, price, now) => var r := SellRow(row, n, price, now); if r.Ok? then Some(r.value.position) else row
    case Settle(won, now) => if row.Some? then Some(SettleRow(row.value, won, now)) else row
  }

  /** Kept apart so that proofs can treat amounts as plain numbers. */
  function Dollars(count: real, price: real): real { count * price }

  /** Dollar amounts of the accepted operations.  `paid` and `received` are what was paid and
      received at the prices charged; `cost` and `proceeds` are the same at the prices the
      manager clamps them to.  `basis` is the average entry price charged, at the time, for
      the contracts that left the position.  `openedAt` is the time of the first buy, `endedAt`
      that of the sale or settlement that left nothing open, zero while something is. */
  datatype Ledger = Ledger(
    paid: real, received: real, cost: real, proceeds: real, payout: real, basis: real,
    sells: nat, settles: nat, boughtAfterSell: bool, openedAt: int, endedAt: int)

  const Empty := Ledger(0.0, 0.0, 0.0, 0.0, 0.0, 0.0, 0, 0, false, 0, 0)

  /** Cash in less cash out. */
  function Cash(led: Ledger): real { led.received + led.payout - led.paid }

  /** What clamping the prices hides: paid above a dollar or received below nothing, less
      received above a dollar. */
  function Hidden(led: Ledger): real { (led.paid - led.cost) + (led.proceeds - led.received) }

  function Record(row: Option<Position>, led: Ledger, op: Op): Ledger {
    match op
    case Buy(n, price, now) =>
      if BuyRow(row, n, price, now).Err? then led
      else led.(paid := led.paid + Dollars(n, price), cost := led.cost + Dollars(n, AtMostOne(price)),
                boughtAfterSell := led.boughtAfterSell || led.sells > 0,
                openedAt := if row.None? then now else led.openedAt, endedAt := 0)
    case MarkNo => led
    case Sell(n, price, now) =>
      if SellRow(row, n, price, now).Err? then led
      else led.(received := led.received + Dollars(n, price), proceeds := led.proceeds + Dollars(n, ClampPrice(price)),
                basis := led.basis + Dollars(n, row.value.avgEntry), sells := led.sells + 1,
                endedAt := if row.value.sold + n == row.value.bought then now else led.endedAt)
    case Settle(won, now) =>
      if row.None? || row.value.status == Settled then led
      else led.(payout := led.payout + (if Wins(row.value, won) then Remaining(row.value) else 0.0),
                basis := led.basis + Dollars(Remaining(row.value), row.value.avgEntry), settles := led.settles + 1,
                endedAt := now)
  }

  datatype Run = Run(row: Option<Position>, ledger: Ledger)

  function Perform(ops: seq<Op>): Run {
    if ops == [] then Run(None, Empty)
    else
      var before := Perform(ops[..|ops| - 1]);
      var op := ops[|ops| - 1];
      Run(Apply(before.row, op), Record(before.row, before.ledger, op))
  }

  // ---------------------------------------------------------------- arithmetic

  lemma ReweightTotal(n: real, avg: real, m: real, price: real)
    requires n >= 0.0 && m > 0.0 && Unit(avg) && Unit(price)
    ensures Dollars(n + m, Reweight(n, avg, m, price)) == Dollars(n, avg) + Dollars(m, price)
    ensures Unit(Reweight(n, avg, m, price))
  {
    ScaledUnit(n, avg);
    ScaledUnit(m, price);
    WeightedMean(n + m, n * avg, m * price, n, m);
  }

  lemma WeightedMean(t: real, x: real, y: real, n: real, m: real)
    requires t == n + m && t > 0.0 && 0.0 <= x <= n && 0.0 <= y <= m
    ensures t * ((x + y) / t) == x + y && Unit((x + y) / t)
  {
    Share(x + y, t);
  }

  lemma ScaledUnit(n: real, x: real)
    requires n >= 0.0 && Unit(x)
    ensures 0.0 <= n * x <= n && 0.0 <= Dollars(n, x) <= n
  {
    assert n * (1.0 - x) >= 0.0;
  }

  /** Truncating `x + 0.5` rounds gains to the nearest cent but moves losses up by as much
      as a cent and a half. */
  lemma RoundingError(x: real)
    ensures -0.5 < Truncate(x + 0.5) as real - x < 1.5
    ensures x >= 0.0 ==> Truncate(x + 0.5) as real - x <= 0.5
  {
  }

  /** The same for `n` contracts between two prices. */
  lemma CentsError(exit: real, entry: real, n: real)
    ensures -0.5 < Cents(exit, entry, n) as real - 100.0 * (Dollars(n, exit) - Dollars(n, entry)) < 1.5
    ensures Dollars(n, exit) >= Dollars(n, entry) ==>
              Cents(exit, entry, n) as real - 100.0 * (Dollars(n, exit) - Dollars(n, entry)) <= 0.5
  {
    var x := (exit - entry) * n * 100.0;
    assert x == 100.0 * (n * exit - n * entry);
    RoundingError(x);
  }

  lemma DollarsAdd(n: real, m: real, price: real)
    ensures Dollars(n + m, price) == Dollars(n, price) + Dollars(m, price)
    ensures Dollars(0.0, price) == 0.0 && Dollars(n, 1.0) == n && Dollars(n, 0.0) == 0.0
  {
  }

  // ---------------------------------------------------------------- the invariant

  /** Distance of the booked cents from the exact result of the contracts that left. */
  function Excess(p: Position, led: Ledger): real {
    p.realizedCents as real - 100.0 * (led.proceeds + led.payout - led.basis)
  }

  predicate Counts(p: Position, led: Ledger) {
    && 0.0 <= p.sold <= p.bought && p.bought > 0.0
    && Unit(p.avgEntry) && Unit(p.avgExit)
    && Dollars(p.bought, p.avgEntry) == led.cost
    && Dollars(p.sold, p.avgExit) == led.proceeds
    && (led.sells == 0 <==> p.sold == 0.0)
  }

  predicate Lifecycle(p: Position, led: Ledger) {
    && (p.status != Settled ==> (p.status == Closed <==> p.sold == p.bought))
    && led.settles == (if p.status == Settled then 1 else 0)
    && (p.status != Settled ==> led.payout == 0.0)
    && p.openedTS == led.openedAt && p.closedTS == led.endedAt && (p.status == Open ==> led.endedAt == 0)
  }

  predicate Rounding(p: Position, led: Ledger) {
    && -0.5 * (led.sells + led.settles) as real <= Excess(p, led)
    && Excess(p, led) <= 1.5 * led.sells as real + 0.5 * led.settles as real
    && (led.sells > 0 ==> Excess(p, led) < 1.5 * led.sells as real + 0.5 * led.settles as real)
  }

  /** Contracts that have left the position: sold, and settled if it is. */
  function Left(p: Position): real { if p.status == Settled then p.bought else p.sold }

  predicate Basis(p: Position, led: Ledger) {
    !led.boughtAfterSell ==> led.basis == Dollars(Left(p), p.avgEntry)
  }

  predicate Inv(r: Run) {
    match r.row
    case None => r.ledger == Empty
    case Some(p) => Counts(p, r.ledger) && Lifecycle(p, r.ledger) && Rounding(p, r.ledger) && Basis(p, r.ledger)
  }

  lemma BuyKeepsInv(r: Run, n: real, price: real, now: int)
    requires Inv(r)
    ensures Inv(Run(Apply(r.row, Buy(n, price, now)), Record(r.row, r.ledger, Buy(n, price, now))))
  {
    hide Dollars, Reweight;
    if BuyRow(r.row, n, price, now).Ok? {
      var unit := AtMostOne(price);
      DollarsAdd(0.0, 0.0, unit);
      DollarsAdd(0.0, 0.0, 0.0);
      if r.row.Some? {
        var p := r.row.value;
        ReweightTotal(p.bought, p.avgEntry, n, unit);
        DollarsAdd(0.0, 0.0, Reweight(p.bought, p.avgEntry, n, unit));
        DollarsAdd(0.0, 0.0, p.avgEntry);
      }
    }
  }

  lemma SellKeepsInv(r: Run, n: real, price: real, now: int)
    requires Inv(r)
    ensures Inv(Run(Apply(r.row, Sell(n, price, now)), Record(r.row, r.ledger, Sell(n, price, now))))
  {
    hide Dollars, Reweight, Cents;
    if SellRow(r.row, n, price, now).Ok? {
      var p, unit := r.row.value, ClampPrice(price);
      ReweightTotal(p.sold, p.avgExit, n, unit);
      CentsError(unit, p.avgEntry, n);
      DollarsAdd(p.sold, n, p.avgEntry);
    }
  }

  lemma SettleKeepsInv(r: Run, won: bool, now: int)
    requires Inv(r)
    ensures Inv(Run(Apply(r.row, Settle(won, now)), Record(r.row, r.ledger, Settle(won, now))))
  {
    if r.row.Some? && r.row.value.status != Settled {
      var p := r.row.value;
      var n := Remaining(p);
      hide Dollars, Cents;
      ScaledUnit(n, p.avgEntry);
      CentsError(1.0, p.avgEntry, n);
      CentsError(p.avgEntry, 0.0, n);
      DollarsAdd(p.sold, n, p.avgEntry);
      DollarsAdd(n, 0.0, p.avgEntry);
    }
  }

  lemma {:induction false} RunInv(ops: seq<Op>)
    ensures Inv(Perform(ops))
  {
    hide Dollars, Reweight, Cents;
    if ops != [] {
      var before := Perform(ops[..|ops| - 1]);
      RunInv(ops[..|ops| - 1]);
      match ops[|ops| - 1]
      case Buy(n, price, now) => BuyKeepsInv(before, n, price, now);
      case MarkNo =>
        assert before.row.Some? ==> Excess(Apply(before.row, MarkNo).value, before.ledger) == Excess(before.row.value, before.ledger);
      case Sell(n, price, now) => SellKeepsInv(before, n, price, now);
      case Settle(won, now) => SettleKeepsInv(before, won, now);
    }
  }

  // ---------------------------------------------------------------- one operation

  /** A buy is refused exactly for a count that is not positive, a negative price or a settled
      row, in that order. */
  lemma BuyRefused(row: Option<Position>, count: real, price: real, now: int)
    ensures BuyRow(row, count, price, now) == Err(BadCount) <==> count <= 0.0
    ensures BuyRow(row, count, price, now) == Err(BadPrice) <==> count > 0.0 && price < 0.0
    ensures BuyRow(row, count, price, now) == Err(IsSettled) <==>
              count > 0.0 && price >= 0.0 && row.Some? && row.value.status == Settled
    ensures BuyRow(row, count, price, now).Err? <==>
              count <= 0.0 || price < 0.0 || (row.Some? && row.value.status == Settled)
  {
  }

  /** A sell is refused exactly for a count that is not positive, a settled row, or more
      contracts than are open. */
  lemma SellRefused(row: Option<Position>, count: real, price: real, now: int)
    ensures SellRow(row, count, price, now) == Err(BadCount) <==> count <= 0.0
    ensures SellRow(row, count, price, now) == Err(IsSettled) <==> count > 0.0 && row.Some? && row.value.status == Settled
    ensures SellRow(row, count, price, now) == Err(NoOpenPosition) <==>
              && count > 0.0
              && (row.None? || (row.value.status != Settled && row.value.bought <= row.value.sold))
    ensures SellRow(row, count, price, now) == Err(InsufficientSize) <==>
              && count > 0.0 && row.Some? && row.value.status != Settled
              && 0.0 < row.value.bought - row.value.sold < count
    ensures SellRow(row, count, price, now).Ok? <==>
              count > 0.0 && row.Some? && row.value.status != Settled && count <= row.value.bought - row.value.sold
  {
    hide Cents;
  }

  /** A sell books its exact result in cents with half a cent added and the fraction dropped,
      towards zero: a whole number of cents lost is booked as one less. */
  lemma SellBooks(p: Position, count: real, price: real, now: int, k: int)
    requires count > 0.0 && p.status != Settled && count <= p.bought - p.sold && Unit(price)
    ensures SellRow(Some(p), count, price, now).Ok?
    ensures var sale := SellRow(Some(p), count, price, now).value;
            && (ExactCents(price, p.avgEntry, count) == k as real ==> sale.cents == if k >= 0 then k else k + 1)
            && sale.position.realizedCents - p.realizedCents == sale.cents
  {
    hide Cents, Books, ExactCents, Reweight;
    CentsBooks(price, p.avgEntry, count);
    WholeCents(Cents(price, p.avgEntry, count), k);
  }

  /** One contract held at 50 cents and sold at 45, five cents lost: four are booked. */
  lemma FiveCentsLost()
    ensures var p := Position("", 1.0, 0.0, 0.5, 0.0, 0, Open, 0, 0);
            SellRow(Some(p), 1.0, 0.45, 1).Ok? && SellRow(Some(p), 1.0, 0.45, 1).value.cents == -4
  {
    var p := Position("", 1.0, 0.0, 0.5, 0.0, 0, Open, 0, 0);
    assert ExactCents(0.45, 0.5, 1.0) == -5.0;
    SellBooks(p, 1.0, 0.45, 1, -5);
  }

  /** A settlement books the open contracts at a dollar or at nothing. */
  lemma SettleBooks(p: Position, won: bool, now: int)
    requires p.status != Settled
    ensures SettlementBooks(p, won, SettleRow(p, won, now).realizedCents - p.realizedCents, Remaining(p))
  {
    hide Cents, Books, ExactCents;
    CentsBooks(1.0, p.avgEntry, Remaining(p));
    CentsBooks(p.avgEntry, 0.0, Remaining(p));
  }

  // ---------------------------------------------------------------- what every run keeps

  /** The state machine, in every run. */
  lemma PositionStateMachine(ops: seq<Op>)
    ensures var r := Perform(ops);
            r.row.Some? ==>
              var p := r.row.value;
              && 0.0 <= p.sold <= p.bought
              && Unit(p.avgEntry) && Unit(p.avgExit)
              && p.bought * p.avgEntry == r.ledger.cost
              && p.sold * p.avgExit == r.ledger.proceeds
              && (p.status != Settled ==> (p.status == Closed <==> p.sold == p.bought))
              && (p.status == Settled <==> r.ledger.settles == 1)
              && r.ledger.settles <= 1
              && p.openedTS == r.ledger.openedAt && p.closedTS == r.ledger.endedAt
  {
    hide Perform;
    RunInv(ops);
  }

  /** Settled is absorbing: nothing but the action label can change afterwards, so a second
      settlement, from whichever path, adds nothing. */
  lemma {:induction false} SettledIsFinal(ops: seq<Op>, more: seq<Op>)
    requires Perform(ops).row.Some? && Perform(ops).row.value.status == Settled
    ensures var r, r' := Perform(ops), Perform(ops + more);
            && r'.row.Some? && r'.ledger == r.ledger
            && r'.row.value == r.row.value.(action := r'.row.value.action)
  {
    if more == [] {
      assert ops + more == ops;
    } else {
      var init := more[..|more| - 1];
      SettledIsFinal(ops, init);
      assert (ops + more)[..|ops + more| - 1] == ops + init;
    }
  }

  /** How far rounding alone can move the booked cents: down by half a cent per sale and
      settlement, up by a cent and a half per sale and half a cent more. */
  predicate WithinRounding(error: real, led: Ledger) {
    && -0.5 * (led.sells + led.settles) as real <= error
    && error <= 1.5 * led.sells as real + 0.5
    && (led.sells > 0 ==> error < 1.5 * led.sells as real + 0.5)
  }

  /** A position with nothing left open, bought before it was first sold: booked P&L is the
      cash flow and what clamping hides of it, up to rounding. */
  lemma PositionAccounting(ops: seq<Op>)
    requires var r := Perform(ops); r.row.Some? && r.row.value.status != Open && !r.ledger.boughtAfterSell
    ensures var r := Perform(ops);
            WithinRounding(r.row.value.realizedCents as real - 100.0 * (Cash(r.ledger) + Hidden(r.ledger)), r.ledger)
  {
    hide Dollars;
    RunInv(ops);
  }

  /** In every run, buying again after a sale included, booked P&L measures proceeds and
      payouts against the averages charged at the time: it is the cash flow, what clamping
      hides, and the difference between the cost of the contracts that left and those
      averages, up to rounding. */
  lemma PositionDrift(ops: seq<Op>)
    ensures var r := Perform(ops);
            r.row.Some? && r.row.value.status != Open ==>
              WithinRounding(r.row.value.realizedCents as real
                               - 100.0 * (Cash(r.ledger) + Hidden(r.ledger) + (r.ledger.cost - r.ledger.basis)), r.ledger)
  {
    hide Dollars;
    RunInv(ops);
  }

  // ---------------------------------------------------------------- prices that get clamped

  /** An accepted order at a price that is no fraction of a dollar. */
  predicate Clamps(row: Option<Position>, op: Op) {
    match op
    case Buy(n, price, now) => BuyRow(row, n, price, now).Ok? && !Unit(price)
    case Sell(n, price, now) => SellRow(row, n, price, now).Ok? && !Unit(price)
    case _ => false
  }

  predicate NoneClamped(ops: seq<Op>) {
    forall i :: 0 <= i < |ops| ==> !Clamps(Perform(ops[..i]).row, ops[i])
  }

  /** No accepted sell is above a dollar. */
  predicate NoDearSell(ops: seq<Op>) {
    forall i :: 0 <= i < |ops| ==>
      !(Clamps(Perform(ops[..i]).row, ops[i]) && ops[i].Sell? && ops[i].price > 1.0)
  }

  lemma ClampDifference(n: real, price: real)
    requires n > 0.0
    ensures Dollars(n, price) >= Dollars(n, AtMostOne(price)) && (Dollars(n, price) == Dollars(n, AtMostOne(price)) <==> price <= 1.0)
    ensures price <= 1.0 ==>
              Dollars(n, ClampPrice(price)) >= Dollars(n, price) && (Dollars(n, ClampPrice(price)) == Dollars(n, price) <==> price >= 0.0)
  {
    if price > 1.0 {
      assert n * (price - 1.0) > 0.0;
    }
    if price < 0.0 {
      assert n * price < 0.0;
    }
  }

  lemma HiddenStep(row: Option<Position>, led: Ledger, op: Op)
    requires !(Clamps(row, op) && op.Sell? && op.price > 1.0)
    ensures Hidden(Record(row, led, op)) >= Hidden(led)
    ensures Hidden(Record(row, led, op)) == Hidden(led) <==> !Clamps(row, op)
  {
    hide Dollars;
    if (op.Buy? || op.Sell?) && op.count > 0.0 {
      ClampDifference(op.count, op.price);
    }
  }

  lemma ClampedLast(ops: seq<Op>)
    requires ops != []
    ensures var init, op := ops[..|ops| - 1], ops[|ops| - 1];
            var row := Perform(init).row;
            && (NoneClamped(ops) <==> NoneClamped(init) && !Clamps(row, op))
            && (NoDearSell(ops) <==> NoDearSell(init) && !(Clamps(row, op) && op.Sell? && op.price > 1.0))
  {
    hide Clamps, Perform;
    var init := ops[..|ops| - 1];
    assert forall i :: 0 <= i <= |init| ==> init[..i] == ops[..i];
  }

  /** Without sells above a dollar, clamping never hides a gain, and it hides nothing exactly
      when every accepted price is a fraction of a dollar. */
  lemma {:induction false} NothingHidden(ops: seq<Op>)
    requires NoDearSell(ops)
    ensures Hidden(Perform(ops).ledger) >= 0.0
    ensures Hidden(Perform(ops).ledger) == 0.0 <==> NoneClamped(ops)
  {
    if ops != [] {
      var init, op := ops[..|ops| - 1], ops[|ops| - 1];
      ClampedLast(ops);
      hide NoneClamped, NoDearSell, Clamps, Record, Hidden;
      NothingHidden(init);
      HiddenStep(Perform(init).row, Perform(init).ledger, op);
    }
  }

  /** So at prices that are fractions of a dollar booked P&L follows cash. */
  lemma ProperAccounting(ops: seq<Op>)
    requires var r := Perform(ops); r.row.Some? && r.row.value.status != Open && !r.ledger.boughtAfterSell
    requires NoneClamped(ops)
    ensures var r := Perform(ops); WithinRounding(r.row.value.realizedCents as real - 100.0 * Cash(r.ledger), r.ledger)
  {
    hide Perform, Clamps, WithinRounding;
    PositionAccounting(ops);
    NothingHidden(ops);
  }

  /** Ten contracts at an all-in price of 1.02, lost: ten dollars are booked, 10.20 are gone. */
  lemma PaidAboveADollar()
    ensures var ops := [Buy(10.0, 1.02, 0), Settle(false, 1)];
            var r := Perform(ops);
            && r.row.Some? && r.row.value.realizedCents == -1000
            && Cash(r.ledger) == -10.2 && Hidden(r.ledger) == 0.2
  {
    hide Dollars, BuyRow, SellRow, SettleRow, Perform, Remaining;
    var a, b := Buy(10.0, 1.02, 0), Settle(false, 1);
    DearNumbers();
    NothingPerformed();
    PerformStep([], a);
    PerformStep([a], b);
    assert [] + [a] == [a] && [a] + [b] == [a, b];
  }

  const DearRow := Position("", 10.0, 0.0, 1.0, 0.0, 0, Open, 0, 0)

  lemma DearNumbers()
    ensures Dollars(10.0, 1.02) == 10.2 && Dollars(10.0, AtMostOne(1.02)) == 10.0
    ensures BuyRow(None, 10.0, 1.02, 0) == Ok(DearRow)
    ensures SettleRow(DearRow, false, 1) == DearRow.(realizedCents := -1000, status := Settled, closedTS := 1)
  {
    assert Truncate(1000.5) == 1000;
  }

  lemma NothingPerformed()
    ensures Perform([]) == Run(None, Empty)
  {
  }

  /** The gap is real: bought at 20 cents, sold at 40, bought back at 60 and lost, the row
      shows a loss of 20 cents where 40 were lost. */
  lemma RebuyExample()
    ensures var ops := [Buy(1.0, 0.2, 0), Sell(1.0, 0.4, 1), Buy(1.0, 0.6, 2), Settle(false, 3)];
            var r := Perform(ops);
            && r.row.Some? && r.row.value.realizedCents == -20
            && Cash(r.ledger) == -0.4 && Hidden(r.ledger) == 0.0
  {
    hide Dollars, Cents, Reweight, Truncate, Perform;
    var a, b, c, d := Buy(1.0, 0.2, 0), Sell(1.0, 0.4, 1), Buy(1.0, 0.6, 2), Settle(false, 3);
    RebuyNumbers();
    RebuySold();
    PerformStep([a, b], c);
    PerformStep([a, b, c], d);
    assert [a, b] + [c] == [a, b, c] && [a, b, c] + [d] == [a, b, c, d];
    assert Perform([a, b, c]).row == Some(Position("", 2.0, 1.0, 0.4, 0.4, 20, Open, 0, 0));
    assert Remaining(Perform([a, b, c]).row.value) == 1.0;
  }

  lemma RebuyNumbers()
    ensures AtMostOne(0.2) == 0.2 && ClampPrice(0.4) == 0.4
    ensures Dollars(1.0, 0.2) == 0.2 && Dollars(1.0, 0.4) == 0.4 && Dollars(1.0, 0.6) == 0.6
    ensures Cents(0.4, 0.2, 1.0) == 20 && Cents(0.4, 0.0, 1.0) == 40
    ensures Reweight(1.0, 0.2, 1.0, 0.6) == 0.4 && Reweight(0.0, 0.0, 1.0, 0.4) == 0.4
  {
    assert Truncate(20.5) == 20 && Truncate(40.5) == 40;
  }

  const FirstRow := Position("", 1.0, 0.0, 0.2, 0.0, 0, Open, 0, 0)
  const SoldRow := Position("", 1.0, 1.0, 0.2, 0.4, 20, Closed, 0, 1)

  lemma RebuyRows()
    ensures BuyRow(None, 1.0, 0.2, 0) == Ok(FirstRow)
    ensures SellRow(Some(FirstRow), 1.0, 0.4, 1) == Ok(Sale(SoldRow, 20, 0.0))
  {
    hide Cents, Reweight, Truncate;
    RebuyNumbers();
  }

  /** The first two operations of the example: bought and sold again. */
  lemma RebuySold()
    ensures var r := Perform([Buy(1.0, 0.2, 0), Sell(1.0, 0.4, 1)]);
            && r.row == Some(SoldRow)
            && r.ledger.cost == 0.2 == r.ledger.paid && r.ledger.proceeds == 0.4 == r.ledger.received && r.ledger.payout == 0.0
  {
    hide Dollars, BuyRow, SellRow, SettleRow, Perform, AtMostOne, ClampPrice;
    var a, b := Buy(1.0, 0.2, 0), Sell(1.0, 0.4, 1);
    RebuyNumbers();
    RebuyRows();
    NothingPerformed();
    PerformStep([], a);
    PerformStep([a], b);
    assert [] + [a] == [a] && [a] + [b] == [a, b];
  }

  lemma PerformStep(ops: seq<Op>, op: Op)
    ensures var r := Perform(ops); Perform(ops + [op]) == Run(Apply(r.row, op), Record(r.row, r.ledger, op))
  {
    assert (ops + [op])[..|ops|] == ops;
  }

  // ---------------------------------------------------------------- the two halves of a NO buy

  /** The label of a NO buy is written in a transaction of its own; buys and sells that come
      between the two do not notice. */
  lemma LabelCommutes(row: Option<Position>, op: Op)
    requires row.Some? && (op.Buy? || op.Sell?)
    ensures Apply(Apply(row, op), MarkNo) == Apply(Apply(row, MarkNo), op)
  {
  }

  lemma CentsNonNegative(exit: real, entry: real, n: real)
    requires exit >= entry && n >= 0.0
    ensures Cents(exit, entry, n) >= 0
  {
    assert (exit - entry) * n >= 0.0;
  }

  /** A settlement that comes between them books the position as a YES position.  The order
      makes no difference exactly when the row is settled or labelled already, nothing is
      left open, or what is open rounds to no cents on either side. */
  lemma LabelRace(p: Position, won: bool, now: int)
    requires Unit(p.avgEntry)
    ensures Apply(Apply(Some(p), Settle(won, now)), MarkNo) == Apply(Apply(Some(p), MarkNo), Settle(won, now))
            <==> || p.status == Settled || p.action == "buy_no" || Remaining(p) <= 0.0
                 || Cents(1.0, p.avgEntry, Remaining(p)) == 0 == Cents(p.avgEntry, 0.0, Remaining(p))
  {
    if Remaining(p) > 0.0 {
      CentsNonNegative(1.0, p.avgEntry, Remaining(p));
      CentsNonNegative(p.avgEntry, 0.0, Remaining(p));
    }
    hide Cents;
  }

  /** Ten NO contracts at 40 cents, market resolved to no: six dollars gained, or four lost if
      the settlement gets in between. */
  lemma SettledBeforeLabel()
    ensures var p := Position("", 10.0, 0.0, 0.4, 0.0, 0, Open, 0, 0);
            && Apply(Apply(Some(p), MarkNo), Settle(false, 1)).value.realizedCents == 600
            && Apply(Apply(Some(p), Settle(false, 1)), MarkNo).value.realizedCents == -400
  {
    assert Truncate(600.5) == 600 && Truncate(400.5) == 400;
  }

  /** A manager driven by the operations takes its row through the same states and leaves
      every other row alone. */
  method Drive(m: Manager, key: Key, ops: seq<Op>)
    requires key !in m.rows
    modifies m
    ensures m.Row(key) == Perform(ops).row
    ensures m.rows - {key} == old(m.rows)
  {
    for i := 0 to |ops|
      invariant m.Row(key) == Perform(ops[..i]).row
      invariant m.rows - {key} == old(m.rows)
    {
      assert ops[..i + 1] == ops[..i] + [ops[i]];
      PerformStep(ops[..i], ops[i]);
      match ops[i]
      case Buy(n, price, now) => var _ := m.ApplyBuy(key, n, price, now);
      case MarkNo => m.MarkBuyNo(key);
      case Sell(n, price, now) => var _ := m.ApplySell(key, n, price, now);
      case Settle(won, now) => var _, _ := m.Settle(key, won, now);
    }
    assert ops[..|ops|] == ops;
  }
}
