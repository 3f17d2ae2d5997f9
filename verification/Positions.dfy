/** The position ledger: one row per (match, market, strategy, real/paper), opened by
    buys, closed by sells and settled once at market settlement.  Prices and counts are
    exact reals; realised P&L is kept in whole cents, truncated as the source does.
 */
module Positions {
  import opened Wrappers
  import opened Money

  datatype Error = BadCount | BadPrice | IsSettled | NoOpenPosition | InsufficientSize

  datatype Status = Open | Closed | Settled

  datatype Key = Key(matchTicker: string, marketTicker: string, strategy: string, isReal: bool)

  datatype Position = Position(
    action: string,
    bought: real, sold: real,
    avgEntry: real, avgExit: real,
    realizedCents: int,
    status: Status,
    openedTS: int, closedTS: int)

  datatype Sale = Sale(position: Position, cents: int, remaining: real)

  function AtMostOne(price: real): real { if price > 1.0 then 1.0 else price }

  function ClampPrice(price: real): real { AtMostOne(if price < 0.0 then 0.0 else price) }

  /** The average over `n` contracts at `avg` and `m` more at `price`. */
  function Reweight(n: real, avg: real, m: real, price: real): real {
    if n + m > 0.0 then (n * avg + m * price) / (n + m) else avg
  }

  /** P&L of `n` contracts from `entry` to `exit`, in cents, half a cent added and truncated. */
  function Cents(exit: real, entry: real, n: real): int {
    Truncate((exit - entry) * n * 100.0 + 0.5)
  }

  /** A result of `x` cents is booked as `n`: half a cent is added and the fraction dropped. */
  predicate Books(n: int, x: real) { WithoutFraction(n, x + 0.5) }

  /** The exact result of `n` contracts, in cents. */
  function ExactCents(exit: real, entry: real, n: real): real { (exit - entry) * n * 100.0 }

  lemma CentsBooks(exit: real, entry: real, n: real)
    ensures Books(Cents(exit, entry, n), ExactCents(exit, entry, n))
  {
    Truncates((exit - entry) * n * 100.0 + 0.5, Cents(exit, entry, n));
  }

  /** So a whole number of cents gained is booked as it is, and one lost as a cent less. */
  lemma WholeCents(n: int, k: int)
    ensures Books(n, k as real) <==> n == if k >= 0 then k else k + 1
  {
  }

  // ---------------------------------------------------------------- one row

  function BuyRow(row: Option<Position>, count: real, price: real, now: int): Result<Position, Error> {
    if count <= 0.0 then Err(BadCount)
    else if price < 0.0 then Err(BadPrice)
    else
      var price := AtMostOne(price);
      match row
      case None => Ok(Position("", count, 0.0, price, 0.0, 0, Open, now, 0))
      case Some(p) =>
        if p.status == Settled then Err(IsSettled)
        else
          var total := p.bought + count;
          Ok(p.(avgEntry := Reweight(p.bought, p.avgEntry, count, price),
                bought := total,
                status := Open,
                closedTS := if p.status == Closed then 0 else p.closedTS))
  }

  function SellRow(row: Option<Position>, count: real, price: real, now: int): Result<Sale, Error> {
    if count <= 0.0 then Err(BadCount)
    else
      var price := ClampPrice(price);
      match row
      case None => Err(NoOpenPosition)
      case Some(p) =>
        var open := p.bought - p.sold;
        if p.status == Settled then Err(IsSettled)
        else if open <= 0.0 then Err(NoOpenPosition)
        else if count > open then Err(InsufficientSize)
        else
          var cents := Cents(price, p.avgEntry, count);
          var total := p.sold + count;
          var remaining := p.bought - total;
          Ok(Sale(
               p.(avgExit := Reweight(p.sold, p.avgExit, count, price),
                  sold := total,
                  realizedCents := p.realizedCents + cents,
                  status := if remaining == 0.0 then Closed else p.status,
                  closedTS := if remaining == 0.0 then now else p.closedTS),
               cents, remaining))
  }

  /** Contracts still open at settlement. */
  function Remaining(p: Position): real {
    if p.bought - p.sold < 0.0 then 0.0 else p.bought - p.sold
  }

  /** A NO position wins when the market resolves to no. */
  predicate Wins(p: Position, won: bool) {
    if p.action == "buy_no" then !won else won
  }

  function SettlementCents(p: Position, won: bool): int {
    var n := Remaining(p);
    if n <= 0.0 then 0
    else if Wins(p, won) then Cents(1.0, p.avgEntry, n)
    else -Cents(p.avgEntry, 0.0, n)
  }

  /** What a settlement books: a dollar less the average entry per open contract if the market
      went the position's way, which for a NO position is to no, else the average entry lost. */
  predicate SettlementBooks(p: Position, won: bool, cents: int, remaining: real) {
    var open := p.bought - p.sold;
    if open <= 0.0 then cents == 0 && remaining == 0.0
    else
      && remaining == open
      && if (p.action == "buy_no") != won then Books(cents, ExactCents(1.0, p.avgEntry, open))
         else Books(-cents, ExactCents(p.avgEntry, 0.0, open))
  }

  function SettleRow(p: Position, won: bool, now: int): Position {
    if p.status == Settled then p
    else p.(realizedCents := p.realizedCents + SettlementCents(p, won), status := Settled, closedTS := now)
  }

  // ---------------------------------------------------------------- the manager

  /** Each method body is one database transaction. */
  class Manager {
    var rows: map<Key, Position>

    constructor ()
      ensures rows == map[]
    {
      rows := map[];
    }

    function Row(key: Key): Option<Position>
      reads this
    {
      if key in rows then Some(rows[key]) else None
    }

    method ApplyBuy(key: Key, count: real, price: real, now: int) returns (r: Result<Position, Error>)
      modifies this
      ensures r == BuyRow(old(Row(key)), count, price, now)
      ensures rows == if r.Ok? then old(rows)[key := r.value] else old(rows)
    {
      if count <= 0.0 {
        return Err(BadCount);
      }
      if price < 0.0 {
        return Err(BadPrice);
      }
      var unit := price;
      if unit > 1.0 {
        unit := 1.0;
      }
      var p: Position;
      if key !in rows {
        p := Position("", count, 0.0, unit, 0.0, 0, Open, now, 0);
      } else {
        p := rows[key];
        if p.status == Settled {
          return Err(IsSettled);
        }
        var total := p.bought + count;
        p := p.(avgEntry := Reweight(p.bought, p.avgEntry, count, unit), bought := total);
        if p.status == Closed {
          p := p.(status := Open, closedTS := 0);
        }
      }
      rows := rows[key := p];
      r := Ok(p);
    }

    /** The second transaction of a NO buy, which follows a successful `ApplyBuy`. */
    method MarkBuyNo(key: Key)
      modifies this
      ensures rows == if key in old(rows) then old(rows)[key := old(rows)[key].(action := "buy_no")] else old(rows)
    {
      if key in rows {
        rows := rows[key := rows[key].(action := "buy_no")];
      }
    }

    method ApplyBuyNO(key: Key, count: real, price: real, now: int) returns (r: Result<Position, Error>)
      modifies this
      ensures r == BuyRow(old(Row(key)), count, price, now)
      ensures rows == if r.Ok? then old(rows)[key := r.value.(action := "buy_no")] else old(rows)
    {
      r := ApplyBuy(key, count, price, now);
      if r.Ok? {
        MarkBuyNo(key);
      }
    }

    method ApplySell(key: Key, count: real, price: real, now: int) returns (r: Result<Sale, Error>)
      modifies this
      ensures r == SellRow(old(Row(key)), count, price, now)
      ensures rows == if r.Ok? then old(rows)[key := r.value.position] else old(rows)
      ensures r.Ok? ==>
                && key in old(rows)
                && var p, unit := old(rows)[key], if price < 0.0 then 0.0 else if price > 1.0 then 1.0 else price;
                   && Books(r.value.cents, ExactCents(unit, p.avgEntry, count))
                   && r.value.position.realizedCents == p.realizedCents + r.value.cents
                   && r.value.remaining == p.bought - p.sold - count
    {
      hide Books, Cents, Reweight, ExactCents;
      if count <= 0.0 {
        return Err(BadCount);
      }
      var unit := price;
      if unit < 0.0 {
        unit := 0.0;
      }
      if unit > 1.0 {
        unit := 1.0;
      }
      if key !in rows {
        return Err(NoOpenPosition);
      }
      var p := rows[key];
      if p.status == Settled {
        return Err(IsSettled);
      }
      var open := p.bought - p.sold;
      if open <= 0.0 {
        return Err(NoOpenPosition);
      }
      if count > open {
        return Err(InsufficientSize);
      }
      var cents := Cents(unit, p.avgEntry, count);
      CentsBooks(unit, p.avgEntry, count);
      var total := p.sold + count;
      p := p.(avgExit := Reweight(p.sold, p.avgExit, count, unit), sold := total, realizedCents := p.realizedCents + cents);
      var remaining := p.bought - p.sold;
      if remaining == 0.0 {
        p := p.(status := Closed, closedTS := now);
      }
      rows := rows[key := p];
      r := Ok(Sale(p, cents, remaining));
    }

    method Settle(key: Key, won: bool, now: int) returns (cents: int, remaining: real)
      modifies this
      ensures rows == if key in old(rows) then old(rows)[key := SettleRow(old(rows)[key], won, now)] else old(rows)
      ensures if key in old(rows) && old(rows)[key].status != Settled
              then cents == SettlementCents(old(rows)[key], won) && remaining == Remaining(old(rows)[key])
              else cents == 0 && remaining == 0.0
      ensures key in old(rows) && old(rows)[key].status != Settled ==>
                var p := old(rows)[key];
                && rows[key].realizedCents == p.realizedCents + cents
                && SettlementBooks(p, won, cents, remaining)
    {
      hide Books, Cents, ExactCents;
      cents, remaining := 0, 0.0;
      if key !in rows {
        return;
      }
      var p := rows[key];
      if p.status == Settled {
        assert rows[key := p] == rows;
        return;
      }
      remaining := p.bought - p.sold;
      if remaining < 0.0 {
        remaining := 0.0;
      }
      var effectiveWon := won;
      if p.action == "buy_no" {
        effectiveWon := !won;
      }
      if remaining > 0.0 {
        if effectiveWon {
          cents := Cents(1.0, p.avgEntry, remaining);
          CentsBooks(1.0, p.avgEntry, remaining);
        } else {
          cents := -Cents(p.avgEntry, 0.0, remaining);
          CentsBooks(p.avgEntry, 0.0, remaining);
        }
        p := p.(realizedCents := p.realizedCents + cents);
      }
      p := p.(status := Settled, closedTS := now);
      rows := rows[key := p];
    }

    /** Both settlement paths (reconciler and WebSocket): look up the market's open rows,
        then settle them one by one. */
    method SettleMarket(market: string, won: bool, now: int)
      modifies this
      ensures rows.Keys == old(rows).Keys
      ensures forall k <- rows :: rows[k] ==
                if k.marketTicker == market && old(rows)[k].status == Open then SettleRow(old(rows)[k], won, now)
                else old(rows)[k]
    {
      var open := set k | k in rows && k.marketTicker == market && rows[k].status == Open;
      var todo := open;
      while todo != {}
        invariant todo <= open
        invariant rows.Keys == old(rows).Keys
        invariant forall k <- rows :: rows[k] ==
                    if k in open && k !in todo then SettleRow(old(rows)[k], won, now) else old(rows)[k]
        decreases |todo|
      {
        var k :| k in todo;
        var _, _ := Settle(k, won, now);
        todo := todo - {k};
      }
    }
  }
}
